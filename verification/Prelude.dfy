/** Values shared by the services' models. */
module Prelude {

  datatype Option<+T> = None | Some(value: T)

  datatype Result<+T, +E> = Ok(value: T) | Err(error: E)

  /** What one remote call (database, Redis, NATS, SMTP, provider) did.
      Done: it took effect and said so.
      Lost: it took no effect and reported an error.
      Unacked: it took effect, but its caller saw an error. */
  datatype Outcome = Done | Lost | Unacked

  /** A schedule extended by one action and then by more. */
  lemma Extended<A>(a: seq<A>, x: A, b: seq<A>)
    ensures a + ([x] + b) == a + [x] + b
  {
  }

  lemma SetTwice<K, V>(m: map<K, V>, k: K, v: V, w: V)
    ensures m[k := v][k := w] == m[k := w]
  {
  }

  lemma SetSame<K, V>(m: map<K, V>, k: K)
    requires k in m
    ensures m[k := m[k]] == m
  {
  }

  /** Go's int64 arithmetic keeps the low 64 bits of the exact result, read as a signed number. */
  const TWO63: int := 0x8000_0000_0000_0000
  const TWO64: int := 0x1_0000_0000_0000_0000

  type int64 = x: int | -TWO63 <= x < TWO63

  function Wrap64(x: int): (r: int64)
    ensures (x - r) % TWO64 == 0
  {
    var low := x % TWO64;
    if low < TWO63 then low else low - TWO64
  }
}
