/** The total of an order, in 64-bit arithmetic. */
module OrderTotal {
  import opened Prelude

  datatype Item = Item(productId: string, quantity: int64, price: int64)

  predicate Acceptable(item: Item) {
    item.productId != "" && item.quantity > 0 && item.price >= 0
  }

  predicate AllAcceptable(items: seq<Item>) {
    forall i | 0 <= i < |items| :: Acceptable(items[i])
  }

  /** The sum the customer means, in unbounded integers. */
  function TrueTotal(items: seq<Item>): int {
    if items == [] then 0
    else TrueTotal(items[..|items| - 1]) + items[|items| - 1].quantity * items[|items| - 1].price
  }

  /** The sum the program stores; None is invalid input. */
  function StoredTotal(items: seq<Item>): Option<int64> {
    if items != [] && AllAcceptable(items) then Some(Wrap64(TrueTotal(items))) else None
  }

  /** Wrapping after each step is the same as wrapping once at the end. */
  lemma WrapAgain(a: int, b: int)
    ensures Wrap64(Wrap64(a) + Wrap64(b)) == Wrap64(a + b)
  {
    var x, y := Wrap64(a), Wrap64(b);
    assert ((a - x) + (b - y)) % TWO64 == 0;
    var k := ((a + b) - (x + y)) / TWO64;
    assert a + b == x + y + k * TWO64;
    assert (a + b) % TWO64 == (x + y) % TWO64;
  }

  method AddUp(items: seq<Item>) returns (total: Option<int64>)
    ensures total == StoredTotal(items)
    ensures total.Some? <==>
              items != [] && forall i | 0 <= i < |items| ::
                items[i].productId != "" && items[i].quantity > 0 && items[i].price >= 0
    ensures total.Some? ==> (TrueTotal(items) - total.value) % 0x1_0000_0000_0000_0000 == 0
  {
    if items == [] { return None; }
    var sum: int64 := 0;
    var i := 0;
    while i < |items|
      invariant 0 <= i <= |items|
      invariant AllAcceptable(items[..i])
      invariant sum == Wrap64(TrueTotal(items[..i]))
    {
      var item := items[i];
      if item.productId == "" || item.quantity <= 0 || item.price < 0 { return None; }
      assert items[..i + 1][..i] == items[..i];
      WrapAgain(TrueTotal(items[..i]), item.quantity * item.price);
      sum := Wrap64(sum + Wrap64(item.quantity * item.price));
      i := i + 1;
    }
    assert items[..i] == items;
    total := Some(sum);
  }

  /** The true sum is what one expects: an item counts quantity times price, and parts add up. */
  lemma TotalOfOne(item: Item)
    ensures TrueTotal([item]) == item.quantity * item.price
  {
    assert [item][..0] == [];
  }

  lemma {:induction false} TotalOfConcat(a: seq<Item>, b: seq<Item>)
    ensures TrueTotal(a + b) == TrueTotal(a) + TrueTotal(b)
  {
    if b == [] {
      assert a + b == a;
    } else {
      TotalOfConcat(a, b[..|b| - 1]);
      assert (a + b)[..|a + b| - 1] == a + b[..|b| - 1];
    }
  }

  /** So the stored totals of two parts of an order add up, in 64 bits, to the total of the whole. */
  lemma StoredOfConcat(a: seq<Item>, b: seq<Item>)
    requires StoredTotal(a).Some? && StoredTotal(b).Some?
    ensures StoredTotal(a + b) == Some(Wrap64(StoredTotal(a).value + StoredTotal(b).value))
  {
    TotalOfConcat(a, b);
    WrapAgain(TrueTotal(a), TrueTotal(b));
  }

  lemma ProductBounds(a: nat, b: nat, q: nat, p: nat)
    requires a <= q && b <= p
    ensures 0 <= a * b <= q * p
  {
  }

  lemma Distribute(n: nat, m: int)
    ensures (n + 1) * m == n * m + m
  {
  }

  lemma {:induction false} TrueTotalBounds(items: seq<Item>, q: nat, p: nat)
    requires AllAcceptable(items)
    requires forall i | 0 <= i < |items| :: items[i].quantity <= q && items[i].price <= p
    ensures 0 <= TrueTotal(items) <= |items| * (q * p)
  {
    if items != [] {
      var n := |items| - 1;
      TrueTotalBounds(items[..n], q, p);
      var a, b := items[n].quantity, items[n].price;
      ProductBounds(a, b, q, p);
      Distribute(n, q * p);
    }
  }

  /** The stored total is the true one exactly when the true one fits; it then is not negative. */
  lemma {:induction false} StoredIsTrueIffItFits(items: seq<Item>)
    requires StoredTotal(items).Some?
    ensures StoredTotal(items).value == TrueTotal(items) <==> TrueTotal(items) < TWO63
    ensures 0 <= TrueTotal(items)
  {
    TrueTotalBounds(items, TWO63, TWO63);
  }

  lemma {:induction false} SmallOrdersAreExact(items: seq<Item>, q: nat, p: nat)
    requires StoredTotal(items).Some?
    requires forall i | 0 <= i < |items| :: items[i].quantity <= q && items[i].price <= p
    requires |items| * (q * p) < TWO63
    ensures StoredTotal(items).value == TrueTotal(items)
  {
    TrueTotalBounds(items, q, p);
    StoredIsTrueIffItFits(items);
  }

  /** An order of four pieces that would cost more than 2^64 is stored with a total of four. */
  lemma HugeOrderIsStoredAsSmall()
    ensures var items := [Item("product-1", 4, 0x4000_0000_0000_0001)];
            StoredTotal(items) == Some(4) && TrueTotal(items) == TWO64 + 4
  {
  }
}
