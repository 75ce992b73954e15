/** The order service's NATS consumer: which subjects it subscribes, and what a message on each does. */
module OrderConsumer {
  import opened Prelude
  import P = PaymentProtocol
  import O = OrderProtocol
  import S = OrderService

  datatype Topic = Payments(subject: P.Subject) | StockReserved

  /** What the consumer reads from a message, if it can be decoded. */
  datatype Payload = Undecodable | Payload(orderId: string, reason: string)

  /** What a message on a topic asks of the order service; a reservation of stock changes nothing. */
  function GoalOf(topic: Topic, reason: string): Option<O.Goal> {
    match topic
    case Payments(SubjectSucceeded) => Some(O.PaymentSucceeded)
    case Payments(SubjectFailed) => Some(O.PaymentFailing(reason))
    case _ => None
  }

  class Consumer {
    const service: S.Service
    var subs: seq<Topic>

    constructor (service: S.Service)
      ensures this.service == service && subs == []
    {
      this.service := service;
      subs := [];
    }

    method Subscribe(topic: Topic, o: Outcome) returns (ok: bool)
      modifies this`subs
      ensures ok == o.Done? && subs == if ok then old(subs) + [topic] else old(subs)
    {
      ok := o.Done?;
      if ok { subs := subs + [topic]; }
    }

    /** Stops at the first subscription that fails; otherwise every topic that changes orders is
        subscribed, once. */
    method Start(env: nat -> Outcome) returns (ok: bool)
      requires subs == []
      modifies this`subs
      ensures ok <==> env(0).Done? && env(1).Done? && env(2).Done?
      ensures subs <= [Payments(P.SubjectSucceeded), Payments(P.SubjectFailed), StockReserved]
      ensures ok ==> |subs| == 3 && forall topic, reason | GoalOf(topic, reason).Some? :: topic in subs
      ensures !ok ==> |subs| < 3 && !env(|subs|).Done? && forall k: nat | k < |subs| :: env(k).Done?
    {
      ok := Subscribe(Payments(P.SubjectSucceeded), env(0));
      if !ok { return; }
      ok := Subscribe(Payments(P.SubjectFailed), env(1));
      if !ok { return; }
      ok := Subscribe(StockReserved, env(2));
      assert ok ==> subs[0] == Payments(P.SubjectSucceeded) && subs[1] == Payments(P.SubjectFailed);
    }

    /** A delivery is a call of the order service, whose error is only logged. */
    method Receive(topic: Topic, payload: Payload, env: nat -> Outcome)
      requires topic in subs
      modifies service
      ensures match payload
              case Undecodable => service.State() == old(service.State())
              case Payload(id, reason) =>
                var before := old(service.State());
                match topic
                case Payments(SubjectSucceeded) =>
                  service.State() == S.Complete(before, O.StartUpdate(id, O.PaymentSucceeded), env, 0).0
                case Payments(SubjectFailed) =>
                  service.State() == S.Complete(before, O.StartUpdate(id, O.PaymentFailing(reason)), env, 0).0
                case _ => service.State() == before
    {
      if payload.Undecodable? { return; }
      match topic {
        case Payments(SubjectSucceeded) =>
          var reply := service.HandlePaymentSucceeded(payload.orderId, env);
        case Payments(SubjectFailed) =>
          var reply := service.HandlePaymentFailed(payload.orderId, payload.reason, env);
        case StockReserved =>
          var reply := service.HandleStockReserved(payload.orderId, env(0));
        case _ =>
      }
    }
  }
}
