/** Double-entry accounts of the life cycle. A weight is put on a message according to where
    it is; each step moves weight from one place to another. Conservation, the bound on
    handler calls and termination are three choices of weights. */
module LifecycleAccounts {
  import opened Common
  import opened Dispatchers
  import opened Lifecycle
  import opened LifecycleInvariant

  type Weight = Message -> int

  /** `pending` and `stale` weigh the client's copy of a delivery, before and after the
      connection it came on was lost. */
  datatype Weights = Weights(
    main: Weight, unacked: Weight, retry: Weight, dlq: Weight, done: Weight, lost: Weight,
    pending: Weight, stale: Weight)

  function OnTagged(f: Weight): Tagged -> int {
    (t: Tagged) => f(t.message)
  }

  function OnLost(f: Weight): Lost -> int {
    (l: Lost) => f(l.message)
  }

  ghost function Total(s: State, w: Weights): int {
    Sum(s.main, w.main) + Sum(s.unacked, OnTagged(w.unacked)) + Sum(s.retry, w.retry) + Sum(s.dlq, w.dlq)
    + Sum(s.done, w.done) + Sum(s.lost, OnLost(w.lost))
    + Sum(s.buffer, OnTagged(if s.live then w.pending else w.stale))
  }

  lemma SumFirst<T>(s: seq<T>, f: T -> int)
    requires s != []
    ensures Sum(s, f) == f(s[0]) + Sum(s[1..], f)
  {
  }

  lemma PublishAccount(cfg: Config, s: State, m: Message, w: Weights)
    requires Next(cfg, s, Publish(m)).Some?
    ensures Total(Next(cfg, s, Publish(m)).value, w) == Total(s, w) + w.main(m)
  {
    SumSnoc(s.main, m, w.main);
  }

  lemma DeliverAccount(cfg: Config, s: State, w: Weights)
    requires Next(cfg, s, Deliver).Some?
    ensures var m := s.main[0];
            Total(Next(cfg, s, Deliver).value, w) == Total(s, w) - w.main(m) + w.unacked(m) + w.pending(m)
  {
    var t := Tagged(s.nextTag, s.main[0]);
    SumSnoc(s.unacked, t, OnTagged(w.unacked));
    SumSnoc(s.buffer, t, OnTagged(w.pending));
  }

  lemma ReceiveAccount(cfg: Config, s: State, r: HandlerResult, w: Weights)
    requires Next(cfg, s, Receive(r)).Some?
    ensures var m := s.buffer[0].message;
            Total(Next(cfg, s, Receive(r)).value, w) == Total(s, w) - (if s.live then w.pending(m) else w.stale(m))
  {
  }

  lemma ExpireAccount(cfg: Config, s: State, w: Weights)
    requires s.retry != []
    ensures var m := s.retry[0];
            Total(Expired(cfg, s), w) == Total(s, w) - w.retry(m) + w.main(Expiry(cfg, m))
  {
    SumSnoc(s.main, Expiry(cfg, s.retry[0]), w.main);
  }

  lemma ResumeAccount(cfg: Config, s: State, w: Weights)
    requires Next(cfg, s, Resume).Some?
    ensures Total(Next(cfg, s, Resume).value, w) == Total(s, w) - Sum(s.buffer, OnTagged(w.stale))
  {
  }

  lemma {:induction false} SumOfMessages(ds: seq<Tagged>, f: Weight)
    ensures Sum(Messages(ds), f) == Sum(ds, OnTagged(f))
  {
    if ds != [] {
      assert Messages(ds)[1..] == Messages(ds[1..]);
      SumOfMessages(ds[1..], f);
    }
  }

  lemma DropAccount(s: State, w: Weights)
    requires s.live
    ensures Total(Drop(s), w) ==
            Total(s, w) + Sum(s.unacked, OnTagged(w.main)) - Sum(s.unacked, OnTagged(w.unacked))
            + Sum(s.buffer, OnTagged(w.stale)) - Sum(s.buffer, OnTagged(w.pending))
  {
    SumConcat(Messages(s.unacked), s.main, w.main);
    SumOfMessages(s.unacked, w.main);
  }

  /** What an answer makes of the weight of the delivery it settles. */
  ghost function Settled(cfg: Config, m: Message, v: Verdict, w: Weights): int {
    match v
    case Unmatched | FailedWithoutDlq => w.lost(m)
    case Succeeded => w.done(m)
    case LimitReached | Failed => 0
    case Undecodable | SentToRetry =>
      if cfg.q.Cycles() then w.retry(Rejection(cfg, m))
      else if cfg.q.withDLQ then w.dlq(Rejection(cfg, m))
      else w.lost(m)
  }

  lemma SettleAccount(cfg: Config, t: State, m: Message, v: Verdict, u: State, w: Weights)
    requires u.main == t.main && u.unacked == t.unacked && u.buffer == t.buffer && u.live == t.live
    requires match v
             case Unmatched => u == t.(lost := t.lost + [Lost(m, NoConsumerFor)])
             case FailedWithoutDlq => u == t.(lost := t.lost + [Lost(m, FailureWithoutDlq)])
             case Succeeded => u == t.(done := t.done + [m])
             case LimitReached | Failed => u == t
             case Undecodable | SentToRetry =>
               u.(h := t.h) ==
               if cfg.q.Cycles() then t.(retry := t.retry + [Rejection(cfg, m)])
               else if cfg.q.withDLQ then t.(dlq := t.dlq + [Rejection(cfg, m)])
               else t.(lost := t.lost + [Lost(m, NoDeadLetterTarget)])
    ensures Total(u, w) == Total(t, w) + Settled(cfg, m, v, w)
  {
    match v
    case Unmatched => SumSnoc(t.lost, Lost(m, NoConsumerFor), OnLost(w.lost));
    case FailedWithoutDlq => SumSnoc(t.lost, Lost(m, FailureWithoutDlq), OnLost(w.lost));
    case Succeeded => SumSnoc(t.done, m, w.done);
    case LimitReached | Failed =>
    case Undecodable | SentToRetry =>
      if cfg.q.Cycles() {
        SumSnoc(t.retry, Rejection(cfg, m), w.retry);
      } else if cfg.q.withDLQ {
        SumSnoc(t.dlq, Rejection(cfg, m), w.dlq);
      } else {
        SumSnoc(t.lost, Lost(m, NoDeadLetterTarget), OnLost(w.lost));
      }
  }

  lemma AnswerAccount(cfg: Config, s: State, d: Tagged, v: Verdict, w: Weights)
    requires s.unacked == [d] + s.buffer
    ensures Total(Answered(cfg, s, d, v), w) == Total(s, w) - w.unacked(d.message) + Settled(cfg, d.message, v, w)
  {
    var t := s.(unacked := s.buffer, settledTags := s.settledTags + [d.tag]);
    assert s.unacked[0] == d && s.unacked[1..] == s.buffer;
    SumFirst(s.unacked, OnTagged(w.unacked));
    assert Total(t, w) == Total(s, w) - w.unacked(d.message);
    SettleAccount(cfg, t, d.message, v, Answered(cfg, s, d, v), w);
  }

  ghost function Copied(cfg: Config, m: Message, settled: bool, ok: bool, w: Weights): int {
    if settled then
      if !ok then w.lost(m) else if cfg.q.withDLQ then w.dlq(Addressed(cfg, m)) else w.lost(Addressed(cfg, m))
    else if ok && cfg.q.withDLQ then w.dlq(Addressed(cfg, m))
    else 0
  }

  lemma RepublishAccount(cfg: Config, s: State, m: Message, settled: bool, ok: bool, w: Weights)
    ensures Total(Republished(cfg, s, m, settled, ok), w) == Total(s, w) + Copied(cfg, m, settled, ok, w)
  {
    SumSnoc(s.dlq, Addressed(cfg, m), w.dlq);
    SumSnoc(s.lost, Lost(m, PublishFailed), OnLost(w.lost));
    SumSnoc(s.lost, Lost(Addressed(cfg, m), Unroutable), OnLost(w.lost));
  }

  lemma TurnAccount(cfg: Config, s: State, t: State, w: Weights)
    requires s.consumer.Busy?
    ensures Total(Advance(Turned(cfg, s, t)), w) == Total(t, w)
  {
  }

  lemma {:induction false} SumIsMonotone<T>(s: seq<T>, f: T -> int, g: T -> int)
    requires forall x :: x in s ==> f(x) <= g(x)
    ensures Sum(s, f) <= Sum(s, g)
  {
    if s != [] {
      assert s[0] in s;
      SumIsMonotone(s[1..], f, g);
    }
  }

  lemma {:induction false} SumIsNonNegative<T>(s: seq<T>, f: T -> int)
    requires forall x :: x in s ==> f(x) >= 0
    ensures Sum(s, f) >= 0
  {
    if s != [] {
      assert s[0] in s;
      SumIsNonNegative(s[1..], f);
    }
  }

  function One(id: nat): Weight {
    (m: Message) => if m.id == id then 1 else 0
  }

  function Nothing(): Weight {
    (m: Message) => 0
  }

  /** The redelivery count of a message is what its deliveries weigh one by one. */
  lemma {:induction false} IdsCount(ds: seq<Tagged>, id: nat)
    ensures Ids(ds)[id] == Sum(ds, OnTagged(One(id)))
  {
    var ids := seq(|ds|, i requires 0 <= i < |ds| => ds[i].message.id);
    if ds != [] {
      var rest := ds[1..];
      var restIds := seq(|rest|, i requires 0 <= i < |rest| => rest[i].message.id);
      assert ids == [ds[0].message.id] + restIds;
      IdsCount(rest, id);
    }
  }

  lemma {:induction false} IdsSize(ds: seq<Tagged>)
    ensures |Ids(ds)| == |ds|
  {
    assert |seq(|ds|, i requires 0 <= i < |ds| => ds[i].message.id)| == |ds|;
  }
}
