/** What every reachable state of the life cycle looks like: the `x-death` entries of each
    message, and the tags of the deliveries that are still open. */
module LifecycleInvariant {
  import opened Common
  import opened Dispatchers
  import opened Lifecycle
  import B = Broker
  import D = Deliveries
  import Q = Queues
  import T = Topologies

  function RejectedDeath(q: Q.Queue, m: Message, count: nat): D.Death {
    D.Death(q.name, D.Rejected, count, m.firstExchange, [m.firstKey])
  }

  function ExpiredDeath(q: Q.Queue, count: nat): D.Death {
    D.Death(q.RetryName(), D.Expired, count, "", [q.RetryName()])
  }

  /** A message in the main queue or out for delivery: as published, or back from its
      `trips`-th stay in the retry queue. */
  ghost predicate Fresh(cfg: Config, m: Message) {
    && D.XDeath !in m.user
    && if m.trips == 0 then m.deaths == [] && m.exchange == m.firstExchange && m.routingKey == m.firstKey
       else && cfg.q.Cycles() && m.exchange == "" && m.routingKey == cfg.q.name
            && m.deaths == [ExpiredDeath(cfg.q, m.trips), RejectedDeath(cfg.q, m, m.trips)]
  }

  /** A message in the retry queue, on trip number `trips + 1`. */
  ghost predicate Resting(cfg: Config, m: Message) {
    && D.XDeath !in m.user && cfg.q.Cycles()
    && m.exchange == "" && m.routingKey == cfg.q.RetryName()
    && m.deaths == [RejectedDeath(cfg.q, m, m.trips + 1)] + (if m.trips == 0 then [] else [ExpiredDeath(cfg.q, m.trips)])
  }

  function Open(c: Consumer): seq<Tagged> {
    if c.Busy? && !c.settled then [c.d] else []
  }

  function Upto(n: nat): seq<nat> {
    seq(n, i => i + 1)
  }

  ghost predicate MessagesInv(cfg: Config, s: State) {
    && (forall m :: m in s.main ==> Fresh(cfg, m))
    && (forall t :: t in s.unacked ==> Fresh(cfg, t.message))
    && (forall t :: t in s.buffer ==> Fresh(cfg, t.message))
    && (forall m :: m in s.retry ==> Resting(cfg, m))
    && (s.consumer.Busy? ==> Fresh(cfg, s.consumer.d.message))
  }

  ghost predicate ConsumerInv(cfg: Config, s: State) {
    s.consumer.Busy? ==>
      var Busy(d, r, v, next, settled) := s.consumer;
      && D.Extract(Seen(d.message)).Extracted? && v == VerdictOn(cfg, d.message, r)
      && PhaseInv(cfg, s)
  }

  ghost predicate PhaseInv(cfg: Config, s: State)
    requires s.consumer.Busy?
  {
    var Busy(d, r, v, next, settled) := s.consumer;
    && next < ScriptLength(cfg.q, v)
    && (settled ==> next > Lead(v))
    && (s.live && !settled ==> next <= Lead(v))
  }

  /** The deliveries still open are the one at hand, if unanswered, and those in the buffer;
      their tags are consecutive, and every tag before them was settled once, in order. */
  ghost predicate TagsInv(s: State) {
    && (!s.live ==> s.unacked == [])
    && (s.live ==>
          && s.unacked == Open(s.consumer) + s.buffer
          && |s.unacked| < s.nextTag
          && (forall i :: 0 <= i < |s.unacked| ==> s.unacked[i].tag == s.nextTag - |s.unacked| + i)
          && s.settledTags == Upto(s.nextTag - |s.unacked| - 1)
          && (s.consumer.Busy? && s.consumer.settled ==> s.consumer.d.tag < s.nextTag - |s.unacked|))
  }

  ghost predicate LossesInv(cfg: Config, s: State) {
    cfg.q.Cycles() ==> forall l :: l in s.lost ==> l.why.NoConsumerFor? || l.why.PublishFailed?
  }

  /** A stale delivery went back to the queue; extra copies come from stale deliveries only. */
  ghost predicate StaleInv(s: State) {
    && (!s.live ==> forall t :: t in s.buffer ==> t.message.id in s.h.redelivered)
    && (!s.live && s.consumer.Busy? && !s.consumer.settled ==> s.consumer.d.message.id in s.h.redelivered)
    && (forall id :: id in s.h.copies ==> id in s.h.redelivered)
  }

  ghost predicate Inv(cfg: Config, s: State) {
    MessagesInv(cfg, s) && ConsumerInv(cfg, s) && TagsInv(s) && LossesInv(cfg, s) && StaleInv(s)
  }

  // What the dispatcher reads from a fresh message.

  /** The count is the number of completed trips, the origin that of the first publish, and
      reading them never goes out of bounds. */
  lemma FreshMetadata(cfg: Config, m: Message)
    requires Fresh(cfg, m)
    ensures D.Extract(Seen(m)) ==
            D.Extracted(D.Metadata(m.messageId, m.trips, m.typ, m.firstExchange, m.firstKey, Seen(m).headers))
  {
    D.ExtractReadsTheDeaths(Seen(m), m.user, m.deaths);
  }

  /** The actions performed step by step are those of the dispatcher. */
  lemma ScriptIsTheDispatchers(cfg: Config, m: Message, r: HandlerResult)
    requires D.Extract(Seen(m)).Extracted?
    ensures var v, script := VerdictOn(cfg, m, r), Actions(cfg.q, cfg.defs, Seen(m), r);
            && |script| == ScriptLength(cfg.q, v)
            && (forall i :: 0 <= i < Lead(v) ==> script[i].Invoke?)
            && script[Lead(v)..] == Settlement(cfg.q, v)
  {
  }

  // The two dead-letterings of the cycle.

  lemma NamesDiffer(q: Q.Queue)
    requires q.name != ""
    ensures q.name != q.RetryName() && q.name != q.DLQName() && q.DLQName() != q.RetryName()
    ensures q.RetryName() != "" && q.DLQName() != ""
  {
    Q.DerivedNamesDiffer(q.name, q.name);
    assert |q.RetryName()| >= 6 && |q.DLQName()| >= 4;
  }

  function Rejection(cfg: Config, m: Message): Message {
    m.(deaths := D.Bury(m.deaths, cfg.q.name, D.Rejected, m.exchange, m.routingKey), exchange := "",
       routingKey := if cfg.q.withRetry then cfg.q.RetryName() else cfg.q.DLQName())
  }

  lemma RejectGoesWhereTheArgumentsSay(cfg: Config, s: State, m: Message)
    requires Valid(cfg)
    ensures Reject(cfg, s, m) ==
            if cfg.q.Cycles() then s.(retry := s.retry + [Rejection(cfg, m)])
            else if cfg.q.withDLQ then s.(dlq := s.dlq + [Rejection(cfg, m)])
            else s.(lost := s.lost + [Lost(m, NoDeadLetterTarget)])
  {
    NamesDiffer(cfg.q);
    var args := T.MainArgs(cfg.q);
    if cfg.q.withDLQ {
      assert args[B.DeadLetterExchange] == B.Text("");
      assert args[B.DeadLetterRoutingKey] == B.Text(if cfg.q.withRetry then cfg.q.RetryName() else cfg.q.DLQName());
    }
  }

  lemma RejectionRests(cfg: Config, m: Message)
    requires Valid(cfg) && cfg.q.Cycles() && Fresh(cfg, m)
    ensures Resting(cfg, Rejection(cfg, m))
  {
    NamesDiffer(cfg.q);
    var m' := Rejection(cfg, m);
    if m.trips == 0 {
      assert m'.deaths == [RejectedDeath(cfg.q, m, 1)] + [];
    } else {
      assert D.Find(m.deaths, cfg.q.name, D.Rejected) == 1;
      assert m'.deaths == [RejectedDeath(cfg.q, m, m.trips + 1), ExpiredDeath(cfg.q, m.trips)];
    }
  }

  function Expiry(cfg: Config, m: Message): Message {
    m.(deaths := D.Bury(m.deaths, cfg.q.RetryName(), D.Expired, m.exchange, m.routingKey), exchange := "",
       routingKey := cfg.q.name, trips := m.trips + 1)
  }

  lemma ExpiryIsFresh(cfg: Config, m: Message)
    requires Valid(cfg) && Resting(cfg, m)
    ensures Fresh(cfg, Expiry(cfg, m))
  {
    NamesDiffer(cfg.q);
    var m' := Expiry(cfg, m);
    if m.trips == 0 {
      assert D.Find(m.deaths, cfg.q.RetryName(), D.Expired) == 1;
      assert m'.deaths == [ExpiredDeath(cfg.q, 1), RejectedDeath(cfg.q, m, 1)];
    } else {
      assert D.Find(m.deaths, cfg.q.RetryName(), D.Expired) == 1;
      assert m'.deaths == [ExpiredDeath(cfg.q, m.trips + 1), RejectedDeath(cfg.q, m, m.trips + 1)];
    }
  }

  ghost function Expired(cfg: Config, s: State): State
    requires s.retry != []
  {
    Advance(s.(retry := s.retry[1..], main := s.main + [Expiry(cfg, s.retry[0])]))
  }

  lemma ExpireStep(cfg: Config, s: State)
    requires Valid(cfg) && s.retry != []
    ensures Next(cfg, s, Expire) == Some(Expired(cfg, s))
  {
    NamesDiffer(cfg.q);
  }

  // One answer settles one delivery.

  lemma {:induction false} NoneTaken(ds: seq<Tagged>, tag: nat, multiple: bool)
    requires forall d :: d in ds ==> d.tag > tag
    ensures Taken(ds, tag, multiple) == [] && Left(ds, tag, multiple) == ds
  {
    if ds != [] {
      assert ds[0] in ds;
      NoneTaken(ds[1..], tag, multiple);
    }
  }

  lemma BufferComesAfter(s: State, d: Tagged)
    requires TagsInv(s) && s.live && s.unacked == [d] + s.buffer
    ensures d.tag == s.nextTag - |s.buffer| - 1
    ensures forall x :: x in s.buffer ==> x.tag > d.tag
  {
    assert s.unacked[0] == d;
    forall x | x in s.buffer
      ensures x.tag > d.tag
    {
      var i :| 0 <= i < |s.buffer| && s.buffer[i] == x;
      assert s.unacked[i + 1] == x;
    }
  }

  /** When a delivery is answered on a live channel, the open deliveries up to its tag are
      that one alone: answering with or without `multiple` is the same. */
  lemma AnswerSettlesOne(s: State, d: Tagged, multiple: bool)
    requires TagsInv(s) && s.live && s.unacked == [d] + s.buffer
    ensures Outstanding(s.unacked, d.tag)
    ensures Taken(s.unacked, d.tag, multiple) == [d]
    ensures Left(s.unacked, d.tag, multiple) == s.buffer
  {
    assert s.unacked[0] == d && s.unacked[1..] == s.buffer;
    BufferComesAfter(s, d);
    NoneTaken(s.buffer, d.tag, multiple);
  }

  lemma UptoSnoc(n: nat)
    ensures Upto(n) + [n + 1] == Upto(n + 1)
  {
  }

  // One action of the consumer, case by case.

  ghost function Answered(cfg: Config, s: State, d: Tagged, v: Verdict): State {
    var m := d.message;
    var t := s.(unacked := s.buffer, settledTags := s.settledTags + [d.tag]);
    match v
    case Unmatched => t.(lost := t.lost + [Lost(m, NoConsumerFor)])
    case FailedWithoutDlq => t.(lost := t.lost + [Lost(m, FailureWithoutDlq)])
    case Succeeded => t.(done := t.done + [m])
    case LimitReached | Failed => t
    case Undecodable | SentToRetry =>
      var u := if cfg.q.Cycles() then t.(retry := t.retry + [Rejection(cfg, m)])
               else if cfg.q.withDLQ then t.(dlq := t.dlq + [Rejection(cfg, m)])
               else t.(lost := t.lost + [Lost(m, NoDeadLetterTarget)]);
      if cfg.q.Cycles() && m.trips >= Limit(cfg.q) then Futile(u) else u
  }

  ghost function Addressed(cfg: Config, m: Message): Message {
    m.(exchange := "", routingKey := cfg.q.dqlName)
  }

  ghost function Republished(cfg: Config, s: State, m: Message, settled: bool, ok: bool): State {
    if settled then
      if !ok then s.(lost := s.lost + [Lost(m, PublishFailed)])
      else if cfg.q.withDLQ then s.(dlq := s.dlq + [Addressed(cfg, m)])
      else s.(lost := s.lost + [Lost(Addressed(cfg, m), Unroutable)])
    else if ok && cfg.q.withDLQ then
      s.(dlq := s.dlq + [Addressed(cfg, m)], h := s.h.(copies := s.h.copies + multiset{m.id}))
    else s
  }

  ghost function Effect(cfg: Config, s: State, ok: bool): State
    requires s.consumer.Busy?
  {
    var Busy(d, r, v, next, settled) := s.consumer;
    if next < Lead(v) then s.(h := s.h.(runs := s.h.runs + multiset{d.message.id}))
    else if next == Lead(v) then if s.live then Answered(cfg, s, d, v) else s
    else if v.FailedWithoutDlq? then if s.live then Drop(s) else s
    else Republished(cfg, s, d.message, settled, ok)
  }

  lemma RepublishIsRepublished(cfg: Config, s: State, m: Message, settled: bool, ok: bool)
    requires Valid(cfg)
    ensures Republish(cfg, s, m, cfg.q.dqlName, settled, ok) == Republished(cfg, s, m, settled, ok)
  {
    NamesDiffer(cfg.q);
  }

  lemma AnswerIsAnswered(cfg: Config, s: State, d: Tagged, v: Verdict)
    requires Valid(cfg) && TagsInv(s) && s.live && s.unacked == [d] + s.buffer
    ensures var a := Settlement(cfg.q, v)[0];
            var t := Answer(cfg, s, d.tag, v, a);
            (if a.Nack? && cfg.q.Cycles() && d.message.trips >= Limit(cfg.q) then Futile(t) else t) == Answered(cfg, s, d, v)
  {
    var a := Settlement(cfg.q, v)[0];
    AnswerSettlesOne(s, d, a.multiple);
    var t := s.(unacked := s.buffer, settledTags := s.settledTags + [d.tag]);
    if a.Nack? {
      RejectGoesWhereTheArgumentsSay(cfg, t, d.message);
      assert RejectAll(cfg, t, [d]) == RejectAll(cfg, Reject(cfg, t, d.message), []);
    } else {
      assert Messages([d]) == [d.message];
      assert AllLost([d], NoConsumerFor) == [Lost(d.message, NoConsumerFor)];
      assert AllLost([d], FailureWithoutDlq) == [Lost(d.message, FailureWithoutDlq)];
    }
    assert Tags([d]) == [d.tag];
  }

  lemma SecondAnswer(cfg: Config, s: State, d: Tagged, v: Verdict)
    requires TagsInv(s) && s.consumer.Busy? && s.consumer.settled && s.consumer.d == d
    requires v.FailedWithoutDlq?
    ensures Answer(cfg, s, d.tag, v, Ack(true)) == if s.live then Drop(s) else s
  {
    assert s.live ==> !Outstanding(s.unacked, d.tag);
  }

  lemma FirstAnswer(cfg: Config, s: State, d: Tagged, v: Verdict, settled: bool, ok: bool)
    requires Valid(cfg) && TagsInv(s) && (s.live ==> s.unacked == [d] + s.buffer)
    ensures Perform(cfg, s, d, v, Lead(v), settled, ok) == if s.live then Answered(cfg, s, d, v) else s
  {
    if s.live {
      AnswerIsAnswered(cfg, s, d, v);
    }
  }

  lemma LastAction(cfg: Config, s: State, d: Tagged, v: Verdict, next: nat, settled: bool, ok: bool)
    requires Valid(cfg) && Lead(v) < next < ScriptLength(cfg.q, v)
    ensures Perform(cfg, s, d, v, next, settled, ok) ==
            if v.FailedWithoutDlq? then Answer(cfg, s, d.tag, v, Ack(true))
            else Republished(cfg, s, d.message, settled, ok)
  {
    assert next == Lead(v) + 1;
    if !v.FailedWithoutDlq? {
      RepublishIsRepublished(cfg, s, d.message, settled, ok);
    }
  }

  /** An action does what its case says. */
  lemma PerformIsEffect(cfg: Config, s: State, ok: bool)
    requires Valid(cfg) && s.consumer.Busy? && PhaseInv(cfg, s) && TagsInv(s)
    ensures var Busy(d, r, v, next, settled) := s.consumer;
            Perform(cfg, s, d, v, next, settled, ok) == Effect(cfg, s, ok)
  {
    var Busy(d, r, v, next, settled) := s.consumer;
    if next == Lead(v) {
      FirstAnswer(cfg, s, d, v, settled, ok);
    } else if next > Lead(v) {
      LastAction(cfg, s, d, v, next, settled, ok);
      if v.FailedWithoutDlq? && s.live {
        SecondAnswer(cfg, s, d, v);
      }
    }
  }

  /** An `Act` step: the effect of the action, and the consumer moved on. */
  lemma ActStep(cfg: Config, s: State, ok: bool)
    requires Valid(cfg) && s.consumer.Busy? && PhaseInv(cfg, s) && TagsInv(s)
    ensures Next(cfg, s, Act(ok)) == Some(Advance(Turned(cfg, s, Effect(cfg, s, ok))))
  {
    PerformIsEffect(cfg, s, ok);
  }
}
