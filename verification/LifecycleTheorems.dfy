/** The main results about the life cycle, each for every run from the empty state. */
module LifecycleTheorems {
  import opened Common
  import opened Dispatchers
  import opened Lifecycle
  import opened LifecycleInvariant
  import opened LifecycleSteps
  import opened LifecycleAccounts
  import opened LifecycleBounds
  import D = Deliveries

  ghost predicate Run(cfg: Config, steps: seq<Step>, s: State) {
    Valid(cfg) && Reach(cfg, steps) == Some(s)
  }

  // Metadata.

  /** A message out for delivery: in the client's buffer or in the consumer's hands. */
  ghost predicate Out(s: State, m: Message) {
    || (exists t :: t in s.buffer && t.message == m)
    || (s.consumer.Busy? && s.consumer.d.message == m)
  }

  /** In every run, what the dispatcher reads from a delivery is the number of trips the
      message has made and the address of its first publish; the read never panics. */
  lemma MetadataIsRight(cfg: Config, steps: seq<Step>, s: State, m: Message)
    requires Run(cfg, steps, s) && Out(s, m)
    ensures D.Extract(Seen(m)).Extracted?
    ensures var d := D.Extract(Seen(m)).metadata;
            d.xCount == m.trips && d.originExchange == m.firstExchange && d.routingKey == m.firstKey && d.typ == m.typ
  {
    ReachableInv(cfg, steps);
    FreshMetadata(cfg, m);
  }

  lemma {:induction false} ResolveReadsThreeFields(defs: seq<ConsumerDefinition>, a: D.Metadata, b: D.Metadata)
    requires a.typ == b.typ && a.originExchange == b.originExchange && a.routingKey == b.routingKey
    ensures Resolve(defs, a) == Resolve(defs, b)
  {
    if defs != [] {
      ResolveReadsThreeFields(defs[1..], a, b);
    }
  }

  /** The message as it was first published. */
  function Original(m: Message): Message {
    m.(exchange := m.firstExchange, routingKey := m.firstKey, deaths := [], trips := 0)
  }

  function FirstMetadata(m: Message): D.Metadata {
    D.Metadata(m.messageId, 0, m.typ, m.firstExchange, m.firstKey, m.user)
  }

  /** Every trip of a message is handled by the consumer chosen for its first delivery. */
  lemma SameConsumerOnEveryTrip(cfg: Config, steps: seq<Step>, s: State, m: Message)
    requires Run(cfg, steps, s) && Out(s, m)
    ensures D.Extract(Seen(Original(m))) == D.Extracted(FirstMetadata(m))
    ensures D.Extract(Seen(m)).Extracted?
    ensures Resolve(cfg.defs, D.Extract(Seen(m)).metadata) == Resolve(cfg.defs, FirstMetadata(m))
  {
    ReachableInv(cfg, steps);
    FreshConsumer(cfg, m);
  }

  lemma FreshConsumer(cfg: Config, m: Message)
    requires Fresh(cfg, m)
    ensures D.Extract(Seen(Original(m))) == D.Extracted(FirstMetadata(m))
    ensures D.Extract(Seen(m)).Extracted?
    ensures Resolve(cfg.defs, D.Extract(Seen(m)).metadata) == Resolve(cfg.defs, FirstMetadata(m))
  {
    FreshMetadata(cfg, m);
    FreshMetadata(cfg, Original(m));
    ResolveReadsThreeFields(cfg.defs, D.Extract(Seen(m)).metadata, FirstMetadata(m));
  }

  // Settlement.

  /** On the channel in use, tags have been settled one by one in order, none twice; those
      left are the delivery at hand, unless answered, and the buffered ones. */
  lemma SettledOnceInOrder(cfg: Config, steps: seq<Step>, s: State)
    requires Run(cfg, steps, s) && s.live
    ensures s.nextTag > 0
    ensures s.settledTags + Tags(s.unacked) == Upto(s.nextTag - 1)
    ensures s.unacked == Open(s.consumer) + s.buffer
  {
    ReachableInv(cfg, steps);
    TagsAreInOrder(s);
  }

  lemma TagsAreInOrder(s: State)
    requires TagsInv(s) && s.live
    ensures s.settledTags + Tags(s.unacked) == Upto(s.nextTag - 1)
  {
    var k := s.nextTag - |s.unacked| - 1;
    assert |s.settledTags| == k;
    forall i | 0 <= i < s.nextTag - 1
      ensures (s.settledTags + Tags(s.unacked))[i] == i + 1
    {
      if i >= k {
        assert s.unacked[i - k].tag == i + 1;
      }
    }
  }

  /** Acknowledging with `multiple` does what the single form does. */
  lemma MultipleMeansOne(cfg: Config, steps: seq<Step>, s: State)
    requires Run(cfg, steps, s) && s.live && s.consumer.Busy? && !s.consumer.settled
    ensures var tag := s.consumer.d.tag;
            && Taken(s.unacked, tag, true) == Taken(s.unacked, tag, false) == [s.consumer.d]
            && Left(s.unacked, tag, true) == Left(s.unacked, tag, false) == s.buffer
  {
    ReachableInv(cfg, steps);
    AnswerSettlesOne(s, s.consumer.d, true);
    AnswerSettlesOne(s, s.consumer.d, false);
  }

  /** The double acknowledgement of a failed message without a dead-letter queue closes the
      channel: every other delivery goes back to the queue, although the client keeps it. */
  lemma DoubleAckLosesTheChannel(cfg: Config, steps: seq<Step>, s: State, ok: bool)
    requires Run(cfg, steps, s) && s.live && s.consumer.Busy?
    requires s.consumer.v.FailedWithoutDlq? && s.consumer.next > Lead(s.consumer.v)
    ensures var s' := Next(cfg, s, Act(ok));
            && s'.Some? && !s'.value.live && s'.value.unacked == []
            && s'.value.main == Messages(s.buffer) + s.main
            && s'.value.buffer == s.buffer
            && s'.value.h.redelivered == s.h.redelivered + Ids(s.buffer)
  {
    ReachableInv(cfg, steps);
    ActStep(cfg, s, ok);
    assert s.unacked == s.buffer;
  }

  // Conservation.

  lemma {:induction false} EveryIdBalances(cfg: Config, steps: seq<Step>, id: nat)
    requires Valid(cfg) && Reach(cfg, steps).Some?
    ensures Count(Reach(cfg, steps).value, id) == Expected(Reach(cfg, steps).value, id)
  {
    if steps != [] {
      var n := |steps| - 1;
      var s := Reach(cfg, steps[..n]).value;
      ReachableInv(cfg, steps[..n]);
      EveryIdBalances(cfg, steps[..n], id);
      StepConserves(cfg, s, steps[n], id);
    }
  }

  /** In every run, each published message is in exactly one place, apart from copies that
      stale deliveries put into the DLQ; what was not published is nowhere. */
  lemma EveryMessageIsInOnePlace(cfg: Config, steps: seq<Step>, s: State, id: nat)
    requires Run(cfg, steps, s)
    ensures Count(s, id) == (if id in s.h.published then 1 else 0) + s.h.copies[id]
    ensures id in s.h.copies ==> id in s.h.redelivered
  {
    ReachableInv(cfg, steps);
    EveryIdBalances(cfg, steps, id);
  }

  /** No place holds more of a message than is counted. */
  lemma PartsOfTheCount(s: State, id: nat)
    ensures Sum(s.unacked, OnTagged(One(id))) <= Count(s, id)
    ensures Sum(s.lost, OnLost(One(id))) <= Count(s, id)
  {
    var one := One(id);
    SumIsNonNegative(s.main, one);
    SumIsNonNegative(s.unacked, OnTagged(one));
    SumIsNonNegative(s.retry, one);
    SumIsNonNegative(s.dlq, one);
    SumIsNonNegative(s.done, one);
    SumIsNonNegative(s.lost, OnLost(one));
    SumOfNothing(s.buffer);
  }

  /** A step that closes the channel redelivers what was out; no other step redelivers. */
  ghost predicate Redelivers(s: State, t: State) {
    || t.h.redelivered == s.h.redelivered
    || (s.live && !t.live && t.h.redelivered == s.h.redelivered + Ids(s.unacked))
  }

  lemma TurnRedelivers(cfg: Config, s: State, ok: bool)
    requires s.consumer.Busy? && PhaseInv(cfg, s)
    ensures Redelivers(s, Advance(Turned(cfg, s, Effect(cfg, s, ok))))
    ensures Advance(Turned(cfg, s, Effect(cfg, s, ok))).h.published == s.h.published
  {
    AnswerFrame(cfg, s, s.consumer.d, s.consumer.v);
  }

  lemma RedeliveriesGrow(cfg: Config, s: State, step: Step)
    requires Valid(cfg) && Inv(cfg, s) && Next(cfg, s, step).Some?
    ensures Redelivers(s, Next(cfg, s, step).value)
    ensures s.h.published <= Next(cfg, s, step).value.h.published
  {
    hide MessagesInv, TagsInv, LossesInv, StaleInv, PhaseInv, Effect, Turned;
    match step
    case Act(ok) =>
      TurnRedelivers(cfg, s, ok);
      ActStep(cfg, s, ok);
    case Expire => ExpireStep(cfg, s);
    case _ =>
  }

  lemma {:induction false} UnpublishedIsNotRedelivered(cfg: Config, steps: seq<Step>, id: nat)
    requires Valid(cfg) && Reach(cfg, steps).Some? && id !in Reach(cfg, steps).value.h.published
    ensures id !in Reach(cfg, steps).value.h.redelivered
  {
    if steps != [] {
      var n := |steps| - 1;
      var s := Reach(cfg, steps[..n]).value;
      ReachableInv(cfg, steps[..n]);
      RedeliveriesGrow(cfg, s, steps[n]);
      UnpublishedIsNotRedelivered(cfg, steps[..n], id);
      EveryMessageIsInOnePlace(cfg, steps[..n], s, id);
      PartsOfTheCount(s, id);
      IdsCount(s.unacked, id);
    }
  }

  /** With retry and DLQ, nothing is lost but messages no consumer is registered for and
      those whose publish to the DLQ failed. */
  lemma LossesHaveTwoCauses(cfg: Config, steps: seq<Step>, s: State, l: Lost)
    requires Run(cfg, steps, s) && cfg.q.Cycles() && l in s.lost
    ensures l.why.NoConsumerFor? || l.why.PublishFailed?
  {
    ReachableInv(cfg, steps);
  }

  // Handler calls.

  lemma {:induction false} EveryIdKeepsItsAllowance(cfg: Config, steps: seq<Step>, id: nat)
    requires Valid(cfg) && Reach(cfg, steps).Some?
    ensures CallsInv(cfg, Reach(cfg, steps).value, id)
  {
    if steps != [] {
      var n := |steps| - 1;
      ReachableInv(cfg, steps[..n]);
      EveryIdKeepsItsAllowance(cfg, steps[..n], id);
      StepKeepsCalls(cfg, Reach(cfg, steps[..n]).value, steps[n], id);
    }
  }

  lemma CallsLeftAreNotNegative(cfg: Config, s: State, id: nat)
    requires Inv(cfg, s)
    ensures Total(s, Calls(cfg.q, id)) + CallsAtHand(s, id) >= 0
  {
    var w := Calls(cfg.q, id);
    SumIsNonNegative(s.main, w.main);
    SumIsNonNegative(s.unacked, OnTagged(w.unacked));
    SumIsNonNegative(s.retry, w.retry);
    SumIsNonNegative(s.dlq, w.dlq);
    SumIsNonNegative(s.done, w.done);
    SumIsNonNegative(s.lost, OnLost(w.lost));
    SumIsNonNegative(s.buffer, OnTagged(if s.live then w.pending else w.stale));
    if s.consumer.Busy? && s.live && !s.consumer.settled && s.consumer.next > 0 {
      VerdictFacts(cfg, s);
      assert s.unacked[0] == s.consumer.d;
      SumFirst(s.unacked, OnTagged(w.unacked));
      SumIsNonNegative(s.unacked[1..], OnTagged(w.unacked));
    }
  }

  /** No message's handler runs more often than its retries allow, plus once for each time a
      lost connection brought it back. */
  lemma HandlerCallsAreBounded(cfg: Config, steps: seq<Step>, s: State, id: nat)
    requires Run(cfg, steps, s)
    ensures s.h.runs[id] <= Allowance(cfg.q) + s.h.redelivered[id]
    ensures id !in s.h.published ==> s.h.runs[id] == 0
  {
    ReachableInv(cfg, steps);
    EveryIdKeepsItsAllowance(cfg, steps, id);
    CallsLeftAreNotNegative(cfg, s, id);
    if id !in s.h.published {
      UnpublishedIsNotRedelivered(cfg, steps, id);
    }
  }

  // Where a message that is always retried ends up.

  ghost predicate ExcusedInv(s: State) {
    && (forall m :: m in s.done ==> m.id in s.h.excused)
    && (forall l :: l in s.lost && l.why.NoConsumerFor? ==> l.message.id in s.h.excused)
  }

  lemma AnswerKeepsExcused(cfg: Config, s: State, d: Tagged, v: Verdict, excused: set<nat>)
    requires ExcusedInv(s) && s.h.excused <= excused
    requires v.Succeeded? || v.Unmatched? ==> d.message.id in excused
    ensures var t := Answered(cfg, s, d, v);
            ExcusedInv(t.(h := t.h.(excused := excused)))
  {
  }

  lemma TurnKeepsExcused(cfg: Config, s: State, ok: bool)
    requires s.consumer.Busy? && ExcusedInv(s)
    ensures ExcusedInv(Advance(Turned(cfg, s, Effect(cfg, s, ok))))
  {
    var d, v, next := s.consumer.d, s.consumer.v, s.consumer.next;
    if next == Lead(v) && s.live {
      AnswerFrame(cfg, s, d, v);
      AnswerKeepsExcused(cfg, s, d, v, Excused(s.h, s.consumer));
    }
  }

  lemma StepKeepsExcused(cfg: Config, s: State, step: Step)
    requires Valid(cfg) && Inv(cfg, s) && ExcusedInv(s) && Next(cfg, s, step).Some?
    ensures ExcusedInv(Next(cfg, s, step).value)
  {
    match step
    case Act(ok) =>
      TurnKeepsExcused(cfg, s, ok);
      ActStep(cfg, s, ok);
    case Expire => ExpireStep(cfg, s);
    case _ =>
  }

  lemma {:induction false} ReachableExcused(cfg: Config, steps: seq<Step>)
    requires Valid(cfg) && Reach(cfg, steps).Some?
    ensures ExcusedInv(Reach(cfg, steps).value)
  {
    if steps != [] {
      var n := |steps| - 1;
      ReachableInv(cfg, steps[..n]);
      ReachableExcused(cfg, steps[..n]);
      StepKeepsExcused(cfg, Reach(cfg, steps[..n]).value, steps[n]);
    }
  }

  /** Nothing is waiting, out, or delayed. */
  ghost predicate Quiet(s: State) {
    s.main == [] && s.unacked == [] && s.retry == [] && s.consumer.Idle?
  }

  lemma {:induction false} SomeoneHasTheId<T>(s: seq<T>, f: T -> int)
    requires Sum(s, f) > 0
    ensures exists x :: x in s && f(x) > 0
  {
    if s != [] {
      if f(s[0]) > 0 {
        assert s[0] in s;
      } else {
        SomeoneHasTheId(s[1..], f);
        var x :| x in s[1..] && f(x) > 0;
        assert x in s;
      }
    }
  }

  lemma {:induction false} NothingWeighsNothing<T>(s: seq<T>, f: T -> int)
    requires forall x :: x in s ==> f(x) == 0
    ensures Sum(s, f) == 0
  {
    if s != [] {
      assert s[0] in s;
      NothingWeighsNothing(s[1..], f);
    }
  }

  lemma QuietMeansNoCallsLeft(cfg: Config, s: State, id: nat)
    requires Inv(cfg, s) && Quiet(s) && id !in s.h.redelivered
    ensures Total(s, Calls(cfg.q, id)) == 0
  {
    var w := Calls(cfg.q, id);
    NothingWeighsNothing(s.dlq, w.dlq);
    NothingWeighsNothing(s.done, w.done);
    NothingWeighsNothing(s.lost, OnLost(w.lost));
    if !s.live {
      NothingWeighsNothing(s.buffer, OnTagged(w.stale));
    }
  }

  /** With retry and DLQ, a message that meets only retryable errors and no lost connection
      has, once all is quiet, run its handler exactly max(retries, 0) times, and is in the
      DLQ, or lost because publishing it there failed. */
  lemma SteadyMessagesReachTheLimit(cfg: Config, steps: seq<Step>, s: State, id: nat)
    requires Run(cfg, steps, s) && cfg.q.Cycles() && Quiet(s)
    requires id in s.h.published && Steady(s, id)
    ensures s.h.runs[id] == Max(cfg.q.retries, 0)
    ensures || (exists m :: m in s.dlq && m.id == id)
            || (exists l :: l in s.lost && l.message.id == id && l.why.PublishFailed?)
  {
    ReachableInv(cfg, steps);
    ReachableExcused(cfg, steps);
    EveryIdKeepsItsAllowance(cfg, steps, id);
    EveryIdBalances(cfg, steps, id);
    QuietMeansNoCallsLeft(cfg, s, id);
    SumOfNothing(s.buffer);
    assert Sum(s.dlq, One(id)) + Sum(s.done, One(id)) + Sum(s.lost, OnLost(One(id))) == 1;
    if Sum(s.done, One(id)) > 0 {
      SomeoneHasTheId(s.done, One(id));
    }
    if Sum(s.dlq, One(id)) > 0 {
      SomeoneHasTheId(s.dlq, One(id));
    }
    if Sum(s.lost, OnLost(One(id))) > 0 {
      SomeoneHasTheId(s.lost, OnLost(One(id)));
    }
  }

  // Termination.

  lemma {:induction false} WorkIsSupplied(cfg: Config, steps: seq<Step>)
    requires Valid(cfg) && Reach(cfg, steps).Some?
    ensures Work(cfg, Reach(cfg, steps).value) <= Supply(cfg, Reach(cfg, steps).value)
  {
    if steps != [] {
      var n := |steps| - 1;
      ReachableInv(cfg, steps[..n]);
      WorkIsSupplied(cfg, steps[..n]);
      StepKeepsWork(cfg, Reach(cfg, steps[..n]).value, steps[n]);
    }
  }

  lemma WorkIsNotNegative(cfg: Config, s: State)
    requires Inv(cfg, s)
    ensures Total(s, Steps(cfg.q)) + StepsAtHand(cfg.q, s.consumer) >= 0
  {
    var w := Steps(cfg.q);
    SumIsNonNegative(s.main, w.main);
    SumIsNonNegative(s.unacked, OnTagged(w.unacked));
    SumIsNonNegative(s.retry, w.retry);
    SumIsNonNegative(s.dlq, w.dlq);
    SumIsNonNegative(s.done, w.done);
    SumIsNonNegative(s.lost, OnLost(w.lost));
    SumIsNonNegative(s.buffer, OnTagged(if s.live then w.pending else w.stale));
  }

  /** For every run: the deliveries, receipts, actions and expiries are bounded by a linear
      function of the retries for each publish, and by 5 for each redelivery and each
      rejection of a message past its limit. */
  lemma ProgressIsBounded(cfg: Config, steps: seq<Step>, s: State)
    requires Run(cfg, steps, s)
    ensures s.h.progress <= Supply(cfg, s)
  {
    hide Total;
    ReachableInv(cfg, steps);
    WorkIsSupplied(cfg, steps);
    WorkIsNotNegative(cfg, s);
  }
}
