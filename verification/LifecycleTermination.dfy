/** When runs end, and the runs that do not: undecodable messages on a queue with retry and
    DLQ, and messages doubled by a lost connection. */
module LifecycleTermination {
  import opened Common
  import opened Dispatchers
  import opened Lifecycle
  import opened LifecycleInvariant
  import opened LifecycleSteps
  import opened LifecycleAccounts
  import opened LifecycleBounds
  import opened LifecycleTheorems
  import D = Deliveries
  import Q = Queues

  /** If a consumer is registered for the message, its body unmarshals into that consumer's
      type. Nothing in this changes from trip to trip. */
  predicate Decodable(cfg: Config, m: Message) {
    var c := Resolve(cfg.defs, FirstMetadata(m));
    c.Chosen? ==> c.def.msgType in m.decodesAs
  }

  function Publishes(steps: seq<Step>): nat {
    if steps == [] then 0
    else Publishes(steps[..|steps| - 1]) + (if steps[|steps| - 1].Publish? then 1 else 0)
  }

  ghost predicate NoLoss(steps: seq<Step>) {
    forall x :: x in steps ==> !x.Lose?
  }

  ghost predicate AllDecodable(cfg: Config, steps: seq<Step>) {
    forall x :: x in steps && x.Publish? ==> Decodable(cfg, x.m)
  }

  ghost predicate Unbroken(s: State) {
    s.live && s.h.redelivered == multiset{} && s.h.copies == multiset{}
  }

  lemma EffectFrame(cfg: Config, s: State, ok: bool)
    requires s.consumer.Busy? && PhaseInv(cfg, s)
    ensures var t := Effect(cfg, s, ok);
            && t.h.published == s.h.published && t.h.progress == s.h.progress
            && (s.live && s.consumer.settled && !s.consumer.v.FailedWithoutDlq? ==>
                  t.live && t.h.redelivered == s.h.redelivered && t.h.copies == s.h.copies)
            && (s.live && !s.consumer.settled ==>
                  t.live && t.h.redelivered == s.h.redelivered && t.h.copies == s.h.copies)
  {
  }

  lemma TurnStaysUnbroken(cfg: Config, s: State, ok: bool)
    requires Inv(cfg, s) && cfg.q.withDLQ && Unbroken(s) && s.consumer.Busy?
    ensures Unbroken(Turned(cfg, s, Effect(cfg, s, ok)))
  {
    VerdictFacts(cfg, s);
    EffectFrame(cfg, s, ok);
  }

  lemma StepStaysUnbroken(cfg: Config, s: State, step: Step)
    requires Valid(cfg) && Inv(cfg, s) && cfg.q.withDLQ && Unbroken(s)
    requires Next(cfg, s, step).Some? && !step.Lose?
    ensures Unbroken(Next(cfg, s, step).value)
    ensures !step.Publish? ==> Next(cfg, s, step).value.h.progress == s.h.progress + 1
  {
    match step
    case Act(ok) =>
      TurnStaysUnbroken(cfg, s, ok);
      EffectFrame(cfg, s, ok);
      ActStep(cfg, s, ok);
    case Expire => ExpireStep(cfg, s);
    case _ =>
  }

  /** With a DLQ and without a lost connection nothing is redelivered and nothing is doubled. */
  lemma {:induction false} NoLossMeansNoCopies(cfg: Config, steps: seq<Step>)
    requires Valid(cfg) && cfg.q.withDLQ && Reach(cfg, steps).Some? && NoLoss(steps)
    ensures Unbroken(Reach(cfg, steps).value)
    ensures |steps| == Publishes(steps) + Reach(cfg, steps).value.h.progress
    ensures |Reach(cfg, steps).value.h.published| == Publishes(steps)
  {
    if steps != [] {
      var n := |steps| - 1;
      assert forall x :: x in steps[..n] ==> x in steps;
      assert steps[n] in steps;
      NoLossMeansNoCopies(cfg, steps[..n]);
      ReachableInv(cfg, steps[..n]);
      var s := Reach(cfg, steps[..n]).value;
      StepStaysUnbroken(cfg, s, steps[n]);
      PublishedGrows(cfg, s, steps[n]);
    }
  }

  lemma PublishedGrows(cfg: Config, s: State, step: Step)
    requires Valid(cfg) && Inv(cfg, s) && Next(cfg, s, step).Some?
    ensures step.Publish? ==>
              && step.m.id !in s.h.published
              && Next(cfg, s, step).value.h.published == s.h.published + {step.m.id}
              && Next(cfg, s, step).value.h.progress == s.h.progress
    ensures !step.Publish? ==> Next(cfg, s, step).value.h.published == s.h.published
  {
    match step
    case Act(ok) =>
      EffectFrame(cfg, s, ok);
      ActStep(cfg, s, ok);
    case Expire => ExpireStep(cfg, s);
    case _ =>
  }

  // No futile rejections of decodable messages.

  ghost predicate DecodableInv(cfg: Config, s: State) {
    && (forall m :: m in s.main ==> Decodable(cfg, m))
    && (forall t :: t in s.unacked ==> Decodable(cfg, t.message))
    && (forall t :: t in s.buffer ==> Decodable(cfg, t.message))
    && (forall m :: m in s.retry ==> Decodable(cfg, m))
    && (s.consumer.Busy? ==> Decodable(cfg, s.consumer.d.message))
    && s.h.futile == 0
  }

  lemma DecodableStaysSo(cfg: Config, m: Message)
    ensures Decodable(cfg, Rejection(cfg, m)) == Decodable(cfg, m)
    ensures Decodable(cfg, Expiry(cfg, m)) == Decodable(cfg, m)
  {
    assert FirstMetadata(Rejection(cfg, m)) == FirstMetadata(m);
    assert FirstMetadata(Expiry(cfg, m)) == FirstMetadata(m);
  }

  lemma NeverUndecodable(cfg: Config, s: State)
    requires Inv(cfg, s) && s.consumer.Busy? && Decodable(cfg, s.consumer.d.message) && cfg.q.Cycles()
    ensures !s.consumer.v.Undecodable?
    ensures s.consumer.v.SentToRetry? ==> s.consumer.d.message.trips < Limit(cfg.q)
  {
    FreshConsumer(cfg, s.consumer.d.message);
    VerdictFacts(cfg, s);
  }

  lemma AnswerKeepsDecodable(cfg: Config, s: State, d: Tagged, v: Verdict)
    requires DecodableInv(cfg, s) && cfg.q.Cycles() && Decodable(cfg, d.message)
    requires !v.Undecodable? && (v.SentToRetry? ==> d.message.trips < Limit(cfg.q))
    ensures DecodableInv(cfg, Answered(cfg, s, d, v))
  {
    DecodableStaysSo(cfg, d.message);
  }

  lemma DropKeepsDecodable(cfg: Config, s: State)
    requires DecodableInv(cfg, s)
    ensures DecodableInv(cfg, Drop(s))
  {
    forall m | m in Drop(s).main
      ensures Decodable(cfg, m)
    {
      if m in Messages(s.unacked) {
        var i :| 0 <= i < |s.unacked| && Messages(s.unacked)[i] == m;
        assert s.unacked[i] in s.unacked;
      }
    }
  }

  lemma ActKeepsDecodable(cfg: Config, s: State, ok: bool)
    requires Valid(cfg) && Inv(cfg, s) && cfg.q.Cycles() && DecodableInv(cfg, s) && s.consumer.Busy?
    ensures DecodableInv(cfg, Advance(Turned(cfg, s, Effect(cfg, s, ok))))
  {
    var d, v, next := s.consumer.d, s.consumer.v, s.consumer.next;
    var t := Effect(cfg, s, ok);
    NeverUndecodable(cfg, s);
    if next == Lead(v) && s.live {
      AnswerKeepsDecodable(cfg, s, d, v);
    } else if next > Lead(v) && v.FailedWithoutDlq? && s.live {
      DropKeepsDecodable(cfg, s);
    }
    assert DecodableInv(cfg, t);
  }

  lemma StepKeepsDecodable(cfg: Config, s: State, step: Step)
    requires Valid(cfg) && Inv(cfg, s) && cfg.q.Cycles() && DecodableInv(cfg, s) && Next(cfg, s, step).Some?
    requires step.Publish? ==> Decodable(cfg, step.m)
    ensures DecodableInv(cfg, Next(cfg, s, step).value)
  {
    hide MessagesInv, TagsInv, PhaseInv, LossesInv, StaleInv, Decodable, Turned, Effect, Expiry;
    match step
    case Deliver => assert s.main[0] in s.main;
    case Receive(r) => assert s.buffer[0] in s.buffer;
    case Act(ok) =>
      ActKeepsDecodable(cfg, s, ok);
      ActStep(cfg, s, ok);
    case Expire =>
      assert s.retry[0] in s.retry;
      DecodableStaysSo(cfg, s.retry[0]);
      ExpireStep(cfg, s);
    case Lose => DropKeepsDecodable(cfg, s);
    case _ =>
  }

  lemma {:induction false} ReachableDecodable(cfg: Config, steps: seq<Step>)
    requires Valid(cfg) && cfg.q.Cycles() && Reach(cfg, steps).Some? && AllDecodable(cfg, steps)
    ensures DecodableInv(cfg, Reach(cfg, steps).value)
  {
    if steps != [] {
      var n := |steps| - 1;
      assert forall x :: x in steps[..n] ==> x in steps;
      assert steps[n] in steps;
      ReachableDecodable(cfg, steps[..n]);
      ReachableInv(cfg, steps[..n]);
      StepKeepsDecodable(cfg, Reach(cfg, steps[..n]).value, steps[n]);
    }
  }

  lemma FutileOnlyInCycles(cfg: Config, s: State, step: Step)
    requires Valid(cfg) && Inv(cfg, s) && Next(cfg, s, step).Some? && !cfg.q.Cycles()
    ensures Next(cfg, s, step).value.h.futile == s.h.futile
  {
    match step
    case Act(ok) => ActStep(cfg, s, ok);
    case Expire => ExpireStep(cfg, s);
    case _ =>
  }

  lemma {:induction false} NothingIsFutile(cfg: Config, steps: seq<Step>)
    requires Valid(cfg) && Reach(cfg, steps).Some?
    requires cfg.q.Cycles() ==> AllDecodable(cfg, steps)
    ensures Reach(cfg, steps).value.h.futile == 0
  {
    if cfg.q.Cycles() {
      ReachableDecodable(cfg, steps);
    } else if steps != [] {
      var n := |steps| - 1;
      ReachableInv(cfg, steps[..n]);
      NothingIsFutile(cfg, steps[..n]);
      FutileOnlyInCycles(cfg, Reach(cfg, steps[..n]).value, steps[n]);
    }
  }

  /** With a DLQ, a run without a lost connection makes at most 5 max(retries, 0) + 5 steps for
      each publish, besides the publishes themselves. If rejected messages come back through a
      retry queue, this is about decodable messages. */
  lemma RunsEnd(cfg: Config, steps: seq<Step>, s: State)
    requires Run(cfg, steps, s) && cfg.q.withDLQ && NoLoss(steps)
    requires cfg.q.Cycles() ==> AllDecodable(cfg, steps)
    ensures |steps| <= Publishes(steps) + Budget(cfg.q, Publishes(steps))
  {
    hide Total, Budget;
    NoLossMeansNoCopies(cfg, steps);
    NothingIsFutile(cfg, steps);
    ProgressIsBounded(cfg, steps, s);
    assert |s.h.published| == Publishes(steps) && |s.h.redelivered| == 0;
  }

  /** With connection losses the bound grows by the redeliveries alone. */
  lemma LossesCostRedeliveries(cfg: Config, steps: seq<Step>, s: State)
    requires Run(cfg, steps, s)
    requires cfg.q.Cycles() ==> AllDecodable(cfg, steps)
    ensures s.h.progress <= Budget(cfg.q, |s.h.published|) + 5 * |s.h.redelivered|
  {
    hide Total, Budget;
    NothingIsFutile(cfg, steps);
    ProgressIsBounded(cfg, steps, s);
  }

  /** A run that cannot go on without a publish or a lost connection is connected and quiet. */
  lemma StuckOnlyWhenQuiet(cfg: Config, steps: seq<Step>, s: State)
    requires Run(cfg, steps, s) && !(s.live && Quiet(s))
    ensures || Next(cfg, s, Deliver).Some? || Next(cfg, s, Receive(Success)).Some?
            || Next(cfg, s, Act(true)).Some? || Next(cfg, s, Expire).Some? || Next(cfg, s, Resume).Some?
  {
    ReachableInv(cfg, steps);
    if !s.live || s.main == [] {
      if s.consumer.Busy? {
        ActStep(cfg, s, true);
      } else if s.buffer != [] {
        assert s.buffer[0] in s.buffer;
        FreshMetadata(cfg, s.buffer[0].message);
      } else if s.retry != [] {
        ExpireStep(cfg, s);
      }
    }
  }

  // What the conditions are for.

  /** A message alone in the main queue of a connected, idle system. */
  ghost predicate Alone(s: State, m: Message) {
    s.live && s.main == [m] && s.consumer.Idle? && s.buffer == [] && s.retry == []
  }

  /** Delivering and receiving a message alone puts it into the consumer's hands. */
  lemma TakeUp(cfg: Config, s: State, m: Message, r: HandlerResult) returns (t: State)
    requires Valid(cfg) && Inv(cfg, s) && Alone(s, m)
    ensures Next(cfg, s, Deliver).Some?
    ensures Next(cfg, Next(cfg, s, Deliver).value, Receive(r)) == Some(t)
    ensures Inv(cfg, t) && t.live && t.main == [] && t.retry == [] && t.buffer == []
    ensures t.consumer.Busy? && t.consumer.d.message == m && t.consumer.next == 0 && !t.consumer.settled
    ensures D.Extract(Seen(m)).Extracted? && t.consumer.v == VerdictOn(cfg, m, r)
    ensures t.dlq == s.dlq && t.h == s.h.(progress := s.h.progress + 2)
  {
    assert m in s.main;
    FreshConsumer(cfg, m);
    DeliverKeepsInv(cfg, s);
    var s1 := Next(cfg, s, Deliver).value;
    assert s1.buffer == [Tagged(s.nextTag, m)];
    t := Next(cfg, s1, Receive(r)).value;
    ReceiveKeepsInv(cfg, s1, r);
  }

  /** Rejecting and waiting: an undecodable message comes back with one more trip. */
  lemma RejectAndExpire(cfg: Config, s: State, m: Message) returns (t: State)
    requires Valid(cfg) && Inv(cfg, s) && cfg.q.Cycles()
    requires s.live && s.main == [] && s.retry == [] && s.buffer == []
    requires s.consumer.Busy? && s.consumer.d.message == m && s.consumer.v.Undecodable? && s.consumer.next == 0
    ensures Next(cfg, s, Act(true)).Some?
    ensures Next(cfg, Next(cfg, s, Act(true)).value, Expire) == Some(t)
    ensures Alone(t, Expiry(cfg, Rejection(cfg, m))) && t.h.runs == s.h.runs && t.h.published == s.h.published
  {
    ActStep(cfg, s, true);
    var s1 := Next(cfg, s, Act(true)).value;
    assert s1.retry == [Rejection(cfg, m)];
    ExpireStep(cfg, s1);
    t := Next(cfg, s1, Expire).value;
  }

  lemma ReachSnoc(cfg: Config, steps: seq<Step>, s: State, step: Step)
    requires Run(cfg, steps, s) && Next(cfg, s, step).Some?
    ensures Run(cfg, steps + [step], Next(cfg, s, step).value)
  {
    assert (steps + [step])[..|steps|] == steps;
  }

  lemma {:induction false} ReachAll(cfg: Config, steps: seq<Step>, s: State, a: Step, b: Step, c: Step, d: Step)
    returns (t: State)
    requires Run(cfg, steps, s) && Next(cfg, s, a).Some?
    requires Next(cfg, Next(cfg, s, a).value, b).Some?
    requires Next(cfg, Next(cfg, Next(cfg, s, a).value, b).value, c).Some?
    requires Next(cfg, Next(cfg, Next(cfg, Next(cfg, s, a).value, b).value, c).value, d).Some?
    ensures Next(cfg, Next(cfg, Next(cfg, Next(cfg, s, a).value, b).value, c).value, d) == Some(t)
    ensures Run(cfg, steps + [a, b, c, d], t)
  {
    hide Next;
    var s1 := Next(cfg, s, a).value;
    var s2 := Next(cfg, s1, b).value;
    var s3 := Next(cfg, s2, c).value;
    t := Next(cfg, s3, d).value;
    ReachSnoc(cfg, steps, s, a);
    ReachSnoc(cfg, steps + [a], s1, b);
    ReachSnoc(cfg, steps + [a] + [b], s2, c);
    ReachSnoc(cfg, steps + [a] + [b] + [c], s3, d);
    assert steps + [a] + [b] + [c] + [d] == steps + [a, b, c, d];
  }

  lemma OneFutileTrip(cfg: Config, steps: seq<Step>, s: State, m: Message) returns (t: State)
    requires Run(cfg, steps, s) && cfg.q.Cycles() && Alone(s, m) && !Decodable(cfg, m)
    ensures Run(cfg, steps + [Deliver, Receive(Success), Act(true), Expire], t)
    ensures Alone(t, Expiry(cfg, Rejection(cfg, m))) && t.h.runs == s.h.runs && t.h.published == s.h.published
  {
    hide Next, Inv;
    ReachableInv(cfg, steps);
    var s1 := TakeUp(cfg, s, m, Success);
    assert s1.consumer.v.Undecodable? by {
      AloneIsFresh(cfg, s, m);
      FreshConsumer(cfg, m);
    }
    t := RejectAndExpire(cfg, s1, m);
    var u := ReachAll(cfg, steps, s, Deliver, Receive(Success), Act(true), Expire);
  }

  lemma AloneIsFresh(cfg: Config, s: State, m: Message)
    requires Inv(cfg, s) && Alone(s, m)
    ensures Fresh(cfg, m)
  {
    assert m in s.main;
  }

  lemma FirstPublish(cfg: Config, m: Message) returns (s: State)
    requires Valid(cfg) && Next(cfg, Start(), Publish(m)).Some?
    ensures Run(cfg, [Publish(m)], s) && Alone(s, m) && m.trips == 0 && Fresh(cfg, m)
    ensures s.dlq == [] && s.h.published == {m.id} && s.h.copies == multiset{} && s.h.runs == multiset{}
  {
    assert [Publish(m)][..0] == [];
    assert Reach(cfg, []) == Some(Start());
    s := Next(cfg, Start(), Publish(m)).value;
  }

  /** A message whose body does not unmarshal goes round for ever: for every n there is a run
      without a lost connection in which it comes back for the n-th time, whatever the retry
      limit, and no handler is ever called. */
  lemma {:induction false} UndecodableCyclesForEver(cfg: Config, m: Message, n: nat) returns (steps: seq<Step>, s: State, back: Message)
    requires Valid(cfg) && cfg.q.Cycles() && !Decodable(cfg, m) && Next(cfg, Start(), Publish(m)).Some?
    ensures Run(cfg, steps, s) && NoLoss(steps)
    ensures Alone(s, back) && back.id == m.id && back.trips == n
    ensures s.h.runs == multiset{} && s.h.published == {m.id} && !Decodable(cfg, back)
    ensures |steps| == 4 * n + 1
  {
    if n == 0 {
      s := FirstPublish(cfg, m);
      steps, back := [Publish(m)], m;
    } else {
      var before, t, again := UndecodableCyclesForEver(cfg, m, n - 1);
      s := OneFutileTrip(cfg, before, t, again);
      DecodableStaysSo(cfg, again);
      DecodableStaysSo(cfg, Rejection(cfg, again));
      steps, back := before + [Deliver, Receive(Success), Act(true), Expire], Expiry(cfg, Rejection(cfg, again));
    }
  }

  /** Once its connection is lost, an action of the consumer other than the last has no effect
      on any queue. */
  lemma StaleAction(cfg: Config, steps: seq<Step>, s: State) returns (t: State)
    requires Run(cfg, steps, s) && !s.live && s.consumer.Busy? && !s.consumer.settled
    requires s.consumer.next + 1 < ScriptLength(cfg.q, s.consumer.v)
    ensures Run(cfg, steps + [Act(true)], t) && !t.live
    ensures t.consumer == s.consumer.(next := s.consumer.next + 1)
    ensures t.main == s.main && t.dlq == s.dlq
    ensures t.h.published == s.h.published && t.h.copies == s.h.copies
  {
    ReachableInv(cfg, steps);
    ActStep(cfg, s, true);
    t := Next(cfg, s, Act(true)).value;
    ReachSnoc(cfg, steps, s, Act(true));
  }

  predicate Republishes(v: Verdict) {
    v.Failed? || v.LimitReached?
  }

  /** The last action still publishes to the DLQ. */
  lemma StalePublish(cfg: Config, steps: seq<Step>, s: State) returns (t: State)
    requires Run(cfg, steps, s) && cfg.q.withDLQ && !s.live && s.consumer.Busy? && !s.consumer.settled
    requires Republishes(s.consumer.v) && s.consumer.next + 1 == ScriptLength(cfg.q, s.consumer.v)
    ensures Run(cfg, steps + [Act(true)], t)
    ensures var m := s.consumer.d.message;
            && t.main == s.main && t.dlq == s.dlq + [Addressed(cfg, m)]
            && t.h.published == s.h.published && t.h.copies == s.h.copies + multiset{m.id}
  {
    ReachableInv(cfg, steps);
    ActStep(cfg, s, true);
    t := Next(cfg, s, Act(true)).value;
    ReachSnoc(cfg, steps, s, Act(true));
  }

  lemma {:induction false} StaleScript(cfg: Config, steps: seq<Step>, s: State) returns (more: seq<Step>, t: State)
    requires Run(cfg, steps, s) && cfg.q.withDLQ && !s.live && s.consumer.Busy? && !s.consumer.settled
    requires Republishes(s.consumer.v) && s.consumer.next < ScriptLength(cfg.q, s.consumer.v)
    ensures Run(cfg, steps + more, t)
    ensures var m := s.consumer.d.message;
            && t.main == s.main && t.dlq == s.dlq + [Addressed(cfg, m)]
            && t.h.published == s.h.published && t.h.copies == s.h.copies + multiset{m.id}
    decreases ScriptLength(cfg.q, s.consumer.v) - s.consumer.next
  {
    hide Run;
    if s.consumer.next + 1 < ScriptLength(cfg.q, s.consumer.v) {
      var u := StaleAction(cfg, steps, s);
      var rest;
      rest, t := StaleScript(cfg, steps + [Act(true)], u);
      more := [Act(true)] + rest;
      assert steps + more == steps + [Act(true)] + rest;
    } else {
      more := [Act(true)];
      t := StalePublish(cfg, steps, s);
    }
  }

  lemma ScriptOfRepublish(q: Q.Queue, v: Verdict)
    requires Republishes(v)
    ensures ScriptLength(q, v) >= 2
  {
  }

  lemma FailedOrPastTheLimit(cfg: Config, m: Message)
    requires cfg.q.withDLQ && Fresh(cfg, m) && Decodable(cfg, m) && Resolve(cfg.defs, FirstMetadata(m)).Chosen?
    ensures D.Extract(Seen(m)).Extracted? && Republishes(VerdictOn(cfg, m, OtherError))
  {
    FreshConsumer(cfg, m);
    FreshMetadata(cfg, m);
  }

  /** With a DLQ, a connection lost before a failed message, or one past its limit, is answered
      leaves two copies: the message back in the main queue, and the one the consumer then
      puts into the DLQ. */
  lemma StaleFailureLeavesTwoCopies(cfg: Config, m: Message) returns (steps: seq<Step>, s: State)
    requires Valid(cfg) && cfg.q.withDLQ && Next(cfg, Start(), Publish(m)).Some?
    requires Decodable(cfg, m) && Resolve(cfg.defs, FirstMetadata(m)).Chosen?
    ensures Run(cfg, steps, s)
    ensures s.main == [m] && s.dlq == [Addressed(cfg, m)] && Count(s, m.id) == 2
  {
    hide Next, Inv, Total;
    var s1 := FirstPublish(cfg, m);
    ReachableInv(cfg, [Publish(m)]);
    var s2 := TakeUp(cfg, s1, m, OtherError);
    FailedOrPastTheLimit(cfg, m);
    ReachSnoc(cfg, [Publish(m)], s1, Deliver);
    ReachSnoc(cfg, [Publish(m)] + [Deliver], Next(cfg, s1, Deliver).value, Receive(OtherError));
    steps := [Publish(m)] + [Deliver] + [Receive(OtherError)];
    var s3 := LoseAtHand(cfg, steps, s2, m);
    var more;
    ScriptOfRepublish(cfg.q, s3.consumer.v);
    more, s := StaleScript(cfg, steps + [Lose], s3);
    steps := steps + [Lose] + more;
    EveryIdBalances(cfg, steps, m.id);
  }

  lemma LoseAtHand(cfg: Config, steps: seq<Step>, s: State, m: Message) returns (t: State)
    requires Run(cfg, steps, s) && s.live && s.main == [] && s.buffer == []
    requires s.consumer.Busy? && s.consumer.d.message == m && !s.consumer.settled
    ensures Run(cfg, steps + [Lose], t) && !t.live && t.main == [m] && t.dlq == s.dlq
    ensures t.consumer == s.consumer && t.h.published == s.h.published && t.h.copies == s.h.copies
  {
    ReachableInv(cfg, steps);
    assert s.unacked == [s.consumer.d];
    t := Next(cfg, s, Lose).value;
    ReachSnoc(cfg, steps, s, Lose);
    assert Messages([s.consumer.d]) == [m];
  }
}
