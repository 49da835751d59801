/** From the steps of a run alone to what becomes of its messages: nothing is invented, and a
    message whose handler always asks for a retry is tried to the limit. */
module LifecycleRetries {
  import opened Common
  import opened Dispatchers
  import opened Lifecycle
  import opened LifecycleInvariant
  import opened LifecycleSteps
  import opened LifecycleBounds
  import opened LifecycleTheorems
  import opened LifecycleTermination
  import opened LifecycleLimits

  // Contents.

  /** `P` holds of every message in any place, as it was when it was published. */
  ghost predicate Everywhere(P: Message -> bool, s: State) {
    && (forall m :: m in s.main ==> P(Original(m)))
    && (forall t :: t in s.unacked ==> P(Original(t.message)))
    && (forall t :: t in s.buffer ==> P(Original(t.message)))
    && (forall m :: m in s.retry ==> P(Original(m)))
    && (forall m :: m in s.dlq ==> P(Original(m)))
    && (forall m :: m in s.done ==> P(Original(m)))
    && (forall l :: l in s.lost ==> P(Original(l.message)))
    && (s.consumer.Busy? ==> P(Original(s.consumer.d.message)))
  }

  lemma OriginalStays(cfg: Config, m: Message)
    ensures Original(Rejection(cfg, m)) == Original(m)
    ensures Original(Expiry(cfg, m)) == Original(m)
    ensures Original(Addressed(cfg, m)) == Original(m)
  {
  }

  lemma SamePlacesSameMessages(P: Message -> bool, s: State, t: State)
    requires Everywhere(P, s) && t == s.(h := t.h, consumer := t.consumer)
    requires t.consumer.Busy? ==> s.consumer.Busy? && t.consumer.d == s.consumer.d
    ensures Everywhere(P, t)
  {
  }

  lemma SettlingKeepsEverywhere(P: Message -> bool, s: State, d: Tagged)
    requires Everywhere(P, s)
    ensures Everywhere(P, s.(unacked := s.buffer, settledTags := s.settledTags + [d.tag]))
  {
  }

  lemma OneMore(P: Message -> bool, s: State, m: Message, why: Reason)
    requires Everywhere(P, s) && P(Original(m))
    ensures Everywhere(P, s.(retry := s.retry + [m])) && Everywhere(P, s.(dlq := s.dlq + [m]))
    ensures Everywhere(P, s.(done := s.done + [m])) && Everywhere(P, s.(lost := s.lost + [Lost(m, why)]))
  {
  }

  lemma AnswerKeepsEverywhere(P: Message -> bool, cfg: Config, s: State, d: Tagged, v: Verdict)
    requires Everywhere(P, s) && P(Original(d.message))
    ensures Everywhere(P, Answered(cfg, s, d, v))
  {
    OriginalStays(cfg, d.message);
    hide Everywhere, Original, Rejection;
    var t, u := s.(unacked := s.buffer, settledTags := s.settledTags + [d.tag]), Answered(cfg, s, d, v);
    SettlingKeepsEverywhere(P, s, d);
    OneMore(P, t, d.message, NoConsumerFor);
    OneMore(P, t, d.message, FailureWithoutDlq);
    OneMore(P, t, d.message, NoDeadLetterTarget);
    OneMore(P, t, Rejection(cfg, d.message), NoDeadLetterTarget);
    var w := u.(h := s.h);
    assert Everywhere(P, w);
    SamePlacesSameMessages(P, w, u);
  }

  lemma RepublishKeepsEverywhere(P: Message -> bool, cfg: Config, s: State, m: Message, settled: bool, ok: bool)
    requires Everywhere(P, s) && P(Original(m))
    ensures Everywhere(P, Republished(cfg, s, m, settled, ok))
  {
    OriginalStays(cfg, m);
  }

  lemma DropKeepsEverywhere(P: Message -> bool, s: State)
    requires Everywhere(P, s)
    ensures Everywhere(P, Drop(s))
  {
    forall m | m in Drop(s).main
      ensures P(Original(m))
    {
      if m in Messages(s.unacked) {
        var i :| 0 <= i < |s.unacked| && Messages(s.unacked)[i] == m;
        assert s.unacked[i] in s.unacked;
      }
    }
  }

  lemma EffectKeepsEverywhere(P: Message -> bool, cfg: Config, s: State, ok: bool)
    requires Everywhere(P, s) && s.consumer.Busy?
    ensures Everywhere(P, Effect(cfg, s, ok))
    ensures Effect(cfg, s, ok).consumer == s.consumer
  {
    assert P(Original(s.consumer.d.message));
    hide Everywhere, Answered, Republished, Drop;
    var d, v, next := s.consumer.d, s.consumer.v, s.consumer.next;
    AnswerFrame(cfg, s, d, v);
    RepublishFrame(cfg, s, d.message, s.consumer.settled, ok);
    if next < Lead(v) {
      SamePlacesSameMessages(P, s, Effect(cfg, s, ok));
    } else if next == Lead(v) {
      AnswerKeepsEverywhere(P, cfg, s, d, v);
    } else if v.FailedWithoutDlq? {
      DropKeepsEverywhere(P, s);
    } else {
      RepublishKeepsEverywhere(P, cfg, s, d.message, s.consumer.settled, ok);
    }
  }

  lemma RepublishFrame(cfg: Config, s: State, m: Message, settled: bool, ok: bool)
    ensures Republished(cfg, s, m, settled, ok).consumer == Drop(s).consumer == s.consumer
  {
  }

  lemma TurnKeepsEverywhere(P: Message -> bool, cfg: Config, s: State, ok: bool)
    requires Everywhere(P, s) && s.consumer.Busy?
    ensures Everywhere(P, Advance(Turned(cfg, s, Effect(cfg, s, ok))))
  {
    hide Everywhere, Effect;
    EffectKeepsEverywhere(P, cfg, s, ok);
    SamePlacesSameMessages(P, Effect(cfg, s, ok), Advance(Turned(cfg, s, Effect(cfg, s, ok))));
  }

  lemma PublishKeepsEverywhere(P: Message -> bool, cfg: Config, s: State, m: Message)
    requires Everywhere(P, s) && P(m) && Next(cfg, s, Publish(m)).Some?
    ensures Everywhere(P, Next(cfg, s, Publish(m)).value)
  {
    assert Original(m) == m;
  }

  lemma DeliverKeepsEverywhere(P: Message -> bool, cfg: Config, s: State)
    requires Everywhere(P, s) && Next(cfg, s, Deliver).Some?
    ensures Everywhere(P, Next(cfg, s, Deliver).value)
  {
    assert s.main[0] in s.main;
  }

  lemma ReceiveKeepsEverywhere(P: Message -> bool, cfg: Config, s: State, r: HandlerResult)
    requires Everywhere(P, s) && Next(cfg, s, Receive(r)).Some?
    ensures Everywhere(P, Next(cfg, s, Receive(r)).value)
  {
    assert s.buffer[0] in s.buffer;
  }

  lemma ExpiryKeepsEverywhere(P: Message -> bool, cfg: Config, s: State)
    requires Everywhere(P, s) && s.retry != []
    ensures Everywhere(P, Expired(cfg, s))
  {
    assert s.retry[0] in s.retry;
    OriginalStays(cfg, s.retry[0]);
  }

  lemma ResumeKeepsEverywhere(P: Message -> bool, cfg: Config, s: State)
    requires Everywhere(P, s) && Next(cfg, s, Resume).Some?
    ensures Everywhere(P, Next(cfg, s, Resume).value)
  {
  }

  lemma StepKeepsEverywhere(P: Message -> bool, cfg: Config, s: State, step: Step)
    requires Valid(cfg) && Inv(cfg, s) && Everywhere(P, s) && Next(cfg, s, step).Some?
    requires step.Publish? ==> P(step.m)
    ensures Everywhere(P, Next(cfg, s, step).value)
  {
    hide Everywhere, MessagesInv, TagsInv, PhaseInv, LossesInv, StaleInv, Turned, Effect, Expired;
    match step
    case Publish(m) => PublishKeepsEverywhere(P, cfg, s, m);
    case Deliver => DeliverKeepsEverywhere(P, cfg, s);
    case Receive(r) => ReceiveKeepsEverywhere(P, cfg, s, r);
    case Act(ok) =>
      TurnKeepsEverywhere(P, cfg, s, ok);
      ActStep(cfg, s, ok);
    case Expire =>
      ExpiryKeepsEverywhere(P, cfg, s);
      ExpireStep(cfg, s);
    case Lose => DropKeepsEverywhere(P, s);
    case Resume => ResumeKeepsEverywhere(P, cfg, s);
  }

  /** What holds of every message that a run publishes holds of every message it has. */
  lemma {:induction false} HoldsOfEveryMessage(P: Message -> bool, cfg: Config, steps: seq<Step>)
    requires Valid(cfg) && Reach(cfg, steps).Some?
    requires forall x :: x in steps && x.Publish? ==> P(x.m)
    ensures Everywhere(P, Reach(cfg, steps).value)
  {
    if steps != [] {
      var n := |steps| - 1;
      assert steps[n] in steps && forall x :: x in steps[..n] ==> x in steps;
      HoldsOfEveryMessage(P, cfg, steps[..n]);
      ReachableInv(cfg, steps[..n]);
      StepKeepsEverywhere(P, cfg, Reach(cfg, steps[..n]).value, steps[n]);
    }
  }

  /** The message is in some place of the system. */
  ghost predicate Holds(s: State, m: Message) {
    || m in s.main || m in s.retry || m in s.dlq || m in s.done
    || (exists t :: t in s.unacked && t.message == m)
    || (exists t :: t in s.buffer && t.message == m)
    || (exists l :: l in s.lost && l.message == m)
    || (s.consumer.Busy? && s.consumer.d.message == m)
  }

  /** In every run, each message in any place is one that was published, with the same body,
      headers, type and id; only its address, its deaths and its trips may be new. */
  lemma NothingIsInvented(cfg: Config, steps: seq<Step>, s: State, m: Message)
    requires Run(cfg, steps, s) && Holds(s, m)
    ensures Publish(Original(m)) in steps
  {
    HoldsOfEveryMessage((x: Message) => Publish(x) in steps, cfg, steps);
  }

  // Retries.

  /** A consumer is registered for the message, and its body unmarshals there. */
  predicate ToBeHandled(cfg: Config, m: Message) {
    Decodable(cfg, m) && Resolve(cfg.defs, FirstMetadata(m)).Chosen?
  }

  ghost predicate OnlyRetryable(steps: seq<Step>) {
    forall x :: x in steps && x.Receive? ==> x.r == RetryableError
  }

  ghost predicate AlwaysPublishes(steps: seq<Step>) {
    forall x :: x in steps && x.Act? ==> x.ok
  }

  /** Whatever is published under this id is to be handled. */
  ghost predicate HandledId(cfg: Config, steps: seq<Step>, id: nat) {
    forall x :: x in steps && x.Publish? && x.m.id == id ==> ToBeHandled(cfg, x.m)
  }

  /** The consumer is at a message whose handler, if called, asks for a retry. */
  ghost predicate Patient(s: State, id: nat) {
    (s.consumer.Busy? ==> s.consumer.r == RetryableError) && id !in s.h.excused
  }

  lemma RetryableVerdict(cfg: Config, s: State)
    requires Inv(cfg, s) && cfg.q.Cycles() && s.consumer.Busy? && s.consumer.r == RetryableError
    requires ToBeHandled(cfg, s.consumer.d.message)
    ensures s.consumer.v == if s.consumer.d.message.trips < cfg.q.retries then SentToRetry else LimitReached
  {
    FreshConsumer(cfg, s.consumer.d.message);
    FreshMetadata(cfg, s.consumer.d.message);
  }

  lemma TurnStaysPatient(cfg: Config, s: State, ok: bool, id: nat)
    requires Inv(cfg, s) && cfg.q.Cycles() && Patient(s, id) && s.consumer.Busy?
    requires s.consumer.d.message.id == id ==> ToBeHandled(cfg, s.consumer.d.message)
    ensures Patient(Advance(Turned(cfg, s, Effect(cfg, s, ok))), id)
  {
    hide MessagesInv, TagsInv, PhaseInv, LossesInv, StaleInv, Answered, ToBeHandled;
    if s.consumer.d.message.id == id {
      RetryableVerdict(cfg, s);
    }
    AnswerFrame(cfg, s, s.consumer.d, s.consumer.v);
  }

  lemma StepStaysPatient(cfg: Config, s: State, step: Step, id: nat)
    requires Valid(cfg) && Inv(cfg, s) && cfg.q.Cycles() && Patient(s, id) && Next(cfg, s, step).Some?
    requires step.Receive? ==> step.r == RetryableError
    requires s.consumer.Busy? && s.consumer.d.message.id == id ==> ToBeHandled(cfg, s.consumer.d.message)
    ensures Patient(Next(cfg, s, step).value, id)
  {
    hide MessagesInv, TagsInv, PhaseInv, LossesInv, StaleInv, Effect, Turned, ToBeHandled;
    match step
    case Act(ok) =>
      TurnStaysPatient(cfg, s, ok, id);
      ActStep(cfg, s, ok);
    case Expire => ExpireStep(cfg, s);
    case _ =>
  }

  lemma {:induction false} RunStaysPatient(cfg: Config, steps: seq<Step>, id: nat)
    requires Valid(cfg) && cfg.q.Cycles() && Reach(cfg, steps).Some?
    requires OnlyRetryable(steps) && HandledId(cfg, steps, id)
    ensures Patient(Reach(cfg, steps).value, id)
  {
    if steps != [] {
      var n := |steps| - 1;
      var s := Reach(cfg, steps[..n]).value;
      assert steps[n] in steps && forall x :: x in steps[..n] ==> x in steps;
      RunStaysPatient(cfg, steps[..n], id);
      ReachableInv(cfg, steps[..n]);
      HoldsOfEveryMessage((m: Message) => m.id == id ==> ToBeHandled(cfg, m), cfg, steps[..n]);
      if s.consumer.Busy? {
        var m := s.consumer.d.message;
        assert FirstMetadata(Original(m)) == FirstMetadata(m);
      }
      StepStaysPatient(cfg, s, steps[n], id);
    }
  }

  ghost predicate NoPublishFailed(s: State) {
    forall l :: l in s.lost ==> !l.why.PublishFailed?
  }

  lemma TurnPublishes(cfg: Config, s: State)
    requires NoPublishFailed(s) && s.consumer.Busy?
    ensures NoPublishFailed(Advance(Turned(cfg, s, Effect(cfg, s, true))))
  {
  }

  lemma StepPublishes(cfg: Config, s: State, step: Step)
    requires Valid(cfg) && Inv(cfg, s) && NoPublishFailed(s) && Next(cfg, s, step).Some?
    requires step.Act? ==> step.ok
    ensures NoPublishFailed(Next(cfg, s, step).value)
  {
    hide MessagesInv, TagsInv, PhaseInv, LossesInv, StaleInv, Effect, Turned;
    match step
    case Act(ok) =>
      TurnPublishes(cfg, s);
      ActStep(cfg, s, ok);
    case Expire => ExpireStep(cfg, s);
    case _ =>
  }

  lemma {:induction false} RunPublishes(cfg: Config, steps: seq<Step>)
    requires Valid(cfg) && Reach(cfg, steps).Some? && AlwaysPublishes(steps)
    ensures NoPublishFailed(Reach(cfg, steps).value)
  {
    if steps != [] {
      var n := |steps| - 1;
      assert steps[n] in steps && forall x :: x in steps[..n] ==> x in steps;
      RunPublishes(cfg, steps[..n]);
      ReachableInv(cfg, steps[..n]);
      StepPublishes(cfg, Reach(cfg, steps[..n]).value, steps[n]);
    }
  }

  /** On a queue with retry and DLQ, without a lost connection and with handlers that always
      ask for a retry: once all is quiet, a published message with a consumer that can decode
      it has had its handler called exactly max(retries, 0) times, and is in the DLQ; unless
      publishing it there failed. */
  lemma RetriedToTheLimit(cfg: Config, steps: seq<Step>, s: State, id: nat)
    requires Run(cfg, steps, s) && cfg.q.Cycles() && Quiet(s) && id in s.h.published
    requires NoLoss(steps) && OnlyRetryable(steps) && HandledId(cfg, steps, id)
    ensures s.h.runs[id] == Max(cfg.q.retries, 0)
    ensures || (exists m :: m in s.dlq && m.id == id)
            || (exists l :: l in s.lost && l.message.id == id && l.why.PublishFailed?)
    ensures AlwaysPublishes(steps) ==> exists m :: m in s.dlq && m.id == id
  {
    NoLossMeansNoCopies(cfg, steps);
    RunStaysPatient(cfg, steps, id);
    SteadyMessagesReachTheLimit(cfg, steps, s, id);
    if AlwaysPublishes(steps) {
      RunPublishes(cfg, steps);
    }
  }

  // Such runs exist, for every number of retries.

  /** A continuation as such a run has it. */
  ghost predicate Retrying(steps: seq<Step>) {
    NoLoss(steps) && OnlyRetryable(steps) && AlwaysPublishes(steps) && forall x :: x in steps ==> !x.Publish?
  }

  lemma CallAndReject(cfg: Config, steps: seq<Step>, s: State) returns (t: State)
    requires Run(cfg, steps, s) && cfg.q.Cycles() && s.live && s.main == s.retry == [] && s.buffer == []
    requires s.consumer.Busy? && s.consumer.v.SentToRetry? && s.consumer.next == 0 && !s.consumer.settled
    ensures Run(cfg, steps + [Act(true)] + [Act(true)] + [Expire], t)
    ensures Alone(t, Expiry(cfg, Rejection(cfg, s.consumer.d.message))) && t.dlq == s.dlq
    ensures t.h.published == s.h.published
  {
    ReachableInv(cfg, steps);
    ActStep(cfg, s, true);
    var s1 := Next(cfg, s, Act(true)).value;
    ReachSnoc(cfg, steps, s, Act(true));
    var s2 := RejectNow(cfg, steps + [Act(true)], s1);
    ExpireStep(cfg, s2);
    t := Next(cfg, s2, Expire).value;
    ReachSnoc(cfg, steps + [Act(true)] + [Act(true)], s2, Expire);
  }

  lemma RejectNow(cfg: Config, steps: seq<Step>, s: State) returns (t: State)
    requires Run(cfg, steps, s) && cfg.q.Cycles() && s.live && s.main == s.retry == [] && s.buffer == []
    requires s.consumer.Busy? && s.consumer.v.SentToRetry? && s.consumer.next == 1 && !s.consumer.settled
    ensures Run(cfg, steps + [Act(true)], t)
    ensures t.live && t.consumer.Idle? && t.main == [] && t.buffer == [] && t.dlq == s.dlq
    ensures t.retry == [Rejection(cfg, s.consumer.d.message)] && t.h.published == s.h.published
  {
    ReachableInv(cfg, steps);
    ActStep(cfg, s, true);
    t := Next(cfg, s, Act(true)).value;
    ReachSnoc(cfg, steps, s, Act(true));
  }

  lemma AckAndPublish(cfg: Config, steps: seq<Step>, s: State) returns (t: State)
    requires Run(cfg, steps, s) && cfg.q.withDLQ && s.live && s.main == s.retry == [] && s.buffer == []
    requires s.consumer.Busy? && s.consumer.v.LimitReached? && s.consumer.next == 0 && !s.consumer.settled
    ensures Run(cfg, steps + [Act(true)] + [Act(true)], t)
    ensures Quiet(t) && t.dlq == s.dlq + [Addressed(cfg, s.consumer.d.message)]
    ensures t.h.published == s.h.published
  {
    ReachableInv(cfg, steps);
    ActStep(cfg, s, true);
    var s1 := Next(cfg, s, Act(true)).value;
    ReachSnoc(cfg, steps, s, Act(true));
    ReachableInv(cfg, steps + [Act(true)]);
    ActStep(cfg, s1, true);
    t := Next(cfg, s1, Act(true)).value;
    ReachSnoc(cfg, steps + [Act(true)], s1, Act(true));
  }

  lemma Take(cfg: Config, steps: seq<Step>, s: State, m: Message) returns (t: State)
    requires Run(cfg, steps, s) && cfg.q.Cycles() && Alone(s, m) && ToBeHandled(cfg, m)
    ensures Run(cfg, steps + [Deliver] + [Receive(RetryableError)], t)
    ensures t.live && t.main == t.retry == [] && t.buffer == [] && t.dlq == s.dlq && t.h.published == s.h.published
    ensures t.consumer.Busy? && t.consumer.d.message == m && t.consumer.next == 0 && !t.consumer.settled
    ensures t.consumer.v == if m.trips < cfg.q.retries then SentToRetry else LimitReached
  {
    hide Next, Reach, MessagesInv, TagsInv, LossesInv, StaleInv;
    ReachableInv(cfg, steps);
    t := TakeUp(cfg, s, m, RetryableError);
    ReachSnoc(cfg, steps, s, Deliver);
    ReachSnoc(cfg, steps + [Deliver], Next(cfg, s, Deliver).value, Receive(RetryableError));
    AloneIsFresh(cfg, s, m);
    FreshConsumer(cfg, m);
    FreshMetadata(cfg, m);
  }

  lemma ToBeHandledAgain(cfg: Config, m: Message)
    ensures var again := Expiry(cfg, Rejection(cfg, m));
            && ToBeHandled(cfg, again) == ToBeHandled(cfg, m)
            && again.id == m.id && again.trips == m.trips + 1
  {
    assert FirstMetadata(Expiry(cfg, Rejection(cfg, m))) == FirstMetadata(m);
  }

  lemma {:induction false} TriedToTheEnd(cfg: Config, steps: seq<Step>, s: State, m: Message)
    returns (more: seq<Step>, t: State, last: Message)
    requires Run(cfg, steps, s) && cfg.q.Cycles() && Alone(s, m) && ToBeHandled(cfg, m) && s.dlq == []
    ensures Run(cfg, steps + more, t) && Retrying(more)
    ensures Quiet(t) && t.dlq == [last] && last.id == m.id && t.h.published == s.h.published
    decreases Max(cfg.q.retries - m.trips, 0)
  {
    hide Run, ToBeHandled, Expiry, Rejection, Alone;
    var s1 := Take(cfg, steps, s, m);
    var taken := steps + [Deliver] + [Receive(RetryableError)];
    if m.trips < cfg.q.retries {
      var s2 := CallAndReject(cfg, taken, s1);
      var again := Expiry(cfg, Rejection(cfg, m));
      ToBeHandledAgain(cfg, m);
      var rest;
      rest, t, last := TriedToTheEnd(cfg, taken + [Act(true)] + [Act(true)] + [Expire], s2, again);
      more := [Deliver, Receive(RetryableError), Act(true), Act(true), Expire] + rest;
      assert steps + more == taken + [Act(true)] + [Act(true)] + [Expire] + rest;
    } else {
      t := AckAndPublish(cfg, taken, s1);
      last := Addressed(cfg, m);
      more := [Deliver, Receive(RetryableError), Act(true), Act(true)];
      assert steps + more == taken + [Act(true)] + [Act(true)];
    }
  }

  /** For every queue with retry and DLQ, every number of retries, and every message with a
      consumer that can decode it, there is a run of the kind that `RetriedToTheLimit` is
      about: it ends with the message in the DLQ after exactly max(retries, 0) calls. */
  lemma SomeRunRetriesToTheLimit(cfg: Config, m: Message) returns (steps: seq<Step>, s: State)
    requires Valid(cfg) && cfg.q.Cycles() && ToBeHandled(cfg, m) && Next(cfg, Start(), Publish(m)).Some?
    ensures Run(cfg, steps, s) && Quiet(s) && m.id in s.h.published
    ensures NoLoss(steps) && OnlyRetryable(steps) && AlwaysPublishes(steps) && HandledId(cfg, steps, m.id)
    ensures s.h.runs[m.id] == Max(cfg.q.retries, 0) && |s.dlq| == 1 && s.dlq[0].id == m.id
  {
    var s1 := FirstPublish(cfg, m);
    var more, last;
    more, s, last := TriedToTheEnd(cfg, [Publish(m)], s1, m);
    steps := [Publish(m)] + more;
    RetriedToTheLimit(cfg, steps, s, m.id);
  }
}
