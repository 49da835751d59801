/** How long runs without a lost connection can get. Without a DLQ a failed message closes the
    channel, so there are redeliveries to pay for; but each such failure uses up a message. */
module LifecycleRunLengths {
  import opened Common
  import opened Dispatchers
  import opened Lifecycle
  import opened LifecycleInvariant
  import opened LifecycleSteps
  import opened LifecycleAccounts
  import opened LifecycleBounds
  import opened LifecycleTheorems
  import opened LifecycleTermination
  import opened LifecycleLimits
  import Q = Queues

  function Resumes(steps: seq<Step>): nat {
    if steps == [] then 0
    else Resumes(steps[..|steps| - 1]) + (if steps[|steps| - 1].Resume? then 1 else 0)
  }

  function ByFailure(): Lost -> int {
    (l: Lost) => if l.why.FailureWithoutDlq? then 1 else 0
  }

  /** A channel that is closed, or about to be by a second acknowledgement. */
  function Closing(s: State): nat {
    if !s.live || (s.consumer.Busy? && s.consumer.settled && s.consumer.v.FailedWithoutDlq?) then 1 else 0
  }

  function Closed(s: State): nat {
    if s.live then 0 else 1
  }

  // As many distinct messages as ids.

  function Marks<T>(key: T -> nat, id: nat): T -> int {
    (x: T) => if key(x) == id then 1 else 0
  }

  lemma {:induction false} DistinctFit<T>(s: seq<T>, key: T -> nat, ids: set<nat>)
    requires forall id: nat :: Sum(s, Marks(key, id)) <= if id in ids then 1 else 0
    ensures |s| <= |ids|
  {
    if s != [] {
      var x, rest := key(s[0]), s[1..];
      assert Sum(s, Marks(key, x)) == 1 + Sum(rest, Marks(key, x));
      SumIsNonNegative(rest, Marks(key, x));
      assert x in ids && |ids - {x}| == |ids| - 1;
      forall id: nat
        ensures Sum(rest, Marks(key, id)) <= if id in ids - {x} then 1 else 0
      {
        assert Sum(s, Marks(key, id)) <= if id in ids then 1 else 0;
      }
      DistinctFit(rest, key, ids - {x});
    }
  }

  lemma PlacesFit(s: State)
    requires OneCopyEach(s)
    ensures |s.unacked| <= |s.h.published| && |s.lost| <= |s.h.published|
  {
    var taggedId, lostId := (t: Tagged) => t.message.id, (l: Lost) => l.message.id;
    forall id: nat
      ensures Sum(s.unacked, Marks(taggedId, id)) <= if id in s.h.published then 1 else 0
      ensures Sum(s.lost, Marks(lostId, id)) <= if id in s.h.published then 1 else 0
    {
      PartsOfTheCount(s, id);
      SumIsMonotone(s.unacked, Marks(taggedId, id), OnTagged(One(id)));
      SumIsMonotone(s.lost, Marks(lostId, id), OnLost(One(id)));
      assert Count(s, id) == if id in s.h.published then 1 else 0;
    }
    DistinctFit(s.unacked, taggedId, s.h.published);
    DistinctFit(s.lost, lostId, s.h.published);
  }

  lemma {:induction false} FailuresAreLosses(ls: seq<Lost>)
    ensures Sum(ls, ByFailure()) <= |ls|
  {
    if ls != [] {
      FailuresAreLosses(ls[1..]);
    }
  }

  /** Each closing of the channel is paid for by a failed message. */
  ghost predicate Pays(s: State, t: State, resumed: nat) {
    Closing(t) + resumed - Sum(t.lost, ByFailure()) <= Closing(s) - Sum(s.lost, ByFailure())
  }

  lemma AnswerPays(cfg: Config, s: State, d: Tagged, v: Verdict)
    ensures Sum(Answered(cfg, s, d, v).lost, ByFailure()) ==
            Sum(s.lost, ByFailure()) + (if v.FailedWithoutDlq? then 1 else 0)
  {
    SumSnoc(s.lost, Lost(d.message, NoConsumerFor), ByFailure());
    SumSnoc(s.lost, Lost(d.message, FailureWithoutDlq), ByFailure());
    SumSnoc(s.lost, Lost(d.message, NoDeadLetterTarget), ByFailure());
  }

  lemma RepublishPays(cfg: Config, s: State, m: Message, settled: bool, ok: bool)
    ensures Sum(Republished(cfg, s, m, settled, ok).lost, ByFailure()) == Sum(s.lost, ByFailure())
    ensures Republished(cfg, s, m, settled, ok).live == s.live
  {
    SumSnoc(s.lost, Lost(m, PublishFailed), ByFailure());
    SumSnoc(s.lost, Lost(Addressed(cfg, m), Unroutable), ByFailure());
  }

  lemma TurnPays(cfg: Config, s: State, ok: bool)
    requires Inv(cfg, s) && s.consumer.Busy?
    ensures Pays(s, Advance(Turned(cfg, s, Effect(cfg, s, ok))), 0)
  {
    hide MessagesInv, LossesInv, StaleInv, Sum;
    AnswerPays(cfg, s, s.consumer.d, s.consumer.v);
    AnswerFrame(cfg, s, s.consumer.d, s.consumer.v);
    RepublishPays(cfg, s, s.consumer.d.message, s.consumer.settled, ok);
  }

  lemma StepPays(cfg: Config, s: State, step: Step)
    requires Valid(cfg) && Inv(cfg, s) && Next(cfg, s, step).Some? && !step.Lose?
    ensures Pays(s, Next(cfg, s, step).value, if step.Resume? then 1 else 0)
  {
    match step
    case Act(ok) =>
      TurnPays(cfg, s, ok);
      ActStep(cfg, s, ok);
    case Expire => ExpireStep(cfg, s);
    case _ =>
  }

  lemma StepCounts(cfg: Config, s: State, step: Step)
    requires Valid(cfg) && Inv(cfg, s) && Next(cfg, s, step).Some? && !step.Lose?
    ensures Next(cfg, s, step).value.h.progress ==
            s.h.progress + (if step.Publish? || step.Resume? then 0 else 1)
    ensures step.Resume? ==> !s.live && Next(cfg, s, step).value.live
    ensures !step.Resume? && !s.live ==> !Next(cfg, s, step).value.live
  {
    match step
    case Act(ok) =>
      EffectFrame(cfg, s, ok);
      ActStep(cfg, s, ok);
    case Expire => ExpireStep(cfg, s);
    case _ =>
  }

  ghost predicate LengthInv(steps: seq<Step>, s: State) {
    && Resumes(steps) + Closing(s) <= Sum(s.lost, ByFailure())
    && |s.h.redelivered| <= (Resumes(steps) + Closed(s)) * |s.h.published|
    && |steps| == Publishes(steps) + s.h.progress + Resumes(steps)
    && |s.h.published| == Publishes(steps)
  }

  lemma ProductGrows(a: nat, b: nat, c: nat, d: nat)
    requires a <= c && b <= d
    ensures a * b <= c * d
  {
    assert a * b <= c * b <= c * d;
  }

  lemma OneMoreRow(a: nat, b: nat, c: nat, d: nat)
    requires a + 1 <= c && b <= d
    ensures a * b + b <= c * d
  {
    ProductGrows(a + 1, b, c, d);
    assert (a + 1) * b == a * b + b;
  }

  lemma RedeliveriesFit(cfg: Config, steps: seq<Step>, s: State, step: Step)
    requires Valid(cfg) && Inv(cfg, s) && Next(cfg, s, step).Some? && !step.Lose?
    requires OneCopyEach(s) && |s.h.redelivered| <= (Resumes(steps) + Closed(s)) * |s.h.published|
    ensures var t := Next(cfg, s, step).value;
            |t.h.redelivered| <= (Resumes(steps) + (if step.Resume? then 1 else 0) + Closed(t)) * |t.h.published|
  {
    hide Inv, Next, OneCopyEach, Resumes;
    var t, k := Next(cfg, s, step).value, Resumes(steps);
    var k' := k + (if step.Resume? then 1 else 0);
    PlacesFit(s);
    RedeliveriesGrow(cfg, s, step);
    PublishedGrows(cfg, s, step);
    StepCounts(cfg, s, step);
    IdsSize(s.unacked);
    var before, after := k + Closed(s), k' + Closed(t);
    if t.h.redelivered == s.h.redelivered {
      ProductGrows(before, |s.h.published|, after, |t.h.published|);
    } else {
      OneMoreRow(before, |s.h.published|, after, |t.h.published|);
    }
  }

  lemma {:induction false} CalmLength(cfg: Config, steps: seq<Step>)
    requires Valid(cfg) && Reach(cfg, steps).Some? && NoLoss(steps)
    ensures LengthInv(steps, Reach(cfg, steps).value)
  {
    if steps != [] {
      var n := |steps| - 1;
      var s := Reach(cfg, steps[..n]).value;
      assert forall x :: x in steps[..n] ==> x in steps;
      assert steps[n] in steps;
      CalmLength(cfg, steps[..n]);
      ReachableInv(cfg, steps[..n]);
      OneCopyWithoutLoss(cfg, steps[..n], s);
      CalmStep(cfg, steps, s);
    }
  }

  lemma CalmStep(cfg: Config, steps: seq<Step>, s: State)
    requires Valid(cfg) && steps != [] && Inv(cfg, s) && OneCopyEach(s)
    requires LengthInv(steps[..|steps| - 1], s)
    requires Next(cfg, s, steps[|steps| - 1]).Some? && !steps[|steps| - 1].Lose?
    ensures LengthInv(steps, Next(cfg, s, steps[|steps| - 1]).value)
  {
    hide Inv, Next, OneCopyEach, Sum;
    var front, step := steps[..|steps| - 1], steps[|steps| - 1];
    StepPays(cfg, s, step);
    StepCounts(cfg, s, step);
    PublishedGrows(cfg, s, step);
    RedeliveriesFit(cfg, front, s, step);
  }

  /** What a run with `n` publishes and no lost connection can come to. */
  function LengthBound(q: Q.Queue, n: nat): nat {
    2 * n + Budget(q, n) + 5 * (n * n)
  }

  /** On every queue, a run without a lost connection ends; if rejected messages come back
      through a retry queue, this is about decodable messages. */
  lemma EveryCalmRunEnds(cfg: Config, steps: seq<Step>, s: State)
    requires Run(cfg, steps, s) && NoLoss(steps)
    requires cfg.q.Cycles() ==> AllDecodable(cfg, steps)
    ensures |steps| <= LengthBound(cfg.q, Publishes(steps))
  {
    hide Total, Budget, Reach, Publishes, Resumes, OneCopyEach, Sum;
    var n := Publishes(steps);
    CalmLength(cfg, steps);
    OneCopyWithoutLoss(cfg, steps, s);
    PlacesFit(s);
    FailuresAreLosses(s.lost);
    LossesCostRedeliveries(cfg, steps, s);
    var k := Resumes(steps) + Closed(s);
    assert Closed(s) <= Closing(s) && k <= n;
    ProductGrows(k, n, n, n);
  }

  ghost predicate Bounds(cfg: Config, n: nat, b: nat) {
    forall steps: seq<Step>, s: State :: Calm(cfg, steps, s) && Publishes(steps) == n ==> |steps| <= b
  }

  ghost predicate HasBound(cfg: Config, n: nat) {
    exists b: nat :: Bounds(cfg, n, b)
  }

  ghost predicate RunsAreBounded(cfg: Config) {
    forall n: nat :: HasBound(cfg, n)
  }

  /** Whatever bound is set on runs with a single publish, an undecodable message exceeds it. */
  lemma NothingBoundsACycle(cfg: Config, b: nat)
    requires Valid(cfg) && cfg.q.Cycles() && Served(cfg)
    ensures !Bounds(cfg, 1, b)
  {
    var m := Wanted(cfg, 0).(decodesAs := {});
    WantedIsServed(cfg, 0);
    assert FirstMetadata(m) == FirstMetadata(Wanted(cfg, 0));
    var steps, s, back := UndecodableCyclesForEver(cfg, m, b + 1);
    NoLossMeansNoCopies(cfg, steps);
    assert Calm(cfg, steps, s) && Publishes(steps) == 1 && |steps| > b;
  }

  /** Without lost connections the length of runs is bounded by their publishes exactly when
      the queue does not cycle, for want of a retry queue or of a DLQ, or has no consumer. */
  lemma RunsAreBoundedExactlyWhen(cfg: Config)
    requires Valid(cfg)
    ensures RunsAreBounded(cfg) <==> !cfg.q.Cycles() || !Served(cfg)
  {
    if cfg.q.Cycles() && Served(cfg) {
      forall b: nat
        ensures !Bounds(cfg, 1, b)
      {
        NothingBoundsACycle(cfg, b);
      }
      assert !HasBound(cfg, 1);
    } else {
      forall n: nat
        ensures HasBound(cfg, n)
      {
        forall steps: seq<Step>, s: State | Calm(cfg, steps, s) && Publishes(steps) == n
          ensures |steps| <= LengthBound(cfg.q, n)
        {
          if cfg.q.Cycles() {
            UnservedIsDecodable(cfg, steps);
          }
          EveryCalmRunEnds(cfg, steps, s);
        }
        assert Bounds(cfg, n, LengthBound(cfg.q, n));
      }
    }
  }

  lemma UnservedIsDecodable(cfg: Config, steps: seq<Step>)
    requires !Served(cfg)
    ensures AllDecodable(cfg, steps)
  {
    forall x | x in steps && x.Publish?
      ensures Decodable(cfg, x.m)
    {
      UnservedResolvesNothing(cfg, FirstMetadata(x.m));
    }
  }
}
