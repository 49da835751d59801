/** What a lost connection changes. Three promises are settled here for every configuration:
    handler calls within the retries, one copy of each message, and runs that end. Each has
    the condition on the configuration under which it holds for all runs, and a run that
    breaks it under every other configuration. */
module LifecycleLimits {
  import opened Common
  import opened Dispatchers
  import opened Lifecycle
  import opened LifecycleInvariant
  import opened LifecycleSteps
  import opened LifecycleAccounts
  import opened LifecycleBounds
  import opened LifecycleTheorems
  import opened LifecycleTermination
  import D = Deliveries

  /** Some message gets a consumer: the search ends at a first entry of unknown kind. */
  predicate Served(cfg: Config) {
    cfg.defs != [] && KnownKind(cfg.defs[0])
  }

  lemma UnservedResolvesNothing(cfg: Config, m: D.Metadata)
    requires !Served(cfg)
    ensures !Resolve(cfg.defs, m).Chosen?
  {
  }

  /** A message for the first consumer, as published. */
  function Wanted(cfg: Config, id: nat): Message
    requires Served(cfg)
  {
    var c := cfg.defs[0];
    Message(id, "", c.msgType, c.exchange, c.routingKey, map[], [], {c.msgType}, 0, c.exchange, c.routingKey)
  }

  lemma WantedIsServed(cfg: Config, id: nat)
    requires Served(cfg)
    ensures var m := Wanted(cfg, id);
            && Fresh(cfg, m) && Decodable(cfg, m) && Resolve(cfg.defs, FirstMetadata(m)) == Chosen(cfg.defs[0])
            && Next(cfg, Start(), Publish(m)).Some?
  {
    assert Matches(cfg.defs[0], FirstMetadata(Wanted(cfg, id)));
  }

  // Queues on which no handler is ever called.

  predicate Dormant(cfg: Config) {
    !Served(cfg) || (cfg.q.withRetry && cfg.q.retries <= 0)
  }

  lemma DormantVerdict(cfg: Config, s: State)
    requires Inv(cfg, s) && Dormant(cfg) && s.consumer.Busy?
    ensures !Invokes(s.consumer.v)
  {
    VerdictFacts(cfg, s);
    if !Served(cfg) {
      UnservedResolvesNothing(cfg, D.Extract(Seen(s.consumer.d.message)).metadata);
    }
  }

  lemma StepStaysDormant(cfg: Config, s: State, step: Step)
    requires Valid(cfg) && Inv(cfg, s) && Dormant(cfg) && Next(cfg, s, step).Some?
    ensures Next(cfg, s, step).value.h.runs == s.h.runs
  {
    match step
    case Act(ok) =>
      DormantVerdict(cfg, s);
      ActStep(cfg, s, ok);
    case Expire => ExpireStep(cfg, s);
    case _ =>
  }

  lemma {:induction false} DormantQueueCallsNothing(cfg: Config, steps: seq<Step>)
    requires Valid(cfg) && Dormant(cfg) && Reach(cfg, steps).Some?
    ensures Reach(cfg, steps).value.h.runs == multiset{}
  {
    if steps != [] {
      var n := |steps| - 1;
      DormantQueueCallsNothing(cfg, steps[..n]);
      ReachableInv(cfg, steps[..n]);
      StepStaysDormant(cfg, Reach(cfg, steps[..n]).value, steps[n]);
    }
  }

  /** Without a lost connection, the handler of a message runs within its retries if there is
      a DLQ, or if it never runs at all. */
  lemma NoLossKeepsTheAllowance(cfg: Config, steps: seq<Step>, s: State, id: nat)
    requires Run(cfg, steps, s) && NoLoss(steps) && (cfg.q.withDLQ || Dormant(cfg))
    ensures s.h.runs[id] <= Allowance(cfg.q)
    ensures Dormant(cfg) ==> s.h.runs[id] == 0
  {
    if cfg.q.withDLQ {
      NoLossMeansNoCopies(cfg, steps);
      HandlerCallsAreBounded(cfg, steps, s, id);
    }
    if Dormant(cfg) {
      DormantQueueCallsNothing(cfg, steps);
    }
  }

  // The run that breaks the allowance on every other queue. Messages wait in a line; the
  // first fails, its second acknowledgement closes the channel, and the others are called
  // from the client's buffer although they are back in the queue.

  /** A run without a lost connection. */
  ghost predicate Calm(cfg: Config, steps: seq<Step>, s: State) {
    Run(cfg, steps, s) && NoLoss(steps)
  }

  lemma CalmSnoc(cfg: Config, steps: seq<Step>, s: State, step: Step)
    requires Calm(cfg, steps, s) && Next(cfg, s, step).Some? && !step.Lose?
    ensures Calm(cfg, steps + [step], Next(cfg, s, step).value)
  {
    ReachSnoc(cfg, steps, s, step);
  }

  /** Failures are acknowledged twice, and handlers do run. */
  predicate DoubleAcks(cfg: Config) {
    !cfg.q.withDLQ && !Dormant(cfg)
  }

  predicate IsWanted(cfg: Config, m: Message)
    requires Served(cfg)
  {
    m == Wanted(cfg, m.id)
  }

  ghost predicate AllWanted(cfg: Config, ms: seq<Message>)
    requires Served(cfg)
  {
    forall m :: m in ms ==> IsWanted(cfg, m)
  }

  lemma WantedVerdict(cfg: Config, m: Message)
    requires DoubleAcks(cfg) && IsWanted(cfg, m)
    ensures D.Extract(Seen(m)).Extracted?
    ensures VerdictOn(cfg, m, OtherError) == FailedWithoutDlq && VerdictOn(cfg, m, Success) == Succeeded
  {
    WantedIsServed(cfg, m.id);
    FreshConsumer(cfg, m);
    FreshMetadata(cfg, m);
  }

  /** The state in which the line `ms` waits in the main queue of a connected, idle system. */
  ghost predicate Lined(s: State, ms: seq<Message>) {
    s.live && s.consumer.Idle? && s.buffer == [] && s.main == ms
  }

  function Line(cfg: Config, n: nat): seq<Message>
    requires Served(cfg)
  {
    seq(n, i requires 0 <= i < n => Wanted(cfg, i))
  }

  lemma PublishNext(cfg: Config, steps: seq<Step>, s: State, m: Message) returns (t: State)
    requires Calm(cfg, steps, s) && Served(cfg) && IsWanted(cfg, m) && m.id !in s.h.published
    ensures Calm(cfg, steps + [Publish(m)], t) && t.main == s.main + [m]
    ensures t.live == s.live && t.consumer == s.consumer && t.buffer == s.buffer
    ensures t.h.published == s.h.published + {m.id}
  {
    CalmSnoc(cfg, steps, s, Publish(m));
    t := Next(cfg, s, Publish(m)).value;
  }

  lemma {:induction false} PublishLine(cfg: Config, n: nat) returns (steps: seq<Step>, s: State)
    requires Valid(cfg) && Served(cfg)
    ensures Calm(cfg, steps, s) && Lined(s, Line(cfg, n))
    ensures forall i :: i in s.h.published ==> i < n
  {
    if n == 0 {
      steps, s := [], Start();
      assert Reach(cfg, []) == Some(Start());
    } else {
      hide Calm;
      var m := Wanted(cfg, n - 1);
      var front, before := PublishLine(cfg, n - 1);
      s := PublishNext(cfg, front, before, m);
      steps := front + [Publish(m)];
      assert Line(cfg, n) == Line(cfg, n - 1) + [m];
    }
  }

  lemma DeliverOne(cfg: Config, steps: seq<Step>, s: State) returns (t: State)
    requires Calm(cfg, steps, s) && s.live && s.consumer.Idle? && s.main != []
    ensures Calm(cfg, steps + [Deliver], t) && t.live && t.consumer.Idle? && t.h.runs == s.h.runs
    ensures t.main == s.main[1..] && Messages(t.buffer) == Messages(s.buffer) + [s.main[0]]
  {
    CalmSnoc(cfg, steps, s, Deliver);
    t := Next(cfg, s, Deliver).value;
  }

  lemma {:induction false} DeliverAll(cfg: Config, steps: seq<Step>, s: State) returns (more: seq<Step>, t: State)
    requires Calm(cfg, steps, s) && s.live && s.consumer.Idle?
    ensures Calm(cfg, steps + more, t) && t.live && t.consumer.Idle? && t.h.runs == s.h.runs
    ensures t.main == [] && Messages(t.buffer) == Messages(s.buffer) + s.main
    decreases |s.main|
  {
    hide Calm;
    if s.main == [] {
      more, t := [], s;
      assert steps + [] == steps;
    } else {
      var u := DeliverOne(cfg, steps, s);
      var rest;
      rest, t := DeliverAll(cfg, steps + [Deliver], u);
      more := [Deliver] + rest;
      assert steps + more == steps + [Deliver] + rest;
      assert s.main == [s.main[0]] + s.main[1..];
    }
  }

  /** A receipt puts the first buffered message into the consumer's hands. */
  lemma TakeNext(cfg: Config, steps: seq<Step>, s: State, r: HandlerResult) returns (t: State)
    requires Calm(cfg, steps, s) && DoubleAcks(cfg) && s.consumer.Idle?
    requires s.buffer != [] && IsWanted(cfg, s.buffer[0].message)
    ensures Calm(cfg, steps + [Receive(r)], t)
    ensures t.consumer == Busy(s.buffer[0], r, VerdictOn(cfg, s.buffer[0].message, r), 0, false)
    ensures t.buffer == s.buffer[1..] && t.main == s.main && t.live == s.live && t.h.runs == s.h.runs
  {
    WantedVerdict(cfg, s.buffer[0].message);
    CalmSnoc(cfg, steps, s, Receive(r));
    t := Next(cfg, s, Receive(r)).value;
  }

  /** The handler call. */
  lemma CallNext(cfg: Config, steps: seq<Step>, s: State) returns (t: State)
    requires Calm(cfg, steps, s) && s.consumer.Busy? && Invokes(s.consumer.v)
    requires s.consumer.next == 0 && !s.consumer.settled
    ensures Calm(cfg, steps + [Act(true)], t)
    ensures t.h.runs == s.h.runs + multiset{s.consumer.d.message.id}
    ensures t.consumer == s.consumer.(next := 1)
    ensures t.buffer == s.buffer && t.main == s.main && t.live == s.live
  {
    ReachableInv(cfg, steps);
    ActStep(cfg, s, true);
    CalmSnoc(cfg, steps, s, Act(true));
    t := Next(cfg, s, Act(true)).value;
  }

  lemma AnswerFirst(cfg: Config, steps: seq<Step>, s: State) returns (t: State)
    requires Calm(cfg, steps, s) && s.live && s.consumer.Busy? && s.consumer.v.FailedWithoutDlq?
    requires s.consumer.next == 1 && !s.consumer.settled
    ensures Calm(cfg, steps + [Act(true)], t)
    ensures t.consumer == s.consumer.(next := 2, settled := true)
    ensures t.unacked == t.buffer == s.buffer && t.main == s.main && t.live && t.h.runs == s.h.runs
  {
    ReachableInv(cfg, steps);
    ActStep(cfg, s, true);
    CalmSnoc(cfg, steps, s, Act(true));
    t := Next(cfg, s, Act(true)).value;
  }

  lemma AnswerAgain(cfg: Config, steps: seq<Step>, s: State) returns (t: State)
    requires Calm(cfg, steps, s) && s.live && s.consumer.Busy? && s.consumer.v.FailedWithoutDlq?
    requires s.consumer.next == 2 && s.consumer.settled && s.unacked == s.buffer
    ensures Calm(cfg, steps + [Act(true)], t)
    ensures t.consumer.Idle? && !t.live && t.buffer == s.buffer && t.main == Messages(s.buffer) + s.main
    ensures t.h.runs == s.h.runs
  {
    DoubleAckLosesTheChannel(cfg, steps, s, true);
    ReachableInv(cfg, steps);
    ActStep(cfg, s, true);
    CalmSnoc(cfg, steps, s, Act(true));
    t := Next(cfg, s, Act(true)).value;
  }

  /** The first buffered message fails: the channel closes, and the rest is both back in the
      queue and still in the buffer. */
  lemma FailFirst(cfg: Config, steps: seq<Step>, s: State) returns (more: seq<Step>, t: State)
    requires Calm(cfg, steps, s) && DoubleAcks(cfg) && s.live && s.consumer.Idle? && s.main == []
    requires s.buffer != [] && IsWanted(cfg, s.buffer[0].message)
    ensures Calm(cfg, steps + more, t) && !t.live && t.consumer.Idle?
    ensures t.buffer == s.buffer[1..] && t.main == Messages(s.buffer[1..]) && s.h.runs <= t.h.runs
  {
    hide Calm;
    WantedVerdict(cfg, s.buffer[0].message);
    var s1 := TakeNext(cfg, steps, s, OtherError);
    var s2 := CallNext(cfg, steps + [Receive(OtherError)], s1);
    var s3 := AnswerFirst(cfg, steps + [Receive(OtherError)] + [Act(true)], s2);
    t := AnswerAgain(cfg, steps + [Receive(OtherError)] + [Act(true)] + [Act(true)], s3);
    more := [Receive(OtherError), Act(true), Act(true), Act(true)];
    assert steps + more == steps + [Receive(OtherError)] + [Act(true)] + [Act(true)] + [Act(true)];
  }

  lemma AnswerInVain(cfg: Config, steps: seq<Step>, s: State) returns (t: State)
    requires Calm(cfg, steps, s) && !s.live && s.consumer.Busy? && s.consumer.v.Succeeded?
    requires s.consumer.next == 1 && !s.consumer.settled
    ensures Calm(cfg, steps + [Act(true)], t)
    ensures t.consumer.Idle? && !t.live && t.buffer == s.buffer && t.main == s.main && t.h.runs == s.h.runs
  {
    ReachableInv(cfg, steps);
    ActStep(cfg, s, true);
    CalmSnoc(cfg, steps, s, Act(true));
    t := Next(cfg, s, Act(true)).value;
  }

  /** A stale delivery is handled although its message is back in the queue. */
  lemma CallStale(cfg: Config, steps: seq<Step>, s: State) returns (more: seq<Step>, t: State)
    requires Calm(cfg, steps, s) && DoubleAcks(cfg) && !s.live && s.consumer.Idle?
    requires s.buffer != [] && IsWanted(cfg, s.buffer[0].message)
    ensures Calm(cfg, steps + more, t) && !t.live && t.consumer.Idle? && t.main == s.main
    ensures t.buffer == s.buffer[1..] && t.h.runs == s.h.runs + multiset{s.buffer[0].message.id}
  {
    hide Calm;
    WantedVerdict(cfg, s.buffer[0].message);
    var s1 := TakeNext(cfg, steps, s, Success);
    var s2 := CallNext(cfg, steps + [Receive(Success)], s1);
    t := AnswerInVain(cfg, steps + [Receive(Success)] + [Act(true)], s2);
    more := [Receive(Success), Act(true), Act(true)];
    assert steps + more == steps + [Receive(Success)] + [Act(true)] + [Act(true)];
  }

  lemma {:induction false} CallAllStale(cfg: Config, steps: seq<Step>, s: State) returns (more: seq<Step>, t: State)
    requires Calm(cfg, steps, s) && DoubleAcks(cfg) && !s.live && s.consumer.Idle? && s.buffer != []
    requires AllWanted(cfg, Messages(s.buffer))
    ensures Calm(cfg, steps + more, t) && !t.live && t.consumer.Idle? && t.main == s.main && t.buffer == []
    ensures var id := s.buffer[|s.buffer| - 1].message.id; t.h.runs[id] >= s.h.runs[id] + 1
    ensures s.h.runs <= t.h.runs
    decreases |s.buffer|
  {
    hide Calm;
    assert Messages(s.buffer)[0] in Messages(s.buffer);
    var first, u := CallStale(cfg, steps, s);
    if |s.buffer| == 1 {
      more, t := first, u;
    } else {
      assert Messages(u.buffer) == Messages(s.buffer)[1..];
      var rest;
      rest, t := CallAllStale(cfg, steps + first, u);
      more := first + rest;
      assert steps + more == steps + first + rest;
    }
  }

  lemma Reconnect(cfg: Config, steps: seq<Step>, s: State) returns (t: State)
    requires Calm(cfg, steps, s) && !s.live && s.consumer.Idle?
    ensures Calm(cfg, steps + [Resume], t) && Lined(t, s.main) && t.h.runs == s.h.runs
  {
    CalmSnoc(cfg, steps, s, Resume);
    t := Next(cfg, s, Resume).value;
  }

  function Last(ms: seq<Message>): nat
    requires ms != []
  {
    ms[|ms| - 1].id
  }

  /** One round: the line gets shorter by its first, and the last is called once more. */
  lemma OneRound(cfg: Config, steps: seq<Step>, s: State, ms: seq<Message>) returns (more: seq<Step>, t: State)
    requires Calm(cfg, steps, s) && DoubleAcks(cfg) && Lined(s, ms) && |ms| >= 2 && AllWanted(cfg, ms)
    ensures Calm(cfg, steps + more, t) && Lined(t, ms[1..])
    ensures t.h.runs[Last(ms)] >= s.h.runs[Last(ms)] + 1
  {
    hide Calm;
    var a, s1 := DeliverAll(cfg, steps, s);
    assert Messages(s1.buffer) == ms && ms[0] in ms;
    var b, s2 := FailFirst(cfg, steps + a, s1);
    assert Messages(s2.buffer) == ms[1..];
    var c, s3 := CallAllStale(cfg, steps + a + b, s2);
    t := Reconnect(cfg, steps + a + b + c, s3);
    more := a + b + c + [Resume];
    assert steps + more == steps + a + b + c + [Resume];
  }

  lemma LastCall(cfg: Config, steps: seq<Step>, s: State, m: Message) returns (more: seq<Step>, t: State)
    requires Calm(cfg, steps, s) && DoubleAcks(cfg) && Lined(s, [m]) && IsWanted(cfg, m)
    ensures Calm(cfg, steps + more, t) && t.h.runs[m.id] == s.h.runs[m.id] + 1
  {
    hide Calm;
    WantedVerdict(cfg, m);
    var s1 := DeliverOne(cfg, steps, s);
    assert Messages(s1.buffer)[0] == m;
    var s2 := TakeNext(cfg, steps + [Deliver], s1, Success);
    t := CallNext(cfg, steps + [Deliver] + [Receive(Success)], s2);
    more := [Deliver, Receive(Success), Act(true)];
    assert steps + more == steps + [Deliver] + [Receive(Success)] + [Act(true)];
  }

  lemma {:induction false} WorkOffTheLine(cfg: Config, steps: seq<Step>, s: State, ms: seq<Message>)
    returns (more: seq<Step>, t: State)
    requires Calm(cfg, steps, s) && DoubleAcks(cfg) && Lined(s, ms) && ms != [] && AllWanted(cfg, ms)
    ensures Calm(cfg, steps + more, t) && t.h.runs[Last(ms)] >= s.h.runs[Last(ms)] + |ms|
    decreases |ms|
  {
    hide Calm;
    if |ms| == 1 {
      assert ms == [ms[0]] && ms[0] in ms;
      more, t := LastCall(cfg, steps, s, ms[0]);
    } else {
      var first, u := OneRound(cfg, steps, s, ms);
      var rest;
      rest, t := WorkOffTheLine(cfg, steps + first, u, ms[1..]);
      more := first + rest;
      assert steps + more == steps + first + rest;
    }
  }

  /** Without a DLQ, n messages published in a row make the handler of the last run n times,
      without a lost connection and whatever the retries. */
  lemma CallsExceedAnyNumber(cfg: Config, n: nat) returns (steps: seq<Step>, s: State)
    requires Valid(cfg) && DoubleAcks(cfg) && n > 0
    ensures Run(cfg, steps, s) && NoLoss(steps) && s.h.runs[n - 1] >= n
  {
    var front, line := PublishLine(cfg, n);
    var more;
    more, s := WorkOffTheLine(cfg, front, line, Line(cfg, n));
    steps := front + more;
  }

  ghost predicate CallsStayWithin(cfg: Config) {
    forall steps: seq<Step>, s: State, id: nat :: Calm(cfg, steps, s) ==> s.h.runs[id] <= Allowance(cfg.q)
  }

  /** In every run without a lost connection no handler runs more often than the retries
      allow, exactly when the queue has a DLQ, has no retries to make, or has no consumer. */
  lemma CallsStayWithinExactlyWhen(cfg: Config)
    requires Valid(cfg)
    ensures CallsStayWithin(cfg) <==>
            cfg.q.withDLQ || (cfg.q.withRetry && cfg.q.retries <= 0) || !Served(cfg)
  {
    if cfg.q.withDLQ || Dormant(cfg) {
      forall steps: seq<Step>, s: State, id: nat | Calm(cfg, steps, s)
        ensures s.h.runs[id] <= Allowance(cfg.q)
      {
        NoLossKeepsTheAllowance(cfg, steps, s, id);
      }
    } else {
      var steps, s := CallsExceedAnyNumber(cfg, Allowance(cfg.q) + 1);
      assert Calm(cfg, steps, s) && s.h.runs[Allowance(cfg.q)] > Allowance(cfg.q);
    }
  }

  // Copies.

  lemma UnservedRepublishesNothing(cfg: Config, s: State)
    requires ConsumerInv(cfg, s) && !Served(cfg) && s.consumer.Busy?
    ensures s.consumer.v.Unmatched?
  {
    UnservedResolvesNothing(cfg, D.Extract(Seen(s.consumer.d.message)).metadata);
  }

  lemma StepMakesNoCopy(cfg: Config, s: State, step: Step)
    requires Valid(cfg) && Inv(cfg, s) && (!cfg.q.withDLQ || !Served(cfg)) && Next(cfg, s, step).Some?
    ensures Next(cfg, s, step).value.h.copies == s.h.copies
  {
    match step
    case Act(ok) =>
      if !Served(cfg) {
        UnservedRepublishesNothing(cfg, s);
      }
      ActStep(cfg, s, ok);
    case Expire => ExpireStep(cfg, s);
    case _ =>
  }

  lemma {:induction false} NothingToCopyTo(cfg: Config, steps: seq<Step>)
    requires Valid(cfg) && (!cfg.q.withDLQ || !Served(cfg)) && Reach(cfg, steps).Some?
    ensures Reach(cfg, steps).value.h.copies == multiset{}
  {
    if steps != [] {
      var n := |steps| - 1;
      NothingToCopyTo(cfg, steps[..n]);
      ReachableInv(cfg, steps[..n]);
      StepMakesNoCopy(cfg, Reach(cfg, steps[..n]).value, steps[n]);
    }
  }

  /** Every published message is in exactly one place, and no other message anywhere. */
  ghost predicate OneCopyEach(s: State) {
    forall id: nat :: Count(s, id) == if id in s.h.published then 1 else 0
  }

  /** Without a DLQ, without a consumer, or without a lost connection, there are no copies. */
  lemma OneCopyWithoutLoss(cfg: Config, steps: seq<Step>, s: State)
    requires Run(cfg, steps, s) && (!cfg.q.withDLQ || !Served(cfg) || NoLoss(steps))
    ensures s.h.copies == multiset{} && OneCopyEach(s)
  {
    if cfg.q.withDLQ && Served(cfg) {
      NoLossMeansNoCopies(cfg, steps);
    } else {
      NothingToCopyTo(cfg, steps);
    }
    forall id: nat
      ensures Count(s, id) == if id in s.h.published then 1 else 0
    {
      EveryMessageIsInOnePlace(cfg, steps, s, id);
    }
  }

  ghost predicate AlwaysOneCopyEach(cfg: Config) {
    forall steps: seq<Step>, s: State :: Run(cfg, steps, s) ==> OneCopyEach(s)
  }

  /** With lost connections too, messages stay single exactly when the queue has no DLQ or no
      consumer. */
  lemma OneCopyExactlyWhen(cfg: Config)
    requires Valid(cfg)
    ensures AlwaysOneCopyEach(cfg) <==> !cfg.q.withDLQ || !Served(cfg)
  {
    if !cfg.q.withDLQ || !Served(cfg) {
      forall steps: seq<Step>, s: State | Run(cfg, steps, s)
        ensures OneCopyEach(s)
      {
        OneCopyWithoutLoss(cfg, steps, s);
      }
    } else {
      var m := Wanted(cfg, 0);
      WantedIsServed(cfg, 0);
      var steps, s := StaleFailureLeavesTwoCopies(cfg, m);
      assert Run(cfg, steps, s) && Count(s, m.id) == 2;
    }
  }
}
