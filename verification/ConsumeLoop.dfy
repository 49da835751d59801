/** The consuming goroutines (dispatcher.go), one for each queue definition, interleaved with
    each other and with the shutdown of `ConsumeBlocking`. Each lock region is one step. */
module ConsumeLoop {
  import opened Common

  datatype Pc = Head | Getting | Starting | Recording | Looping | Clearing | Sleeping | Returned

  /** `late` counts the consumers each goroutine started after shutdown. */
  datatype State = State(consuming: bool, channels: set<string>, pcs: map<string, Pc>, late: map<string, nat>)

  datatype Step =
    | Shutdown
    | CheckConsuming(queue: string)
    | GetChannel(queue: string, ok: bool)
    | Consume(queue: string, ok: bool)
    | Record(queue: string)
    | Process(queue: string)
    | DeliveriesEnd(queue: string)
    | Clear(queue: string)
    | Wake(queue: string)

  function Start(queues: set<string>): State {
    State(true, {}, map q | q in queues :: Head, map q | q in queues :: 0)
  }

  ghost predicate Shaped(s: State) {
    s.pcs.Keys == s.late.Keys
  }

  function Move(s: State, q: string, pc: Pc): State {
    s.(pcs := s.pcs[q := pc])
  }

  predicate At(s: State, q: string, pc: Pc) {
    q in s.pcs && q in s.late && s.pcs[q] == pc
  }

  function Next(s: State, step: Step): Option<State> {
    match step
    case Shutdown => Some(s.(consuming := false))
    case CheckConsuming(q) =>
      if At(s, q, Head) then Some(Move(s, q, if s.consuming then Getting else Returned)) else None
    case GetChannel(q, ok) =>
      if At(s, q, Getting) then Some(Move(s, q, if ok then Starting else Sleeping)) else None
    case Consume(q, ok) =>
      if !At(s, q, Starting) then None
      else if !ok then Some(Move(s, q, Sleeping))
      else
        var late := if s.consuming then s.late else s.late[q := s.late[q] + 1];
        Some(Move(s, q, Recording).(late := late))
    case Record(q) =>
      if At(s, q, Recording) then Some(Move(s, q, Looping).(channels := s.channels + {q})) else None
    case Process(q) =>
      if At(s, q, Looping) then Some(s) else None
    case DeliveriesEnd(q) =>
      if At(s, q, Looping) then Some(Move(s, q, Clearing)) else None
    case Clear(q) =>
      if At(s, q, Clearing) then Some(Move(s, q, Sleeping).(channels := s.channels - {q})) else None
    case Wake(q) =>
      if At(s, q, Sleeping) then Some(Move(s, q, Head)) else None
  }

  function Reach(s: State, steps: seq<Step>): Option<State>
    decreases |steps|
  {
    if steps == [] then Some(s)
    else
      var before := Reach(s, steps[..|steps| - 1]);
      if before.None? then None else Next(before.value, steps[|steps| - 1])
  }

  ghost predicate QueueInv(s: State, q: string)
    requires q in s.pcs && q in s.late
  {
    var pc := s.pcs[q];
    && (q in s.channels <==> pc.Looping? || pc.Clearing?)
    && (s.consuming ==> s.late[q] == 0)
    && (pc.Returned? ==> !s.consuming)
    && s.late[q] + (if pc.Getting? || pc.Starting? then 1 else 0) <= 1
  }

  ghost predicate Inv(s: State) {
    && Shaped(s)
    && (forall q :: q in s.pcs ==> QueueInv(s, q))
    && s.channels <= s.pcs.Keys
  }

  lemma StepKeepsQueueInv(s: State, step: Step, q: string)
    requires Inv(s) && Next(s, step).Some? && q in s.pcs
    ensures q in Next(s, step).value.pcs && q in Next(s, step).value.late && QueueInv(Next(s, step).value, q)
  {
    assert QueueInv(s, q);
  }

  lemma StepKeepsInv(s: State, step: Step)
    requires Inv(s) && Next(s, step).Some?
    ensures Inv(Next(s, step).value)
    ensures Next(s, step).value.pcs.Keys == s.pcs.Keys
  {
    var t := Next(s, step).value;
    assert t.pcs.Keys == s.pcs.Keys && t.late.Keys == s.late.Keys && t.channels <= t.pcs.Keys;
    forall q | q in t.pcs
      ensures QueueInv(t, q)
    {
      StepKeepsQueueInv(s, step, q);
    }
  }

  lemma {:induction false} ReachableInv(queues: set<string>, steps: seq<Step>)
    requires Reach(Start(queues), steps).Some?
    ensures Inv(Reach(Start(queues), steps).value)
    ensures Reach(Start(queues), steps).value.pcs.Keys == queues
    decreases |steps|
  {
    if steps != [] {
      var n := |steps| - 1;
      ReachableInv(queues, steps[..n]);
      StepKeepsInv(Reach(Start(queues), steps[..n]).value, steps[n]);
    }
  }

  /** In every interleaving, a queue is listed in `consumeChannels` exactly while its
      goroutine is in its delivery loop or about to remove the entry. */
  lemma ListedExactlyWhileLooping(queues: set<string>, steps: seq<Step>, s: State, q: string)
    requires Reach(Start(queues), steps) == Some(s)
    ensures q in s.channels <==> q in s.pcs && (s.pcs[q].Looping? || s.pcs[q].Clearing?)
  {
    ReachableInv(queues, steps);
  }

  /** After shutdown each goroutine starts at most one further consumer. */
  lemma AtMostOneLateConsumer(queues: set<string>, steps: seq<Step>, s: State, q: string)
    requires Reach(Start(queues), steps) == Some(s) && q in queues
    ensures q in s.late && s.late[q] <= 1
    ensures s.consuming ==> s.late[q] == 0
  {
    ReachableInv(queues, steps);
  }

  lemma ReachSnoc(s: State, steps: seq<Step>, t: State, step: Step)
    requires Reach(s, steps) == Some(t)
    ensures Reach(s, steps + [step]) == Next(t, step)
  {
    assert (steps + [step])[..|steps|] == steps;
  }

  // Going on, and returning.

  /** While the dispatcher consumes, no goroutine has returned. */
  lemma NoneReturnsWhileConsuming(queues: set<string>, steps: seq<Step>, s: State, q: string)
    requires Reach(Start(queues), steps) == Some(s) && q in queues
    ensures q in s.pcs && (s.pcs[q] == Returned ==> !s.consuming)
  {
    ReachableInv(queues, steps);
  }

  /** A goroutine returns through its check alone, which finds the dispatcher shut down. */
  lemma ReturnsOnlyThroughItsCheck(s: State, step: Step, q: string)
    requires Next(s, step).Some? && q in s.pcs && s.pcs[q] != Returned
    requires q in Next(s, step).value.pcs && Next(s, step).value.pcs[q] == Returned
    ensures step == CheckConsuming(q) && !s.consuming && s.pcs[q] == Head
  {
  }

  /** A shutdown moves no goroutine, and a goroutine's step no other. */
  lemma OthersStayWhereTheyAre(s: State, step: Step, q: string)
    requires Next(s, step).Some? && q in s.pcs && q in s.late
    requires step.Shutdown? || step.queue != q
    ensures var t := Next(s, step).value;
            && q in t.pcs && t.pcs[q] == s.pcs[q] && q in t.late && t.late[q] == s.late[q]
            && (q in t.channels <==> q in s.channels)
  {
  }

  /** The step that brings a goroutine nearer to its delivery loop. */
  function Onward(pc: Pc, q: string): Step
    requires pc != Looping && pc != Returned
  {
    match pc
    case Head => CheckConsuming(q)
    case Getting => GetChannel(q, true)
    case Starting => Consume(q, true)
    case Recording => Record(q)
    case Clearing => Clear(q)
    case Sleeping => Wake(q)
  }

  /** The step that brings it nearer to its return. */
  function Homeward(pc: Pc, q: string): Step
    requires pc != Returned
  {
    match pc
    case Head => CheckConsuming(q)
    case Getting => GetChannel(q, false)
    case Starting => Consume(q, false)
    case Recording => Record(q)
    case Looping => DeliveriesEnd(q)
    case Clearing => Clear(q)
    case Sleeping => Wake(q)
  }

  function OnwardRank(pc: Pc): nat {
    match pc
    case Looping => 0
    case Recording => 1
    case Starting => 2
    case Getting => 3
    case Head => 4
    case Sleeping => 5
    case Clearing => 6
    case Returned => 7
  }

  function HomewardRank(pc: Pc): nat {
    match pc
    case Returned => 0
    case Head => 1
    case Sleeping => 2
    case Clearing => 3
    case Looping => 4
    case Recording => 5
    case Getting => 5
    case Starting => 5
  }

  ghost predicate NoShutdown(steps: seq<Step>) {
    forall x :: x in steps ==> x != Shutdown
  }

  lemma {:induction false} GoesOn(s0: State, before: seq<Step>, s: State, q: string)
    returns (more: seq<Step>, t: State)
    requires Reach(s0, before) == Some(s) && s.consuming && NoShutdown(before)
    requires q in s.pcs && q in s.late && s.pcs[q] != Returned
    ensures Reach(s0, more) == Some(t) && NoShutdown(more) && q in t.pcs && t.pcs[q] == Looping
    decreases OnwardRank(s.pcs[q])
  {
    if s.pcs[q] == Looping {
      more, t := before, s;
    } else {
      var step := Onward(s.pcs[q], q);
      ReachSnoc(s0, before, s, step);
      more, t := GoesOn(s0, before + [step], Next(s, step).value, q);
    }
  }

  lemma {:induction false} GoesHome(s0: State, before: seq<Step>, s: State, q: string)
    returns (more: seq<Step>, t: State)
    requires Reach(s0, before) == Some(s) && !s.consuming && q in s.pcs && q in s.late
    ensures Reach(s0, more) == Some(t) && q in t.pcs && t.pcs[q] == Returned
    decreases HomewardRank(s.pcs[q])
  {
    if s.pcs[q] == Returned {
      more, t := before, s;
    } else {
      var step := Homeward(s.pcs[q], q);
      ReachSnoc(s0, before, s, step);
      more, t := GoesHome(s0, before + [step], Next(s, step).value, q);
    }
  }

  /** Some continuation without a shutdown has the goroutine of `q` in its delivery loop. */
  ghost predicate CanConsume(s: State, q: string) {
    exists more: seq<Step>, t: State ::
      Reach(s, more) == Some(t) && NoShutdown(more) && q in t.pcs && t.pcs[q] == Looping
  }

  ghost predicate CanReturn(s: State, q: string) {
    exists more: seq<Step>, t: State ::
      Reach(s, more) == Some(t) && NoShutdown(more) && q in t.pcs && t.pcs[q] == Returned
  }

  lemma {:induction false} NoneReturnsWithoutShutdown(s: State, more: seq<Step>)
    requires Inv(s) && s.consuming && Reach(s, more).Some? && NoShutdown(more)
    ensures Inv(Reach(s, more).value) && Reach(s, more).value.consuming
    decreases |more|
  {
    if more != [] {
      var n := |more| - 1;
      assert more[n] in more && forall x :: x in more[..n] ==> x in more;
      NoneReturnsWithoutShutdown(s, more[..n]);
      StepKeepsInv(Reach(s, more[..n]).value, more[n]);
    }
  }

  /** In every reachable state, also after a closed delivery channel, a failed `GetChannel` or
      a failed `Consume`: while the dispatcher consumes, each goroutine can get to its delivery
      loop and none can return. */
  lemma ConsumingGoesOn(queues: set<string>, steps: seq<Step>, s: State, q: string)
    requires Reach(Start(queues), steps) == Some(s) && s.consuming && q in queues
    ensures CanConsume(s, q) && !CanReturn(s, q)
  {
    ReachableInv(queues, steps);
    assert Reach(s, []) == Some(s);
    var more, t := GoesOn(s, [], s, q);
    assert CanConsume(s, q);
    forall rest: seq<Step>, u: State | Reach(s, rest) == Some(u) && NoShutdown(rest) && q in u.pcs
      ensures u.pcs[q] != Returned
    {
      NoneReturnsWithoutShutdown(s, rest);
      assert QueueInv(u, q);
    }
  }

  /** After a shutdown each goroutine can return, wherever it was. */
  lemma ShutdownLetsEveryoneReturn(queues: set<string>, steps: seq<Step>, s: State, q: string)
    returns (more: seq<Step>, t: State)
    requires Reach(Start(queues), steps) == Some(s) && !s.consuming && q in queues
    ensures Reach(s, more) == Some(t) && q in t.pcs && t.pcs[q] == Returned
  {
    ReachableInv(queues, steps);
    assert Reach(s, []) == Some(s);
    more, t := GoesHome(s, [], s, q);
  }

  // Which goroutines start a consumer late.

  /** The goroutine has passed its check and not yet started the consumer. */
  predicate BetweenCheckAndStart(s: State, q: string) {
    q in s.pcs && (s.pcs[q].Getting? || s.pcs[q].Starting?)
  }

  lemma {:induction false} LateStartersHadPassed(s: State, more: seq<Step>, q: string)
    requires Inv(s) && !s.consuming && q in s.pcs && !BetweenCheckAndStart(s, q)
    requires Reach(s, more).Some?
    ensures var t := Reach(s, more).value;
            Inv(t) && !t.consuming && q in t.pcs && !BetweenCheckAndStart(t, q) && t.late[q] == s.late[q]
    decreases |more|
  {
    if more != [] {
      var n := |more| - 1;
      LateStartersHadPassed(s, more[..n], q);
      StepKeepsInv(Reach(s, more[..n]).value, more[n]);
    }
  }

  /** From between check and start, a goroutine can go on and start its consumer. */
  lemma PassedCanStart(s: State, q: string) returns (more: seq<Step>, t: State)
    requires Inv(s) && !s.consuming && BetweenCheckAndStart(s, q)
    ensures Reach(s, more) == Some(t) && q in t.late && t.late[q] > 0
  {
    more, t := [], s;
    assert Reach(s, []) == Some(s);
    if s.pcs[q].Getting? {
      ReachSnoc(s, more, t, GetChannel(q, true));
      more, t := more + [GetChannel(q, true)], Next(t, GetChannel(q, true)).value;
    }
    ReachSnoc(s, more, t, Consume(q, true));
    more, t := more + [Consume(q, true)], Next(t, Consume(q, true)).value;
  }

  /** Some continuation after a shutdown in state `s` starts a consumer for `q`. */
  ghost predicate MayStartLate(s: State, q: string) {
    exists more: seq<Step>, t: State ::
      Reach(Next(s, Shutdown).value, more) == Some(t) && q in t.late && t.late[q] > 0
  }

  /** A goroutine can start a consumer after shutdown exactly when shutdown finds it between
      its check and the start. */
  lemma LateConsumerExactlyWhen(queues: set<string>, steps: seq<Step>, s: State, q: string)
    requires Reach(Start(queues), steps) == Some(s) && s.consuming && q in queues
    ensures MayStartLate(s, q) <==> BetweenCheckAndStart(s, q)
  {
    ReachableInv(queues, steps);
    var s' := Next(s, Shutdown).value;
    StepKeepsInv(s, Shutdown);
    if BetweenCheckAndStart(s, q) {
      var more, t := PassedCanStart(s', q);
    } else {
      forall more: seq<Step>, t: State | Reach(s', more) == Some(t)
        ensures q in t.late && t.late[q] == 0
      {
        LateStartersHadPassed(s', more, q);
      }
    }
  }

  /** A run with a late consumer: shutdown between the check and the start. */
  lemma OneLateConsumerIsPossible(queues: set<string>, q: string) returns (steps: seq<Step>, s: State)
    requires q in queues
    ensures Reach(Start(queues), steps) == Some(s) && q in s.late && s.late[q] == 1
  {
    var s0 := Start(queues);
    steps := [CheckConsuming(q), Shutdown, GetChannel(q, true), Consume(q, true)];
    assert steps[..3] == [CheckConsuming(q), Shutdown, GetChannel(q, true)];
    assert steps[..3][..2] == [CheckConsuming(q), Shutdown];
    assert steps[..3][..2][..1] == [CheckConsuming(q)];
    assert [CheckConsuming(q)][..0] == [];
    var s1 := Next(s0, CheckConsuming(q)).value;
    var s2 := Next(s1, Shutdown).value;
    var s3 := Next(s2, GetChannel(q, true)).value;
    s := Next(s3, Consume(q, true)).value;
    assert Reach(s0, [CheckConsuming(q)]) == Some(s1);
    assert Reach(s0, steps[..3][..2]) == Some(s2);
    assert Reach(s0, steps[..3]) == Some(s3);
  }
}
