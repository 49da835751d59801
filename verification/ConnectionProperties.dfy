/** What holds in every interleaving of the monitor goroutine with user calls and dying
    connections. */
module ConnectionProperties {
  import opened Common
  import opened Backoff
  import opened Connections

  predicate InRound(pc: Pc) {
    pc.Checking? || pc.Waiting? || pc.Connecting? || pc.Reopening? || pc.Declaring? || pc.Closing? || pc.Reclosing?
  }

  /** Waiting for the next connect, connecting, or about to reset `closed`. */
  predicate Reconnecting(pc: Pc) {
    pc.Checking? || pc.Waiting? || pc.Connecting? || pc.Reopening?
  }

  /** Steps of a round still possible, with attempts limited to `n`. */
  function Rank(n: int, pc: Pc): int
    requires InRound(pc)
  {
    7 * (n - pc.r.attempt)
    + match pc
      case Checking(_) => 1
      case Waiting(_) => 7
      case Connecting(_) => 6
      case Reopening(_) => 5
      case Declaring(_) => 4
      case Closing(_) => 3
      case Reclosing(_) => 2
  }

  ghost predicate RoundInv(cfg: Config, pc: Pc) {
    InRound(pc) ==>
      var r := pc.r;
      && r.delay == Delay(cfg.initialDelay, cfg.backoffMax, r.failures)
      && r.failures <= r.connects
      && r.attempt == r.connects + (if pc.Waiting? || pc.Connecting? then 1 else 0)
      && (cfg.maxAttempts > 0 ==> r.attempt <= cfg.maxAttempts && r.steps + Rank(cfg.maxAttempts, pc) <= 7 * cfg.maxAttempts + 2)
  }

  ghost predicate ClosedInv(s: State) {
    var c := s.core;
    && (c.cancelled ==> c.closed && !c.connOpen && !c.chOpen)
    && (Reconnecting(s.pc) ==> c.closed)
    && (s.pc.Waiting? || s.pc.Connecting? || s.pc.Reopening? ==> !c.cancelled)
    && (s.pc.Declaring? || s.pc.Closing? || s.pc.Reclosing? ==> c.closed ==> c.cancelled)
    && (s.pc.Stopped? ==> c.cancelled)
  }

  /** Between rounds, the last return says in what state the manager was left. */
  ghost predicate ReturnInv(s: State) {
    var c := s.core;
    !InRound(s.pc) ==>
      && (s.last.GaveUp? ==> c.closed && !c.cancelled)
      && (s.last.SawCancel? ==> c.cancelled)
      && (!s.last.GaveUp? ==> c.closed ==> c.cancelled)
      && (s.last.WithTopology? ==> c.declared == Some(c.conn))
  }

  ghost predicate Inv(cfg: Config, s: State) {
    RoundInv(cfg, s.pc) && ClosedInv(s) && ReturnInv(s)
  }

  lemma StepKeepsRoundInv(cfg: Config, s: State, step: Step)
    requires RoundInv(cfg, s.pc) && Next(cfg, s, step).Some?
    ensures RoundInv(cfg, Next(cfg, s, step).value.pc)
  {
  }

  lemma StepKeepsClosedInv(cfg: Config, s: State, step: Step)
    requires ClosedInv(s) && Next(cfg, s, step).Some?
    ensures ClosedInv(Next(cfg, s, step).value)
  {
  }

  lemma StepKeepsReturnInv(cfg: Config, s: State, step: Step)
    requires ClosedInv(s) && ReturnInv(s) && Next(cfg, s, step).Some?
    ensures ReturnInv(Next(cfg, s, step).value)
  {
  }

  lemma StepKeepsInv(cfg: Config, s: State, step: Step)
    requires Inv(cfg, s) && Next(cfg, s, step).Some?
    ensures Inv(cfg, Next(cfg, s, step).value)
  {
    hide Next, RoundInv, ClosedInv, ReturnInv;
    StepKeepsRoundInv(cfg, s, step);
    StepKeepsClosedInv(cfg, s, step);
    StepKeepsReturnInv(cfg, s, step);
  }

  lemma {:induction false} RunKeepsInv(cfg: Config, s: State, steps: seq<Step>)
    requires Inv(cfg, s) && Reach(cfg, s, steps).Some?
    ensures Inv(cfg, Reach(cfg, s, steps).value)
    decreases |steps|
  {
    if steps != [] {
      var n := |steps| - 1;
      RunKeepsInv(cfg, s, steps[..n]);
      StepKeepsInv(cfg, Reach(cfg, s, steps[..n]).value, steps[n]);
    }
  }

  /** A run from the moment the constructor returns. */
  ghost predicate Run(cfg: Config, steps: seq<Step>, s: State) {
    Reach(cfg, Start(), steps) == Some(s)
  }

  lemma RunHasInv(cfg: Config, steps: seq<Step>, s: State)
    requires Run(cfg, steps, s)
    ensures Inv(cfg, s)
  {
    RunKeepsInv(cfg, Start(), steps);
  }

  // Close.

  lemma CancelledStepInstallsNothing(cfg: Config, s: State, step: Step)
    requires Inv(cfg, s) && s.core.cancelled && Next(cfg, s, step).Some?
    ensures var c := Next(cfg, s, step).value.core;
            && c.closed && c.cancelled && !c.connOpen && !c.chOpen
            && c.conn == s.core.conn && c.ch == s.core.ch && c.links == s.core.links
  {
  }

  lemma {:induction false} CancelledIsForEver(cfg: Config, s: State, more: seq<Step>)
    requires Inv(cfg, s) && s.core.cancelled && Reach(cfg, s, more).Some?
    ensures var c := Reach(cfg, s, more).value.core;
            && c.closed && c.cancelled && !c.connOpen && !c.chOpen
            && c.conn == s.core.conn && c.ch == s.core.ch && c.links == s.core.links
    decreases |more|
  {
    if more != [] {
      var n := |more| - 1;
      CancelledIsForEver(cfg, s, more[..n]);
      RunKeepsInv(cfg, s, more[..n]);
      CancelledStepInstallsNothing(cfg, Reach(cfg, s, more[..n]).value, more[n]);
    }
  }

  /** Once a `Close` that finds the manager open has run, whatever the monitor was doing, the
      manager stays closed and no connection or channel is ever opened or installed again. */
  lemma EffectiveCloseIsFinal(cfg: Config, steps: seq<Step>, s: State, more: seq<Step>, t: State)
    requires Run(cfg, steps, s) && !s.core.closed
    requires Reach(cfg, s.(core := Closed(s.core)), more) == Some(t)
    ensures t.core.closed && t.core.cancelled && !t.core.connOpen && !t.core.chOpen
    ensures t.core.conn == s.core.conn && t.core.ch == s.core.ch && t.core.links == s.core.links
  {
    RunHasInv(cfg, steps, s);
    StepKeepsInv(cfg, s, User(Close));
    CancelledIsForEver(cfg, s.(core := Closed(s.core)), more);
  }

  /** A `Close` is effective exactly when it finds the manager open; otherwise it changes
      nothing. It finds the manager closed but not stopped exactly when a round is under way
      short of its reset, or when the last round gave up. */
  lemma CloseIsEffectiveExactlyWhenOpen(cfg: Config, steps: seq<Step>, s: State)
    requires Run(cfg, steps, s)
    ensures Closed(s.core).cancelled && !s.core.cancelled <==> !s.core.closed
    ensures s.core.closed ==> Closed(s.core) == s.core
    ensures s.core.closed && !s.core.cancelled <==>
            !s.core.cancelled && (Reconnecting(s.pc) || (!InRound(s.pc) && s.last.GaveUp?))
  {
    RunHasInv(cfg, steps, s);
  }

  /** A `Close` called while the monitor reconnects is forgotten: it returns, and the manager
      opens again on a new connection. */
  lemma CloseDuringReconnectIsForgotten(cfg: Config) returns (steps: seq<Step>, s: State)
    ensures Run(cfg, steps, s) && User(Close) in steps
    ensures s.pc == Selecting && !s.core.closed && !s.core.cancelled && s.core.conn != Start().core.conn
  {
    var s0 := Start();
    var s1 := s0.(pc := ConnectionFailure);
    ReachNothing(cfg, s0);
    ReachSnoc(cfg, s0, [], s0, SeeConnectionClosed(true));
    var s2 := Next(cfg, s1, Begin).value;
    ReachSnoc(cfg, s0, [SeeConnectionClosed(true)], s1, Begin);
    steps := [SeeConnectionClosed(true)] + [Begin];
    ReachSnoc(cfg, s0, steps, s2, User(Close));
    steps := steps + [User(Close)];
    var s3 := Next(cfg, s2, Check).value;
    ReachSnoc(cfg, s0, steps, s2, Check);
    steps := steps + [Check];
    s := FinishRound(cfg, steps, s3);
    steps := steps + [WaitEnds] + [Connect(true)] + [Reopen] + [Declare(true)];
  }

  lemma FinishRound(cfg: Config, steps: seq<Step>, s: State) returns (t: State)
    requires Run(cfg, steps, s) && s.pc.Waiting? && s.core == Start().core.(closed := true)
    ensures Run(cfg, steps + [WaitEnds] + [Connect(true)] + [Reopen] + [Declare(true)], t)
    ensures t.pc == Selecting && !t.core.closed && !t.core.cancelled && t.core.conn != Start().core.conn
  {
    hide Reach;
    var s1 := Next(cfg, s, WaitEnds).value;
    ReachSnoc(cfg, Start(), steps, s, WaitEnds);
    var s2 := Next(cfg, s1, Connect(true)).value;
    ReachSnoc(cfg, Start(), steps + [WaitEnds], s1, Connect(true));
    var s3 := Next(cfg, s2, Reopen).value;
    ReachSnoc(cfg, Start(), steps + [WaitEnds] + [Connect(true)], s2, Reopen);
    t := Next(cfg, s3, Declare(true)).value;
    ReachSnoc(cfg, Start(), steps + [WaitEnds] + [Connect(true)] + [Reopen], s3, Declare(true));
  }

  /** The cancellation branch of the wait between attempts can never be taken. */
  lemma WaitIsNeverCancelled(cfg: Config, steps: seq<Step>, s: State)
    requires Run(cfg, steps, s)
    ensures Next(cfg, s, WaitIsCancelled).None?
  {
    RunHasInv(cfg, steps, s);
  }

  /** After giving up, the manager is closed for its users, `Close` does nothing, and the
      monitor goroutine cannot stop. */
  lemma GivingUpCannotBeClosed(cfg: Config, steps: seq<Step>, s: State)
    requires Run(cfg, steps, s) && s.pc == Selecting && s.last == GaveUp
    ensures s.core.closed && Closed(s.core) == s.core && Next(cfg, s, SeeDone).None?
  {
    RunHasInv(cfg, steps, s);
  }

  // Reconnecting.

  /** While the manager waits or connects, every getter fails. */
  lemma GettersFailWhileReconnecting(cfg: Config, steps: seq<Step>, s: State, answer: Option<nat>)
    requires Run(cfg, steps, s) && Reconnecting(s.pc)
    ensures ConnectionOf(s.core).1.Some? && ChannelOf(s.core).1.Some? && QosFailure(s.core, answer).Some?
    ensures !Healthy(s.core)
  {
    RunHasInv(cfg, steps, s);
  }

  /** With a limit N, one call of the handler makes at most N connects, topology failures
      included, and at most 7 N + 2 steps: it ends, whatever users do meanwhile. */
  lemma RoundsAreBounded(cfg: Config, steps: seq<Step>, s: State)
    requires Run(cfg, steps, s) && cfg.maxAttempts > 0 && InRound(s.pc)
    ensures s.pc.r.connects <= cfg.maxAttempts
    ensures s.pc.r.steps <= 7 * cfg.maxAttempts + 2
  {
    RunHasInv(cfg, steps, s);
  }

  /** In a round the monitor always has a next step. */
  lemma RoundsGoOn(cfg: Config, s: State, ok: bool)
    requires InRound(s.pc)
    ensures exists step: Step :: !step.User? && Next(cfg, s, step).Some?
  {
    var step := match s.pc
      case Checking(_) => Check
      case Waiting(_) => WaitEnds
      case Connecting(_) => Connect(ok)
      case Reopening(_) => Reopen
      case Declaring(_) => Declare(ok)
      case Closing(_) => CloseConnection(ok)
      case _ => Reclose;
    assert Next(cfg, s, step).Some?;
  }

  /** The delay in a round is that of its failed connects alone: a topology failure repeats
      the delay. */
  lemma DelayFollowsFailedConnects(cfg: Config, steps: seq<Step>, s: State)
    requires Run(cfg, steps, s) && InRound(s.pc)
    ensures s.pc.r.delay == Delay(cfg.initialDelay, cfg.backoffMax, s.pc.r.failures)
    ensures s.pc.r.failures <= s.pc.r.connects
    ensures cfg.initialDelay <= cfg.backoffMax ==>
              s.pc.r.delay == Min(Uncapped(cfg.initialDelay, s.pc.r.failures), cfg.backoffMax)
    ensures cfg.backoffFactor == 1.5 ==>
              s.pc.r.delay == DelayBy(cfg.backoffFactor, cfg.initialDelay, cfg.backoffMax, s.pc.r.failures)
  {
    RunHasInv(cfg, steps, s);
    FactorOfOneAndAHalf(cfg.initialDelay, cfg.backoffMax, s.pc.r.failures);
    if cfg.initialDelay <= cfg.backoffMax {
      CappedGrowthAt(cfg.initialDelay, cfg.backoffMax, s.pc.r.failures);
    }
  }

  /** Between rounds the manager is open unless it was closed for good or gave up; and if it
      returned open from a round, the topology was declared in full on the connection in
      use, there was none, or closing the connection failed. */
  lemma BackOpenOnlyWhen(cfg: Config, steps: seq<Step>, s: State)
    requires Run(cfg, steps, s) && s.pc == Selecting
    ensures s.core.closed <==> s.core.cancelled || s.last.GaveUp?
    ensures !s.core.closed ==>
              || s.last == NotYet
              || (s.last == WithTopology && s.core.declared == Some(s.core.conn))
              || s.last == WithoutTopology
              || s.last == CloseFailed
  {
    RunHasInv(cfg, steps, s);
  }

  // Rounds of failed connects: giving up, and the factor that is not read.

  /** One failed connect. */
  lemma FailedConnect(cfg: Config, steps: seq<Step>, s: State) returns (t: State)
    requires Run(cfg, steps, s) && s.pc.Checking? && !s.core.cancelled && !Exhausted(cfg, s.pc.r.attempt + 1)
    ensures Run(cfg, steps + [Check] + [WaitEnds] + [Connect(false)], t)
    ensures t.pc.Checking? && t.core == s.core
    ensures t.pc.r.attempt == s.pc.r.attempt + 1 && t.pc.r.failures == s.pc.r.failures + 1
  {
    hide Reach;
    var s1 := Next(cfg, s, Check).value;
    ReachSnoc(cfg, Start(), steps, s, Check);
    var s2 := Next(cfg, s1, WaitEnds).value;
    ReachSnoc(cfg, Start(), steps + [Check], s1, WaitEnds);
    t := Next(cfg, s2, Connect(false)).value;
    ReachSnoc(cfg, Start(), steps + [Check] + [WaitEnds], s2, Connect(false));
  }

  lemma {:induction false} FailedConnects(cfg: Config, k: nat) returns (steps: seq<Step>, s: State)
    requires cfg.maxAttempts <= 0 || k <= cfg.maxAttempts
    ensures Run(cfg, steps, s) && s.pc.Checking? && !s.core.cancelled
    ensures s.pc.r.attempt == s.pc.r.failures == k
  {
    if k == 0 {
      var s1 := Start().(pc := ConnectionFailure);
      ReachNothing(cfg, Start());
      ReachSnoc(cfg, Start(), [], Start(), SeeConnectionClosed(true));
      ReachSnoc(cfg, Start(), [] + [SeeConnectionClosed(true)], s1, Begin);
      steps, s := [] + [SeeConnectionClosed(true)] + [Begin], Next(cfg, s1, Begin).value;
    } else {
      steps, s := FailedConnects(cfg, k - 1);
      var t := FailedConnect(cfg, steps, s);
      steps, s := steps + [Check] + [WaitEnds] + [Connect(false)], t;
    }
  }

  lemma {:induction false} GaveUpIsLimited(cfg: Config, s: State, steps: seq<Step>)
    requires Reach(cfg, s, steps).Some? && (s.last.GaveUp? ==> cfg.maxAttempts > 0)
    ensures Reach(cfg, s, steps).value.last.GaveUp? ==> cfg.maxAttempts > 0
    decreases |steps|
  {
    if steps != [] {
      GaveUpIsLimited(cfg, s, steps[..|steps| - 1]);
    }
  }

  ghost predicate MayGiveUp(cfg: Config) {
    exists steps: seq<Step>, s: State :: Run(cfg, steps, s) && s.pc.Selecting? && s.last.GaveUp?
  }

  /** Some run gives up, and leaves a manager that cannot be closed, exactly when the attempts
      are limited. */
  lemma GivesUpExactlyWhenLimited(cfg: Config)
    ensures MayGiveUp(cfg) <==> cfg.maxAttempts > 0
  {
    if cfg.maxAttempts > 0 {
      var steps, s := FailedConnects(cfg, cfg.maxAttempts);
      ReachSnoc(cfg, Start(), steps, s, Check);
      assert Run(cfg, steps + [Check], Next(cfg, s, Check).value);
    } else {
      forall steps: seq<Step>, s: State | Run(cfg, steps, s)
        ensures !s.last.GaveUp?
      {
        GaveUpIsLimited(cfg, Start(), steps);
      }
    }
  }

  /** The configured factor plays no part in any run. */
  lemma {:induction false} FactorIsNeverRead(cfg: Config, f: real, s: State, steps: seq<Step>)
    ensures Reach(cfg.(backoffFactor := f), s, steps) == Reach(cfg, s, steps)
    decreases |steps|
  {
    if steps != [] {
      FactorIsNeverRead(cfg, f, s, steps[..|steps| - 1]);
    }
  }

  /** In every run without a limit on attempts, and under every cap, the delay is that of the
      configured factor. */
  ghost predicate RunsObey(f: real, initial: int) {
    forall cap: int, steps: seq<Step>, s: State ::
      initial <= cap && Run(Config(0, initial, cap, f), steps, s) && InRound(s.pc) ==>
        s.pc.r.delay == DelayBy(f, initial, cap, s.pc.r.failures)
  }

  /** Runs keep to the configured factor exactly when it is 1.5 or the initial delay is one
      that does not grow anyway. */
  lemma RunsObeyTheFactorExactlyWhen(f: real, initial: int)
    ensures RunsObey(f, initial) <==> f == 1.5 || Stuck(f, initial)
  {
    FactorIsObeyedExactlyWhen(f, initial);
    if Obeyed(f, initial) {
      forall cap: int, steps: seq<Step>, s: State |
        initial <= cap && Run(Config(0, initial, cap, f), steps, s) && InRound(s.pc)
        ensures s.pc.r.delay == DelayBy(f, initial, cap, s.pc.r.failures)
      {
        DelayFollowsFailedConnects(Config(0, initial, cap, f), steps, s);
      }
    } else {
      var cap: int, k: nat :| initial <= cap && DelayBy(f, initial, cap, k) != Delay(initial, cap, k);
      var cfg := Config(0, initial, cap, f);
      var steps, s := FailedConnects(cfg, k);
      DelayFollowsFailedConnects(cfg, steps, s);
    }
  }

  // Getters, and the connections and channels they hand out.

  /** On any manager: a getter hands out the installed link, if the manager and the link are
      open, and otherwise says which of them is not; healthy means that both getters work. */
  lemma GettersHandOutWhatIsOpen(c: Core, answer: Option<nat>)
    ensures c.closed ==>
              && ConnectionOf(c).1 == Some(ManagerClosed) && ChannelOf(c).1 == Some(ManagerClosed)
              && QosFailure(c, answer) == Some(ManagerClosed)
    ensures !c.closed ==>
              && (ConnectionOf(c) == if c.connOpen then (c.conn, None) else (0, Some(NotAvailable)))
              && (ChannelOf(c) == if c.chOpen then (c.ch, None) else (0, Some(NotAvailable)))
              && (!c.chOpen ==> QosFailure(c, answer) == Some(NotAvailable))
              && (c.chOpen && answer.Some? ==> QosFailure(c, answer) == Some(ChannelError(answer.value)))
              && (c.chOpen && answer.None? ==> QosFailure(c, answer) == None)
    ensures Healthy(c) <==> ConnectionOf(c).1 == None && ChannelOf(c).1 == None
  {
  }

  /** No link is installed before it was opened. */
  ghost predicate LinksInv(c: Core) {
    c.conn < c.links && c.ch < c.links
  }

  lemma StepKeepsLinks(cfg: Config, s: State, step: Step)
    requires LinksInv(s.core) && Next(cfg, s, step).Some?
    ensures LinksInv(Next(cfg, s, step).value.core)
  {
  }

  lemma {:induction false} RunKeepsLinks(cfg: Config, s: State, steps: seq<Step>)
    requires LinksInv(s.core) && Reach(cfg, s, steps).Some?
    ensures LinksInv(Reach(cfg, s, steps).value.core)
    decreases |steps|
  {
    hide Next, LinksInv;
    if steps != [] {
      var n := |steps| - 1;
      RunKeepsLinks(cfg, s, steps[..n]);
      StepKeepsLinks(cfg, Reach(cfg, s, steps[..n]).value, steps[n]);
    }
  }

  /** A step that changes the connection or channel installs new, open ones: a connection with
      its channel, or a channel on the connection in use. */
  lemma InstalledLinksAreNew(cfg: Config, steps: seq<Step>, s: State, step: Step)
    requires Run(cfg, steps, s) && Next(cfg, s, step).Some?
    ensures var b, c := s.core, Next(cfg, s, step).value.core;
            && (c.ch != b.ch ==> c.chOpen && c.ch >= b.links > b.ch)
            && (c.conn != b.conn ==> c.connOpen && c.conn >= b.links > b.conn && c.ch != b.ch)
            && (c.chOpen && !b.chOpen ==> c.ch != b.ch)
            && (c.connOpen && !b.connOpen ==> c.conn != b.conn)
  {
    RunKeepsLinks(cfg, Start(), steps);
  }

  /** A failed channel, on an open manager with a live connection, is replaced: the new channel
      is the one handed out, and the connection stays. If the connection is dead or opening the
      channel fails, nothing changes and a reconnect follows. On a closed manager nothing
      happens. */
  lemma ChannelIsReplaced(cfg: Config, steps: seq<Step>, s: State, ok: bool)
    requires Run(cfg, steps, s) && s.pc == ChannelFailure
    ensures Next(cfg, s, RecreateChannel(ok)).Some?
    ensures var t, c := Next(cfg, s, RecreateChannel(ok)).value, s.core;
            if c.closed then t == s.(pc := Selecting)
            else if !c.connOpen || !ok then t == s.(pc := ConnectionFailure)
            else && t.pc == Selecting && t.last == s.last
                 && t.core.chOpen && t.core.ch == c.links != c.ch && t.core.conn == c.conn
                 && Healthy(t.core) && ChannelOf(t.core) == (c.links, None)
                 && ConnectionOf(t.core) == (c.conn, None)
  {
    RunKeepsLinks(cfg, Start(), steps);
  }

  /** The whole repair of a channel that died or whose consumer was cancelled, as it runs when
      nothing else happens. */
  lemma DeadChannelIsRepaired(cfg: Config, steps: seq<Step>, s: State, notice: Step) returns (t: State)
    requires Run(cfg, steps, s) && s.pc == Selecting && !s.core.closed && s.core.connOpen
    requires notice == SeeChannelClosed(true) || notice == SeeConsumerCancelled
    ensures Run(cfg, steps + [notice] + [RecreateChannel(true)], t)
    ensures t.pc == Selecting && Healthy(t.core) && t.core.conn == s.core.conn && t.core.ch != s.core.ch
  {
    hide Reach;
    var s1 := s.(pc := ChannelFailure);
    ReachSnoc(cfg, Start(), steps, s, notice);
    t := Next(cfg, s1, RecreateChannel(true)).value;
    ReachSnoc(cfg, Start(), steps + [notice], s1, RecreateChannel(true));
    ChannelIsReplaced(cfg, steps + [notice], s1, true);
  }

  /** The whole repair of a connection that died: on a new connection and a new channel. */
  lemma DeadConnectionIsRepaired(cfg: Config, steps: seq<Step>, s: State) returns (t: State)
    requires Run(cfg, steps, s) && s.pc == Selecting && !s.core.closed
    ensures Run(cfg, steps + [SeeConnectionClosed(true)] + [Begin] + [Check] + [WaitEnds] + [Connect(true)]
                     + [Reopen] + [Declare(true)], t)
    ensures t.pc == Selecting && Healthy(t.core) && t.core.conn != s.core.conn && t.core.ch != s.core.ch
    ensures s.core.topology ==> t.last == WithTopology && t.core.declared == Some(t.core.conn)
  {
    hide Reach;
    RunHasInv(cfg, steps, s);
    RunHasLinks(cfg, steps, s);
    var s1 := Next(cfg, s, SeeConnectionClosed(true)).value;
    ReachSnoc(cfg, Start(), steps, s, SeeConnectionClosed(true));
    var before := steps + [SeeConnectionClosed(true)];
    var s2 := Next(cfg, s1, Begin).value;
    ReachSnoc(cfg, Start(), before, s1, Begin);
    var s3 := Next(cfg, s2, Check).value;
    ReachSnoc(cfg, Start(), before + [Begin], s2, Check);
    t := Reconnected(cfg, before + [Begin] + [Check], s3);
  }

  lemma RunHasLinks(cfg: Config, steps: seq<Step>, s: State)
    requires Run(cfg, steps, s)
    ensures LinksInv(s.core)
  {
    RunKeepsLinks(cfg, Start(), steps);
  }

  lemma Reconnected(cfg: Config, steps: seq<Step>, s: State) returns (t: State)
    requires Run(cfg, steps, s) && s.pc.Waiting? && LinksInv(s.core)
    ensures Run(cfg, steps + [WaitEnds] + [Connect(true)] + [Reopen] + [Declare(true)], t)
    ensures t.pc == Selecting && Healthy(t.core)
    ensures t.core.conn == s.core.links != s.core.conn && t.core.ch == s.core.links + 1 != s.core.ch
    ensures s.core.topology ==> t.last == WithTopology && t.core.declared == Some(t.core.conn)
    ensures !s.core.topology ==> t.last == WithoutTopology
  {
    hide Reach;
    var s1 := Next(cfg, s, WaitEnds).value;
    ReachSnoc(cfg, Start(), steps, s, WaitEnds);
    var s2 := Next(cfg, s1, Connect(true)).value;
    ReachSnoc(cfg, Start(), steps + [WaitEnds], s1, Connect(true));
    var s3 := Next(cfg, s2, Reopen).value;
    ReachSnoc(cfg, Start(), steps + [WaitEnds] + [Connect(true)], s2, Reopen);
    t := Next(cfg, s3, Declare(true)).value;
    ReachSnoc(cfg, Start(), steps + [WaitEnds] + [Connect(true)] + [Reopen], s3, Declare(true));
  }

  /** A topology that fails after a reconnect closes the connection and the manager, and the
      round goes on with its attempts and delay as they are; if even the close fails, the round
      ends with the manager left open. */
  lemma FailedTopologyTriesAgain(cfg: Config, steps: seq<Step>, s: State, closes: bool) returns (t: State)
    requires Run(cfg, steps, s) && s.pc.Declaring? && s.core.topology
    ensures Run(cfg, steps + [Declare(false)] + [CloseConnection(closes)] + (if closes then [Reclose] else []), t)
    ensures closes ==>
              && t.pc.Checking? && t.core == s.core.(closed := true, connOpen := false, chOpen := false)
              && t.pc.r == s.pc.r.(steps := t.pc.r.steps)
    ensures !closes ==> t == s.(pc := Selecting, last := CloseFailed)
  {
    hide Reach;
    var s1 := Next(cfg, s, Declare(false)).value;
    ReachSnoc(cfg, Start(), steps, s, Declare(false));
    var s2 := Next(cfg, s1, CloseConnection(closes)).value;
    ReachSnoc(cfg, Start(), steps + [Declare(false)], s1, CloseConnection(closes));
    if closes {
      t := Next(cfg, s2, Reclose).value;
      ReachSnoc(cfg, Start(), steps + [Declare(false)] + [CloseConnection(closes)], s2, Reclose);
    } else {
      t := s2;
      assert steps + [Declare(false)] + [CloseConnection(closes)] + [] == steps + [Declare(false)] + [CloseConnection(closes)];
    }
  }

  /** A round gives up exactly when it has made all the connects that the limit allows and was
      not cancelled. */
  lemma GivesUpAfterTheLastConnect(cfg: Config, steps: seq<Step>, s: State)
    requires Run(cfg, steps, s) && s.pc.Checking?
    ensures var t := Next(cfg, s, Check);
            && t.Some?
            && (t.value.pc == Selecting && t.value.last == GaveUp <==>
                !s.core.cancelled && cfg.maxAttempts > 0 && s.pc.r.connects == cfg.maxAttempts)
            && (t.value.pc.Waiting? <==>
                !s.core.cancelled && (cfg.maxAttempts <= 0 || s.pc.r.connects < cfg.maxAttempts))
  {
    RunHasInv(cfg, steps, s);
  }

  /** Notices without an error are passed over: they come from closing on purpose. */
  lemma PlannedClosesAreIgnored(cfg: Config, s: State)
    requires s.pc == Selecting
    ensures Next(cfg, s, SeeConnectionClosed(false)) == Some(s) && Next(cfg, s, SeeChannelClosed(false)) == Some(s)
  {
  }

  // Stopping.

  function HaltRank(pc: Pc): nat {
    match pc
    case Stopped => 0
    case Selecting => 1
    case Checking(_) => 2
    case Reclosing(_) => 3
    case Closing(_) => 3
    case Declaring(_) => 3
    case ConnectionFailure => 3
    case ChannelFailure => 4
    case Waiting(_) => 5
    case Connecting(_) => 5
    case Reopening(_) => 5
  }

  /** The monitor's next step on the way to its end. */
  function Halting(pc: Pc): Step
    requires pc != Stopped && !pc.Waiting? && !pc.Connecting? && !pc.Reopening?
  {
    match pc
    case Selecting => SeeDone
    case ChannelFailure => RecreateChannel(false)
    case ConnectionFailure => Begin
    case Checking(_) => Check
    case Declaring(_) => Declare(true)
    case Closing(_) => CloseConnection(false)
    case Reclosing(_) => Reclose
  }

  /** After an effective `Close`, wherever the monitor was, it can come to its end by its own
      steps; and it ends in no other way. */
  lemma {:induction false} ClosedMonitorCanStop(cfg: Config, steps: seq<Step>, s: State)
    returns (more: seq<Step>, t: State)
    requires Run(cfg, steps, s) && s.core.cancelled
    ensures Run(cfg, steps + more, t) && t.pc == Stopped && forall x :: x in more ==> !x.User?
    decreases HaltRank(s.pc)
  {
    RunHasInv(cfg, steps, s);
    if s.pc == Stopped {
      more, t := [], s;
      assert steps + [] == steps;
    } else {
      var step := Halting(s.pc);
      ReachSnoc(cfg, Start(), steps, s, step);
      var rest;
      rest, t := ClosedMonitorCanStop(cfg, steps + [step], Next(cfg, s, step).value);
      more := [step] + rest;
      assert steps + more == steps + [step] + rest;
    }
  }

  lemma StopsOnlyWhenClosed(cfg: Config, steps: seq<Step>, s: State)
    requires Run(cfg, steps, s) && s.pc == Stopped
    ensures s.core.closed && s.core.cancelled && forall step: Step :: !step.User? ==> Next(cfg, s, step).None?
  {
    RunHasInv(cfg, steps, s);
  }
}
