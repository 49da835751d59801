/** The connection manager (connection_manager.go). `Core` is what the mutex protects; each
    function on it is one lock-protected region or one read. `Next` interleaves the monitor
    goroutine, one region at a time, with user calls and dying connections. The class has the
    regions as methods and the reconnect loop as a loop. */
module Connections {
  import opened Common
  import opened Backoff

  datatype Config = Config(maxAttempts: int, initialDelay: int, backoffMax: int, backoffFactor: real)

  /** Connections and channels are told apart by the number of links opened before them.
      `declared` is the connection on which the topology was last declared in full. */
  datatype Core = Core(
    closed: bool, cancelled: bool, conn: nat, connOpen: bool, ch: nat, chOpen: bool,
    topology: bool, links: nat, declared: Option<nat>)

  datatype Failure = ManagerClosed | NotAvailable | ChannelError(code: nat)

  // Reads.

  function ConnectionOf(c: Core): (nat, Option<Failure>) {
    if c.closed then (0, Some(ManagerClosed))
    else if !c.connOpen then (0, Some(NotAvailable))
    else (c.conn, None)
  }

  function ChannelOf(c: Core): (nat, Option<Failure>) {
    if c.closed then (0, Some(ManagerClosed))
    else if !c.chOpen then (0, Some(NotAvailable))
    else (c.ch, None)
  }

  /** `answer` is the error of the channel itself, if it is asked. */
  function QosFailure(c: Core, answer: Option<nat>): Option<Failure> {
    if c.closed then Some(ManagerClosed)
    else if !c.chOpen then Some(NotAvailable)
    else if answer.Some? then Some(ChannelError(answer.value))
    else None
  }

  function Healthy(c: Core): bool {
    !c.closed && c.connOpen && c.chOpen
  }

  // Writes.

  function Closed(c: Core): Core {
    if c.closed then c else c.(closed := true, cancelled := true, connOpen := false, chOpen := false)
  }

  /** The error `Close` returns: the last one met in closing what was still open. */
  function CloseError(c: Core, chErr: Option<nat>, connErr: Option<nat>): Option<nat> {
    if c.closed then None
    else if c.connOpen && connErr.Some? then connErr
    else if c.chOpen then chErr
    else None
  }

  function Connected(c: Core, ok: bool): Core {
    if ok then c.(conn := c.links, connOpen := true, ch := c.links + 1, chOpen := true, links := c.links + 2)
    else c
  }

  /** The region of `handleChannelFailure`. */
  function Rechannelled(c: Core, ok: bool): Core {
    if !c.closed && c.connOpen && ok then c.(ch := c.links, chOpen := true, links := c.links + 1) else c
  }

  function NeedsReconnect(c: Core, ok: bool): bool {
    !c.closed && !(c.connOpen && ok)
  }

  function Declared(c: Core, ok: bool): Core {
    if c.topology && ok then c.(declared := Some(c.conn)) else c
  }

  function ConnClosed(c: Core): Core {
    c.(connOpen := false, chOpen := false)
  }

  // The monitor goroutine.

  /** One call of `handleConnectionFailure`: the local variables, and counts of the connects
      made, of those that failed, and of the steps taken. */
  datatype Round = Round(attempt: nat, delay: int, connects: nat, failures: nat, steps: nat)

  datatype Pc =
    | Selecting
    | ChannelFailure
    | ConnectionFailure
    | Checking(r: Round)
    | Waiting(r: Round)
    | Connecting(r: Round)
    | Reopening(r: Round)
    | Declaring(r: Round)
    | Closing(r: Round)
    | Reclosing(r: Round)
    | Stopped

  datatype Return = NotYet | GaveUp | SawCancel | WithTopology | WithoutTopology | CloseFailed

  datatype State = State(core: Core, pc: Pc, last: Return)

  datatype Step =
    | SeeDone
    | SeeConnectionClosed(err: bool)
    | SeeChannelClosed(err: bool)
    | SeeConsumerCancelled
    | RecreateChannel(ok: bool)
    | Begin
    | Check
    | WaitEnds
    | WaitIsCancelled
    | Connect(ok: bool)
    | Reopen
    | Declare(ok: bool)
    | CloseConnection(ok: bool)
    | Reclose
    | User(op: Op)

  datatype Op = Close | SetTopology | ConnectionDies | ChannelDies

  function Perform(c: Core, op: Op): Core {
    match op
    case Close => Closed(c)
    case SetTopology => c.(topology := true)
    case ConnectionDies => ConnClosed(c)
    case ChannelDies => c.(chOpen := false)
  }

  function Tick(r: Round): Round {
    r.(steps := r.steps + 1)
  }

  function Exhausted(cfg: Config, attempt: nat): bool {
    cfg.maxAttempts > 0 && attempt > cfg.maxAttempts
  }

  function Next(cfg: Config, s: State, step: Step): Option<State> {
    match (step, s.pc)
    case (User(op), _) => Some(s.(core := Perform(s.core, op)))
    case (SeeDone, Selecting) => if s.core.cancelled then Some(s.(pc := Stopped)) else None
    case (SeeConnectionClosed(err), Selecting) => Some(s.(pc := if err then ConnectionFailure else Selecting))
    case (SeeChannelClosed(err), Selecting) => Some(s.(pc := if err then ChannelFailure else Selecting))
    case (SeeConsumerCancelled, Selecting) => Some(s.(pc := ChannelFailure))
    case (RecreateChannel(ok), ChannelFailure) =>
      Some(s.(core := Rechannelled(s.core, ok), pc := if NeedsReconnect(s.core, ok) then ConnectionFailure else Selecting))
    case (Begin, ConnectionFailure) =>
      Some(s.(core := s.core.(closed := true), pc := Checking(Round(0, cfg.initialDelay, 0, 0, 1))))
    case (Check, Checking(r)) =>
      if s.core.cancelled then Some(s.(pc := Selecting, last := SawCancel))
      else if Exhausted(cfg, r.attempt + 1) then Some(s.(pc := Selecting, last := GaveUp))
      else Some(s.(pc := Waiting(Tick(r.(attempt := r.attempt + 1)))))
    case (WaitEnds, Waiting(r)) => Some(s.(pc := Connecting(Tick(r))))
    case (WaitIsCancelled, Waiting(r)) =>
      if s.core.cancelled then Some(s.(pc := Selecting, last := SawCancel)) else None
    case (Connect(ok), Connecting(r)) =>
      var tried := Tick(r.(connects := r.connects + 1));
      Some(s.(core := Connected(s.core, ok),
              pc := if ok then Reopening(tried)
                    else Checking(tried.(failures := r.failures + 1, delay := NextDelay(r.delay, cfg.backoffMax)))))
    case (Reopen, Reopening(r)) => Some(s.(core := s.core.(closed := false), pc := Declaring(Tick(r))))
    case (Declare(ok), Declaring(r)) =>
      var c := Declared(s.core, ok);
      if !s.core.topology then Some(s.(pc := Selecting, last := WithoutTopology))
      else if ok then Some(s.(core := c, pc := Selecting, last := WithTopology))
      else Some(s.(pc := Closing(Tick(r))))
    case (CloseConnection(ok), Closing(r)) =>
      if ok then Some(s.(core := ConnClosed(s.core), pc := Reclosing(Tick(r))))
      else Some(s.(pc := Selecting, last := CloseFailed))
    case (Reclose, Reclosing(r)) => Some(s.(core := s.core.(closed := true), pc := Checking(Tick(r))))
    case _ => None
  }

  /** After `NewConnectionManager` has connected. */
  function Start(): State {
    State(Core(false, false, 0, true, 1, true, false, 2, None), Selecting, NotYet)
  }

  function Reach(cfg: Config, s: State, steps: seq<Step>): Option<State>
    decreases |steps|
  {
    if steps == [] then Some(s)
    else
      var before := Reach(cfg, s, steps[..|steps| - 1]);
      if before.None? then None else Next(cfg, before.value, steps[|steps| - 1])
  }

  lemma ReachNothing(cfg: Config, s: State)
    ensures Reach(cfg, s, []) == Some(s)
  {
  }

  lemma ReachSnoc(cfg: Config, s: State, steps: seq<Step>, t: State, step: Step)
    requires Reach(cfg, s, steps) == Some(t)
    ensures Reach(cfg, s, steps + [step]) == Next(cfg, t, step)
  {
    assert (steps + [step])[..|steps|] == steps;
  }

  lemma {:induction false} ReachConcat(cfg: Config, s: State, a: seq<Step>, t: State, b: seq<Step>)
    requires Reach(cfg, s, a) == Some(t)
    ensures Reach(cfg, s, a + b) == Reach(cfg, t, b)
    decreases |b|
  {
    if b == [] {
      assert a + b == a;
    } else {
      assert (a + b)[..|a + b| - 1] == a + b[..|b| - 1];
      ReachConcat(cfg, s, a, t, b[..|b| - 1]);
    }
  }

  /** What happens around one turn of the reconnect loop: the results of the calls it makes,
      and what users and the network do before each of its lock regions and reads. */
  datatype Turn = Turn(
    beforeCheck: seq<Op>, beforeConnect: seq<Op>, connects: bool, beforeReopen: seq<Op>,
    beforeDeclare: seq<Op>, declares: bool, beforeClose: seq<Op>, closes: bool, beforeReclose: seq<Op>)

  class ConnectionManager {
    const cfg: Config
    var closed: bool
    var cancelled: bool
    var conn: nat
    var connOpen: bool
    var ch: nat
    var chOpen: bool
    var topology: bool
    var links: nat
    var declared: Option<nat>

    function View(): Core
      reads this
    {
      Core(closed, cancelled, conn, connOpen, ch, chOpen, topology, links, declared)
    }

    constructor (cfg: Config)
      ensures this.cfg == cfg && View() == Start().core
    {
      this.cfg := cfg;
      closed, cancelled, topology, declared := false, false, false, None;
      conn, connOpen, ch, chOpen, links := 0, true, 1, true, 2;
    }

    /** A channel or connection counts as closed afterwards even if closing it failed. */
    method Close(chErr: Option<nat>, connErr: Option<nat>) returns (err: Option<nat>)
      modifies this
      ensures View() == Closed(old(View())) && err == CloseError(old(View()), chErr, connErr)
    {
      err := None;
      if closed {
        return;
      }
      closed, cancelled := true, true;
      if chOpen {
        chOpen := false;
        if chErr.Some? {
          err := chErr;
        }
      }
      if connOpen {
        connOpen := false;
        if connErr.Some? {
          err := connErr;
        }
      }
    }

    method Connect(ok: bool)
      modifies this
      ensures View() == Connected(old(View()), ok)
      ensures closed == old(closed) && cancelled == old(cancelled)
      ensures ok ==> conn == old(links) && ch == old(links) + 1 && connOpen && chOpen && links == old(links) + 2
      ensures !ok ==> View() == old(View())
    {
      if ok {
        conn, connOpen, ch, chOpen := links, true, links + 1, true;
        links := links + 2;
      }
    }

    method RecreateChannel(ok: bool) returns (reconnect: bool)
      modifies this
      ensures View() == Rechannelled(old(View()), ok) && reconnect == NeedsReconnect(old(View()), ok)
      ensures if old(closed) then View() == old(View()) && !reconnect
              else if !old(connOpen) || !ok then View() == old(View()) && reconnect
              else && !reconnect && chOpen && ch == old(links) && links == old(links) + 1
                   && conn == old(conn) && connOpen && !closed
    {
      if closed {
        return false;
      }
      if connOpen {
        if !ok {
          return true;
        }
        ch, chOpen, links := links, true, links + 1;
        return false;
      }
      return true;
    }

    method GetChannel() returns (channel: nat, err: Option<Failure>)
      ensures (channel, err) == ChannelOf(View())
      ensures err == if closed then Some(ManagerClosed) else if !chOpen then Some(NotAvailable) else None
      ensures err == None ==> channel == ch
    {
      if closed {
        return 0, Some(ManagerClosed);
      }
      if !chOpen {
        return 0, Some(NotAvailable);
      }
      return ch, None;
    }

    method GetConnection() returns (connection: nat, err: Option<Failure>)
      ensures (connection, err) == ConnectionOf(View())
      ensures err == if closed then Some(ManagerClosed) else if !connOpen then Some(NotAvailable) else None
      ensures err == None ==> connection == conn
    {
      if closed {
        return 0, Some(ManagerClosed);
      }
      if !connOpen {
        return 0, Some(NotAvailable);
      }
      return conn, None;
    }

    method Qos(answer: Option<nat>) returns (err: Option<Failure>)
      ensures err == QosFailure(View(), answer)
    {
      if closed {
        return Some(ManagerClosed);
      }
      if !chOpen {
        return Some(NotAvailable);
      }
      return if answer.Some? then Some(ChannelError(answer.value)) else None;
    }

    method IsHealthy() returns (healthy: bool)
      ensures healthy == Healthy(View())
    {
      if closed {
        return false;
      }
      return connOpen && chOpen;
    }

    /** One thing that users or the network do. */
    method Do(op: Op)
      modifies this
      ensures View() == Perform(old(View()), op)
    {
      match op
      case Close => var err := Close(None, None);
      case SetTopology => topology := true;
      case ConnectionDies => connOpen, chOpen := false, false;
      case ChannelDies => chOpen := false;
    }

    /** Whatever users and the network do meanwhile. */
    method Interfere(ops: seq<Op>, ghost s: State, ghost before: seq<Step>, ghost pc: Pc, ghost last: Return)
      returns (ghost steps: seq<Step>)
      requires Reach(cfg, s, before) == Some(State(View(), pc, last))
      modifies this
      ensures Reach(cfg, s, steps) == Some(State(View(), pc, last))
    {
      hide Reach, Perform;
      steps := before;
      for i := 0 to |ops|
        invariant Reach(cfg, s, steps) == Some(State(View(), pc, last))
      {
        ReachSnoc(cfg, s, steps, State(View(), pc, last), User(ops[i]));
        steps := steps + [User(ops[i])];
        Do(ops[i]);
      }
    }

    /** The reconnect loop, for as long as `script` says what happens; the rest of the time it
        would be waiting. What it does is a run of the monitor, whatever comes in between. */
    method HandleConnectionFailure(script: seq<Turn>, ghost last: Return)
      returns (finished: bool, ghost steps: seq<Step>, ghost end: State)
      modifies this
      ensures Reach(cfg, State(old(View()), ConnectionFailure, last), steps) == Some(end)
      ensures end.core == View()
      ensures if finished then end.pc == Selecting else end.pc.Waiting? && end.pc.r.attempt == |script| + 1
      ensures cfg.maxAttempts > 0 && |script| >= cfg.maxAttempts ==> finished
    {
      hide Reach;
      ghost var s := State(View(), ConnectionFailure, last);
      var attempt, delay := 0, cfg.initialDelay;
      closed := true;
      ghost var r := Round(0, cfg.initialDelay, 0, 0, 1);
      steps := [];
      ReachNothing(cfg, s);
      ReachSnoc(cfg, s, steps, s, Begin);
      steps := steps + [Begin];
      while true
        invariant 0 <= attempt <= |script|
        invariant cfg.maxAttempts > 0 ==> attempt <= cfg.maxAttempts
        invariant r.attempt == attempt && r.delay == delay
        invariant Reach(cfg, s, steps) == Some(State(View(), Checking(r), last))
        decreases |script| - attempt
      {
        if attempt < |script| {
          steps := Interfere(script[attempt].beforeCheck, s, steps, Checking(r), last);
        }
        ReachSnoc(cfg, s, steps, State(View(), Checking(r), last), Check);
        steps := steps + [Check];
        if cancelled {
          end := State(View(), Selecting, SawCancel);
          return true, steps, end;
        }
        attempt := attempt + 1;
        if cfg.maxAttempts > 0 && attempt > cfg.maxAttempts {
          end := State(View(), Selecting, GaveUp);
          return true, steps, end;
        }
        r := Tick(r.(attempt := attempt));
        if attempt > |script| {
          end := State(View(), Waiting(r), last);
          return false, steps, end;
        }
        var turn := script[attempt - 1];
        ReachSnoc(cfg, s, steps, State(View(), Waiting(r), last), WaitEnds);
        steps, r := steps + [WaitEnds], Tick(r);
        var connected;
        connected, r, steps := Attempt(turn, s, steps, r, last);
        if !connected {
          delay := NextDelay(delay, cfg.backoffMax);
          continue;
        }
        var returned;
        returned, r, steps, end := Redeclare(turn, s, steps, r, last);
        if returned {
          return true, steps, end;
        }
      }
    }

    /** A closed channel or a cancelled consumer: a new channel, or else a full reconnect. */
    method HandleChannelFailure(ok: bool, script: seq<Turn>, ghost last: Return)
      returns (finished: bool, ghost steps: seq<Step>, ghost end: State)
      modifies this
      ensures Reach(cfg, State(old(View()), ChannelFailure, last), steps) == Some(end)
      ensures end.core == View()
      ensures finished ==> end.pc == Selecting
      ensures old(closed) ==> finished && View() == old(View())
      ensures !old(closed) && old(connOpen) && ok ==>
                finished && !closed && chOpen && ch == old(links) && connOpen && conn == old(conn)
      ensures cfg.maxAttempts > 0 && |script| >= cfg.maxAttempts ==> finished
    {
      ghost var s := State(View(), ChannelFailure, last);
      ReachNothing(cfg, s);
      ReachSnoc(cfg, s, [], s, Step.RecreateChannel(ok));
      steps := [] + [Step.RecreateChannel(ok)];
      finished := true;
      var reconnect := RecreateChannel(ok);
      end := State(View(), if reconnect then ConnectionFailure else Selecting, last);
      if reconnect {
        ghost var t := end;
        ghost var more;
        finished, more, end := HandleConnectionFailure(script, last);
        ReachConcat(cfg, s, steps, t, more);
        steps := steps + more;
      }
    }

    /** One connect of the loop and, if it succeeds, the reset of `closed`. */
    method Attempt(turn: Turn, ghost s: State, ghost before: seq<Step>, ghost r: Round, ghost last: Return)
      returns (connected: bool, ghost r': Round, ghost steps: seq<Step>)
      requires Reach(cfg, s, before) == Some(State(View(), Connecting(r), last))
      modifies this
      ensures connected == turn.connects && r'.attempt == r.attempt
      ensures r'.delay == if connected then r.delay else NextDelay(r.delay, cfg.backoffMax)
      ensures Reach(cfg, s, steps) == Some(State(View(), if connected then Declaring(r') else Checking(r'), last))
    {
      hide Reach;
      steps := Interfere(turn.beforeConnect, s, before, Connecting(r), last);
      ReachSnoc(cfg, s, steps, State(View(), Connecting(r), last), Step.Connect(turn.connects));
      steps := steps + [Step.Connect(turn.connects)];
      Connect(turn.connects);
      r' := Tick(r.(connects := r.connects + 1));
      if !turn.connects {
        r' := r'.(failures := r.failures + 1, delay := NextDelay(r.delay, cfg.backoffMax));
        return false, r', steps;
      }
      steps := Interfere(turn.beforeReopen, s, steps, Reopening(r'), last);
      ReachSnoc(cfg, s, steps, State(View(), Reopening(r'), last), Reopen);
      steps, r' := steps + [Reopen], Tick(r');
      closed := false;
      return true, r', steps;
    }

    /** The topology after a reconnect; if that fails, the connection is closed again. */
    method Redeclare(turn: Turn, ghost s: State, ghost before: seq<Step>, ghost r: Round, ghost last: Return)
      returns (returned: bool, ghost r': Round, ghost steps: seq<Step>, ghost end: State)
      requires Reach(cfg, s, before) == Some(State(View(), Declaring(r), last))
      modifies this
      ensures r'.attempt == r.attempt && r'.delay == r.delay
      ensures Reach(cfg, s, steps) == Some(end) && end.core == View()
      ensures if returned then end.pc == Selecting else end == State(View(), Checking(r'), last)
    {
      hide Reach;
      steps := Interfere(turn.beforeDeclare, s, before, Declaring(r), last);
      ReachSnoc(cfg, s, steps, State(View(), Declaring(r), last), Step.Declare(turn.declares));
      steps, r' := steps + [Step.Declare(turn.declares)], Tick(r);
      if !topology {
        end := State(View(), Selecting, WithoutTopology);
        return true, r', steps, end;
      }
      if turn.declares {
        declared := Some(conn);
        end := State(View(), Selecting, WithTopology);
        return true, r', steps, end;
      }
      returned, r', steps, end := Teardown(turn, s, steps, r', last);
    }

    method Teardown(turn: Turn, ghost s: State, ghost before: seq<Step>, ghost r: Round, ghost last: Return)
      returns (returned: bool, ghost r': Round, ghost steps: seq<Step>, ghost end: State)
      requires Reach(cfg, s, before) == Some(State(View(), Closing(r), last))
      modifies this
      ensures r'.attempt == r.attempt && r'.delay == r.delay
      ensures Reach(cfg, s, steps) == Some(end) && end.core == View()
      ensures if returned then end.pc == Selecting else end == State(View(), Checking(r'), last)
    {
      hide Reach;
      r' := r;
      steps := Interfere(turn.beforeClose, s, before, Closing(r), last);
      ReachSnoc(cfg, s, steps, State(View(), Closing(r), last), CloseConnection(turn.closes));
      steps := steps + [CloseConnection(turn.closes)];
      if !turn.closes {
        end := State(View(), Selecting, CloseFailed);
        return true, r', steps, end;
      }
      connOpen, chOpen := false, false;
      r' := Tick(r');
      steps := Interfere(turn.beforeReclose, s, steps, Reclosing(r'), last);
      ReachSnoc(cfg, s, steps, State(View(), Reclosing(r'), last), Reclose);
      steps, r' := steps + [Reclose], Tick(r');
      closed := true;
      end := State(View(), Checking(r'), last);
      return false, r', steps, end;
    }
  }
}
