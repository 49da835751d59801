/** Reconnects and topology together: the connection manager's state machine, with the broker
    it declares its topology on. What the manager sees as a successful declaration is here a
    complete run of the topology's plan. */
module Recovery {
  import opened Common
  import B = Broker
  import C = Connections
  import CP = ConnectionProperties
  import T = Topologies
  import TP = TopologyProperties

  datatype World = World(manager: C.State, broker: B.State)

  /** `Redeclare` is the call to `DeclareAndBindings` on the new channel, with the faults met
      on that channel and the order in which the queue map is walked. `Damage` is the loss of
      entities and bindings. `Other` is any other step of the manager, its users, the network. */
  datatype Event =
    | Redeclare(faults: B.Faults, order: seq<string>)
    | Damage(lost: set<B.Entity>, kept: set<B.Call>)
    | Other(step: C.Step)

  /** The run of the plan that a `Redeclare` makes. */
  ghost function Declaration(p: T.Plan, w: World, e: Event): B.Outcome
    requires e.Redeclare? && T.IsOrder(e.order, p.queues.Keys)
  {
    B.Run(e.faults, B.Session(w.broker, []), T.FullPlan(p, e.order))
  }

  ghost function Next(cfg: C.Config, p: T.Plan, w: World, e: Event): Option<World> {
    match e
    case Redeclare(_, order) =>
      if !w.manager.pc.Declaring? || !w.manager.core.topology || !T.IsOrder(order, p.queues.Keys) then None
      else
        var o := Declaration(p, w, e);
        var next := C.Next(cfg, w.manager, C.Declare(o.error.None?));
        if next.None? then None else Some(World(next.value, o.session.state))
    case Damage(lost, kept) =>
      if TP.Supported(p, w.broker.entities - lost)
      then Some(w.(broker := B.State(w.broker.entities - lost, kept))) else None
    case Other(step) =>
      if step.Declare? && w.manager.core.topology then None
      else
        var next := C.Next(cfg, w.manager, step);
        if next.None? then None else Some(w.(manager := next.value))
  }

  ghost function Reach(cfg: C.Config, p: T.Plan, broker: B.State, events: seq<Event>): Option<World> {
    if events == [] then Some(World(C.Start(), broker))
    else
      var w := Reach(cfg, p, broker, events[..|events| - 1]);
      if w.None? then None else Next(cfg, p, w.value, events[|events| - 1])
  }

  lemma DamageKeepsFit(p: T.Plan, m: map<B.Entity, B.Properties>, lost: set<B.Entity>)
    requires TP.Fits(p, m) && TP.Supported(p, m - lost)
    ensures TP.Fits(p, m - lost)
  {
  }

  lemma StepKeepsFit(cfg: C.Config, p: T.Plan, w: World, e: Event)
    requires TP.Fits(p, w.broker.entities) && Next(cfg, p, w, e).Some?
    ensures TP.Fits(p, Next(cfg, p, w, e).value.broker.entities)
  {
    hide TP.Fits, B.Run, T.FullPlan, TP.Supported;
    match e
    case Redeclare(faults, order) => TP.AbortedRunKeepsTheTarget(faults, B.Session(w.broker, []), p, order);
    case Damage(lost, kept) => DamageKeepsFit(p, w.broker.entities, lost);
    case Other(step) =>
  }

  lemma {:induction false} ReachableFit(cfg: C.Config, p: T.Plan, broker: B.State, events: seq<Event>)
    requires TP.Fits(p, broker.entities) && Reach(cfg, p, broker, events).Some?
    ensures TP.Fits(p, Reach(cfg, p, broker, events).value.broker.entities)
  {
    if events != [] {
      var n := |events| - 1;
      ReachableFit(cfg, p, broker, events[..n]);
      StepKeepsFit(cfg, p, Reach(cfg, p, broker, events[..n]).value, events[n]);
    }
  }

  /** A run of the whole, seen from the manager alone, is a run of the manager. */
  lemma {:induction false} ManagerRuns(cfg: C.Config, p: T.Plan, broker: B.State, events: seq<Event>)
    returns (steps: seq<C.Step>)
    requires Reach(cfg, p, broker, events).Some?
    ensures CP.Run(cfg, steps, Reach(cfg, p, broker, events).value.manager)
  {
    hide C.Next;
    if events == [] {
      steps := [];
      C.ReachNothing(cfg, C.Start());
    } else {
      var n := |events| - 1;
      var w := Reach(cfg, p, broker, events[..n]).value;
      steps := ManagerRuns(cfg, p, broker, events[..n]);
      if !events[n].Damage? {
        var step := if events[n].Other? then events[n].step else C.Declare(Declaration(p, w, events[n]).error.None?);
        C.ReachSnoc(cfg, C.Start(), steps, w.manager, step);
        steps := steps + [step];
      }
    }
  }

  /** In every run from a broker that the topology fits, with aborted declarations and lost
      entities in any places: a declaration after a reconnect succeeds unless the broker
      refuses one of its calls for reasons of its own. The manager goes back to waiting with
      its topology declared exactly when it succeeds, and the broker then holds everything
      planned beside what it held. */
  lemma ReconnectRestoresTheTopology(cfg: C.Config, p: T.Plan, broker: B.State, events: seq<Event>, w: World, e: Event)
    requires TP.Fits(p, broker.entities) && Reach(cfg, p, broker, events) == Some(w)
    requires e.Redeclare? && Next(cfg, p, w, e).Some?
    ensures var w' := Next(cfg, p, w, e).value;
            var success := B.Spares(e.faults, B.Session(w.broker, []), |T.FullPlan(p, e.order)|);
            && (w'.manager.pc.Selecting? <==> success)
            && (success ==> w'.manager.last == C.WithTopology && w'.broker == TP.Target(p, w.broker))
            && (!success ==> w'.manager.pc.Closing?)
  {
    hide B.Run, T.FullPlan, B.Spares, TP.Supported, TP.Compatible, TP.NamesAreFree;
    ReachableFit(cfg, p, broker, events);
    TP.DeclaringSucceedsExactlyWhenThePlanFits(e.faults, p, e.order, B.Session(w.broker, []));
  }

  /** Nothing but damage takes planned entities away again: a broker that held everything
      planned still does after any other event. */
  lemma OnlyDamageTakesAway(cfg: C.Config, p: T.Plan, w: World, e: Event, x: B.Entity)
    requires x in w.broker.entities && !e.Damage? && Next(cfg, p, w, e).Some?
    ensures var m := Next(cfg, p, w, e).value.broker.entities;
            x in m && m[x] == w.broker.entities[x]
  {
    if e.Redeclare? {
      B.RunAddsOnlyWhatItAsksFor(e.faults, B.Session(w.broker, []), T.FullPlan(p, e.order));
    }
  }
}
