/** What the declaration calls of a topology add up to, for every iteration order of the
    queue map and every point at which a call may fail. */
module TopologyProperties {
  import opened Common
  import opened Broker
  import opened Topologies
  import Q = Queues

  // The per-queue plan, with no order in it.

  ghost predicate NamesAreFree(queues: map<string, Q.Queue>) {
    forall j, k :: j in queues && k in queues && j != k ==> !Q.Shadows(queues[j], queues[k])
  }

  function PlannedNames(queues: map<string, Q.Queue>): set<string> {
    queues.Keys
    + (set k | k in queues && queues[k].withRetry :: queues[k].RetryName())
    + (set k | k in queues && queues[k].withDLQ :: queues[k].DLQName())
  }

  function Without(name: string, suffix: nat): string {
    if |name| < suffix then "" else name[..|name| - suffix]
  }

  /** The definition that a planned name stands for, read off the name alone. */
  function Planned(queues: map<string, Q.Queue>, name: string): Option<Properties> {
    var r, d := Without(name, 6), Without(name, 4);
    if name in queues then Some(MainCall(queues[name]).properties)
    else if r in queues && queues[r].withRetry && name == r + "-retry"
      then Some(QueueCall(queues[r], name, RetryArgs(queues[r])).properties)
    else if d in queues && queues[d].withDLQ && name == d + "-dlq"
      then Some(QueueCall(queues[d], name, DlqArgs(queues[d])).properties)
    else None
  }

  function QueuePlan(queues: map<string, Q.Queue>): map<Entity, Properties> {
    map n | n in PlannedNames(queues) && Planned(queues, n).Some? :: Queue(n) := Planned(queues, n).value
  }

  lemma PlanHoldsEveryCall(queues: map<string, Q.Queue>, k: string, c: Call)
    requires Keyed(queues) && NamesAreFree(queues) && k in queues && c in QueueCalls(queues[k])
    ensures c.Declare? && c.entity in QueuePlan(queues) && QueuePlan(queues)[c.entity] == c.properties
  {
    var q := queues[k];
    var n := c.entity.name;
    assert n in PlannedNames(queues) && c.entity == Queue(n);
    Q.DerivedNamesDiffer(k, k);
    if n != k {
      if n in queues {
        assert Q.Shadows(queues[n], q);
      }
      assert Without(k + "-retry", 6) == k && Without(k + "-dlq", 4) == k;
      if n == k + "-dlq" {
        Q.DerivedNamesDiffer(k, Without(n, 6));
      }
    }
  }

  lemma PlanHoldsNothingElse(queues: map<string, Q.Queue>, e: Entity) returns (k: string)
    requires Keyed(queues) && e in QueuePlan(queues)
    ensures k in queues && Declare(e, QueuePlan(queues)[e]) in QueueCalls(queues[k])
  {
    var n := e.name;
    k := if n in queues then n else if n == Without(n, 6) + "-retry" then Without(n, 6) else Without(n, 4);
    if n !in queues && n == Without(n, 6) + "-retry" {
      Q.DerivedNamesDiffer(Without(n, 4), Without(n, 6));
    }
    if n in queues {
      assert QueueCalls(queues[k])[|QueueCalls(queues[k])| - 1] == Declare(e, QueuePlan(queues)[e]);
    } else if n == k + "-retry" {
      assert QueueCalls(queues[k])[0] == Declare(e, QueuePlan(queues)[e]);
    } else {
      assert DlqCalls(queues[k])[0] == Declare(e, QueuePlan(queues)[e]);
    }
  }

  /** A name wanted by two definitions is always wanted with two different argument tables. */
  lemma ShadowingNeverAgrees(p: Q.Queue, q: Q.Queue) returns (c: Call)
    requires Q.Shadows(p, q)
    ensures c in QueueCalls(q) && c.Declare?
    ensures c.entity == MainCall(p).entity && c.properties != MainCall(p).properties
  {
    if q.withRetry && p.name == q.RetryName() {
      c := QueueCall(q, q.RetryName(), RetryArgs(q));
      assert MessageTTL in RetryArgs(q) && MessageTTL !in MainArgs(p);
      assert c == QueueCalls(q)[0];
    } else {
      c := QueueCall(q, q.DLQName(), DlqArgs(q));
      var target := DlqArgs(q)[DeadLetterRoutingKey].text;
      assert |target| <= |q.name| + 6 < |p.RetryName()| && |target| < |p.DLQName()|;
      assert c in DlqCalls(q);
    }
  }

  lemma FreeNamesAreCoherent(queues: map<string, Q.Queue>, order: seq<string>)
    requires Keyed(queues) && IsOrder(order, queues.Keys) && NamesAreFree(queues)
    ensures Coherent(AllQueueCalls(queues, order))
  {
    var calls, plan := AllQueueCalls(queues, order), QueuePlan(queues);
    forall c | c in calls && c.Declare?
      ensures c.entity in plan && plan[c.entity] == c.properties
    {
      AllQueueCallsMember(queues, order, c);
      var k :| k in order && c in QueueCalls(queues[k]);
      PlanHoldsEveryCall(queues, k, c);
    }
  }

  lemma ShadowedNamesAreIncoherent(queues: map<string, Q.Queue>, order: seq<string>, j: string, k: string)
    requires Keyed(queues) && IsOrder(order, queues.Keys)
    requires j in queues && k in queues && Q.Shadows(queues[j], queues[k])
    ensures !Coherent(AllQueueCalls(queues, order))
  {
    hide Q.Shadows, QueueCalls, MainCall, AllQueueCalls;
    var calls, d := AllQueueCalls(queues, order), MainCall(queues[j]);
    MainCallIsLast(queues[j]);
    var c := ShadowingNeverAgrees(queues[j], queues[k]);
    AllQueueCallsMember(queues, order, c);
    AllQueueCallsMember(queues, order, d);
    assert c in calls && d in calls;
  }

  lemma MainCallIsLast(q: Q.Queue)
    ensures MainCall(q) in QueueCalls(q) && MainCall(q).Declare?
  {
    assert QueueCalls(q)[|QueueCalls(q)| - 1] == MainCall(q);
  }

  lemma CoherentExactlyWhenNamesAreFree(queues: map<string, Q.Queue>, order: seq<string>)
    requires Keyed(queues) && IsOrder(order, queues.Keys)
    ensures Coherent(AllQueueCalls(queues, order)) <==> NamesAreFree(queues)
  {
    if NamesAreFree(queues) {
      FreeNamesAreCoherent(queues, order);
    } else {
      var j, k :| j in queues && k in queues && j != k && Q.Shadows(queues[j], queues[k]);
      ShadowedNamesAreIncoherent(queues, order, j, k);
    }
  }

  ghost predicate Compatible(m: map<Entity, Properties>, plan: map<Entity, Properties>) {
    forall e :: e in plan && e in m ==> m[e] == plan[e]
  }

  lemma QueueCallsAreThePlan(queues: map<string, Q.Queue>, order: seq<string>, c: Call)
    requires Keyed(queues) && NamesAreFree(queues) && IsOrder(order, queues.Keys)
    ensures c in AllQueueCalls(queues, order) <==>
            c.Declare? && c.entity in QueuePlan(queues) && c.properties == QueuePlan(queues)[c.entity]
  {
    AllQueueCallsMember(queues, order, c);
    if c in AllQueueCalls(queues, order) {
      var k :| k in order && c in QueueCalls(queues[k]);
      PlanHoldsEveryCall(queues, k, c);
    }
    if c.Declare? && c.entity in QueuePlan(queues) && c.properties == QueuePlan(queues)[c.entity] {
      var k := PlanHoldsNothingElse(queues, c.entity);
      assert k in order;
    }
  }

  // Exchanges come in a list; a later definition of a name must repeat the earlier one.

  function ExchangePlan(es: seq<ExchangeDefinition>): map<Entity, Properties> {
    if es == [] then map[]
    else
      var e := es[|es| - 1];
      ExchangePlan(es[..|es| - 1])[
        Exchange(e.name) := ExchangeProperties(e.kind, e.durable, e.autoDelete, e.params)]
  }

  ghost predicate ExchangesAgree(es: seq<ExchangeDefinition>) {
    forall i, j :: 0 <= i < |es| && 0 <= j < |es| && es[i].name == es[j].name ==> es[i] == es[j]
  }

  lemma {:induction false} ExchangeCallsAreThePlan(es: seq<ExchangeDefinition>, c: Call)
    requires ExchangesAgree(es)
    ensures c in ExchangeCalls(es) <==>
            c.Declare? && c.entity in ExchangePlan(es) && c.properties == ExchangePlan(es)[c.entity]
    decreases |es|
  {
    if es != [] {
      var front, e := es[..|es| - 1], es[|es| - 1];
      var last := Declare(Exchange(e.name), ExchangeProperties(e.kind, e.durable, e.autoDelete, e.params));
      assert ExchangeCalls(es) == ExchangeCalls(front) + [last];
      ExchangeCallsAreThePlan(front, c);
      if c in ExchangeCalls(front) && c.entity == Exchange(e.name) {
        var i :| 0 <= i < |front| && ExchangeCalls(front)[i] == c;
        assert es[i] == e;
      }
    }
  }

  function TopologyPlan(p: Plan): map<Entity, Properties> {
    ExchangePlan(p.exchanges) + QueuePlan(p.queues)
  }

  lemma {:induction false} ExchangePlanHasExchanges(es: seq<ExchangeDefinition>)
    ensures forall e :: e in ExchangePlan(es) ==> e.Exchange?
    decreases |es|
  {
    if es != [] {
      ExchangePlanHasExchanges(es[..|es| - 1]);
    }
  }

  ghost predicate Sound(p: Plan) {
    Keyed(p.queues) && NamesAreFree(p.queues) && ExchangesAgree(p.exchanges)
  }

  lemma DeclareCallsAreThePlan(p: Plan, order: seq<string>, c: Call)
    requires Sound(p) && IsOrder(order, p.queues.Keys)
    ensures c in DeclareCalls(p, order) <==>
            c.Declare? && c.entity in TopologyPlan(p) && c.properties == TopologyPlan(p)[c.entity]
  {
    ExchangeCallsAreThePlan(p.exchanges, c);
    QueueCallsAreThePlan(p.queues, order, c);
    ExchangePlanHasExchanges(p.exchanges);
  }

  lemma CoherentExactlyWhenSound(p: Plan, order: seq<string>)
    requires Keyed(p.queues) && IsOrder(order, p.queues.Keys)
    ensures Coherent(DeclareCalls(p, order)) <==> Sound(p)
  {
    var es, qs, all := ExchangeCalls(p.exchanges), AllQueueCalls(p.queues, order), DeclareCalls(p, order);
    assert forall c :: c in all <==> c in es || c in qs;
    CoherentExactlyWhenNamesAreFree(p.queues, order);
    if Sound(p) {
      forall c, d | c in all && d in all && c.Declare? && d.Declare? && c.entity == d.entity
        ensures c == d
      {
        DeclareCallsAreThePlan(p, order, c);
        DeclareCallsAreThePlan(p, order, d);
      }
    }
    if Coherent(all) {
      assert Coherent(qs);
      forall i, j | 0 <= i < |p.exchanges| && 0 <= j < |p.exchanges| && p.exchanges[i].name == p.exchanges[j].name
        ensures p.exchanges[i] == p.exchanges[j]
      {
        assert es[i] in all && es[j] in all;
        assert es[i] == es[j];
      }
    }
  }

  // What a fault-free broker makes of a topology.

  /** Every binding joins names that the plan declares or that `m` has. */
  ghost predicate Supported(p: Plan, m: map<Entity, Properties>) {
    forall c :: c in BindCalls(p) ==> Anchored(m + TopologyPlan(p), c)
  }

  ghost predicate Fits(p: Plan, m: map<Entity, Properties>) {
    && Sound(p)
    && Compatible(m, TopologyPlan(p))
    && Supported(p, m)
  }

  function Target(p: Plan, s: State): State {
    State(s.entities + TopologyPlan(p), s.bindings + (set c | c in BindCalls(p)))
  }

  lemma AgreesExactlyWhenCompatible(p: Plan, order: seq<string>, m: map<Entity, Properties>)
    requires Sound(p) && IsOrder(order, p.queues.Keys)
    ensures Agrees(m, DeclareCalls(p, order)) <==> Compatible(m, TopologyPlan(p))
  {
    var calls, plan := DeclareCalls(p, order), TopologyPlan(p);
    if Agrees(m, calls) {
      forall e | e in plan && e in m
        ensures m[e] == plan[e]
      {
        DeclareCallsAreThePlan(p, order, Declare(e, plan[e]));
        assert Declare(e, plan[e]) in calls;
      }
    }
    if Compatible(m, plan) {
      forall c | c in calls && c.Declare? && c.entity in m
        ensures m[c.entity] == c.properties
      {
        DeclareCallsAreThePlan(p, order, c);
      }
    }
  }

  lemma MergingAddsThePlan(p: Plan, order: seq<string>, m: map<Entity, Properties>, t: map<Entity, Properties>)
    requires Sound(p) && IsOrder(order, p.queues.Keys)
    requires Merged(m, DeclareCalls(p, order), t)
    ensures t == m + TopologyPlan(p)
  {
    var calls, plan := DeclareCalls(p, order), TopologyPlan(p);
    forall e
      ensures e in t <==> e in m + plan
      ensures e in t ==> t[e] == (m + plan)[e]
    {
      if e in plan {
        DeclareCallsAreThePlan(p, order, Declare(e, plan[e]));
        assert Declare(e, plan[e]) in calls;
      } else if e in t && e !in m {
        var c :| c in calls && c.Declare? && c.entity == e;
        DeclareCallsAreThePlan(p, order, c);
      }
    }
  }

  lemma DeclaredState(f: Faults, p: Plan, order: seq<string>, s: Session)
    requires Keyed(p.queues) && IsOrder(order, p.queues.Keys)
    ensures Run(f, s, DeclareCalls(p, order)).error.None? <==>
            && Spares(f, s, |DeclareCalls(p, order)|)
            && Sound(p) && Compatible(s.state.entities, TopologyPlan(p))
    ensures Run(f, s, DeclareCalls(p, order)).error.None? ==>
              Run(f, s, DeclareCalls(p, order)).session.state ==
              s.state.(entities := s.state.entities + TopologyPlan(p))
  {
    hide Run, Agrees, Compatible, Coherent, Sound, Merged, DeclareCalls, TopologyPlan, Spares;
    CallKinds(p, order);
    CoherentExactlyWhenSound(p, order);
    DeclarationsSucceedExactlyWhenTheyAgree(f, s, DeclareCalls(p, order));
    if Sound(p) {
      AgreesExactlyWhenCompatible(p, order, s.state.entities);
      var result := Run(f, s, DeclareCalls(p, order));
      if result.error.None? {
        MergingAddsThePlan(p, order, s.state.entities, result.session.state.entities);
      }
    }
  }

  /** Declaring a topology succeeds exactly when the broker refuses no call for reasons of its
      own, no two definitions compete for a name, the broker agrees on the names it has, and
      every binding joins names that exist or are declared. It then adds exactly the plan,
      whatever the iteration order. */
  lemma DeclaringSucceedsExactlyWhenThePlanFits(f: Faults, p: Plan, order: seq<string>, s: Session)
    requires Keyed(p.queues) && IsOrder(order, p.queues.Keys)
    ensures Run(f, s, FullPlan(p, order)).error.None? <==>
            Spares(f, s, |FullPlan(p, order)|) && Fits(p, s.state.entities)
    ensures Run(f, s, FullPlan(p, order)).error.None? ==>
              Run(f, s, FullPlan(p, order)).session.state == Target(p, s.state)
  {
    RunSucceedsExactlyWhenSpared(f, s, FullPlan(p, order));
    SparedPlanFits(p, order, s);
  }

  lemma SparedPlanFits(p: Plan, order: seq<string>, s: Session)
    requires Keyed(p.queues) && IsOrder(order, p.queues.Keys)
    ensures Run(NoFaults(), s, FullPlan(p, order)).error.None? <==> Fits(p, s.state.entities)
    ensures Fits(p, s.state.entities) ==>
              Run(NoFaults(), s, FullPlan(p, order)).session.state == Target(p, s.state)
  {
    var declared := Run(NoFaults(), s, DeclareCalls(p, order));
    DeclaredState(NoFaults(), p, order, s);
    CallKinds(p, order);
    RunConcat(NoFaults(), s, DeclareCalls(p, order), BindCalls(p));
    if declared.error.None? {
      BindingsSucceedExactlyWhenAnchored(declared.session, BindCalls(p));
    }
  }

  /** The same for the queue loop alone. */
  lemma QueueLoopReachesThePlan(f: Faults, queues: map<string, Q.Queue>, order: seq<string>, s: Session)
    requires Keyed(queues) && IsOrder(order, queues.Keys)
    ensures Run(f, s, AllQueueCalls(queues, order)).error.None? <==>
            && Spares(f, s, |AllQueueCalls(queues, order)|)
            && NamesAreFree(queues) && Compatible(s.state.entities, QueuePlan(queues))
    ensures Run(f, s, AllQueueCalls(queues, order)).error.None? ==>
              Run(f, s, AllQueueCalls(queues, order)).session.state ==
              s.state.(entities := s.state.entities + QueuePlan(queues))
  {
    hide Run, AllQueueCalls, QueuePlan, NamesAreFree, Compatible, Spares;
    var p := Plan([], queues, [], []);
    assert DeclareCalls(p, order) == AllQueueCalls(queues, order);
    assert TopologyPlan(p) == QueuePlan(queues);
    DeclaredState(f, p, order, s);
  }

  // Failures.

  /** Whatever call fails, no bind is sent before every declaration has been accepted. */
  lemma NoBindBeforeEveryDeclare(f: Faults, s: Session, p: Plan, order: seq<string>, i: nat)
    requires IsOrder(order, p.queues.Keys)
    requires |s.log| <= i < |Run(f, s, FullPlan(p, order)).session.log|
    requires Run(f, s, FullPlan(p, order)).session.log[i].Bind?
    ensures Run(f, s, DeclareCalls(p, order)).error.None?
    ensures i >= |s.log| + |DeclareCalls(p, order)|
  {
    hide Run, DeclareCalls, BindCalls;
    var declares := DeclareCalls(p, order);
    CallKinds(p, order);
    RunConcat(f, s, declares, BindCalls(p));
    var made := RunStopsAtFirstError(f, s, FullPlan(p, order));
    var k := i - |s.log|;
    assert Run(f, s, FullPlan(p, order)).session.log[i] == FullPlan(p, order)[k];
    forall j | 0 <= j < |declares|
      ensures FullPlan(p, order)[j].Declare?
    {
      assert declares[j] in declares;
    }
    if Run(f, s, declares).error.Some? {
      var some := RunStopsAtFirstError(f, s, declares);
    }
  }

  /** An aborted run leaves a broker that the same topology still fits, with the same target. */
  lemma AbortedRunKeepsTheTarget(f: Faults, s: Session, p: Plan, order: seq<string>)
    requires IsOrder(order, p.queues.Keys) && Fits(p, s.state.entities)
    ensures Fits(p, Run(f, s, FullPlan(p, order)).session.state.entities)
    ensures Target(p, Run(f, s, FullPlan(p, order)).session.state) == Target(p, s.state)
  {
    var calls, plan, m := FullPlan(p, order), TopologyPlan(p), s.state.entities;
    var t := Run(f, s, calls).session.state;
    RunAddsOnlyWhatItAsksFor(f, s, calls);
    CallKinds(p, order);
    forall e | e in t.entities && e !in m
      ensures e in plan && t.entities[e] == plan[e]
    {
      assert Declare(e, t.entities[e]) in DeclareCalls(p, order);
      DeclareCallsAreThePlan(p, order, Declare(e, t.entities[e]));
    }
    assert t.entities + plan == m + plan;
    forall b | b in t.bindings && b !in s.state.bindings
      ensures b in BindCalls(p)
    {
    }
    assert t.bindings + (set c | c in BindCalls(p)) == s.state.bindings + (set c | c in BindCalls(p));
  }

  datatype Attempt = Attempt(faults: Faults, order: seq<string>)

  ghost function After(p: Plan, s: Session, attempts: seq<Attempt>): Session
    requires forall a :: a in attempts ==> IsOrder(a.order, p.queues.Keys)
    decreases |attempts|
  {
    if attempts == [] then s
    else After(p, Run(attempts[0].faults, s, FullPlan(p, attempts[0].order)).session, attempts[1..])
  }

  /** After any number of runs, aborted anywhere or complete, the next run succeeds unless the
      broker refuses one of its calls for reasons of its own, and then reaches the target that
      the first run had. With one complete attempt this is idempotence. */
  lemma {:induction false} RepeatedRunsConverge(p: Plan, s: Session, attempts: seq<Attempt>, f: Faults, order: seq<string>)
    requires forall a :: a in attempts ==> IsOrder(a.order, p.queues.Keys)
    requires IsOrder(order, p.queues.Keys) && Fits(p, s.state.entities)
    ensures var now := After(p, s, attempts);
            var last := Run(f, now, FullPlan(p, order));
            && (last.error.None? <==> Spares(f, now, |FullPlan(p, order)|))
            && (last.error.None? ==> last.session.state == Target(p, s.state))
    decreases |attempts|
  {
    if attempts == [] {
      DeclaringSucceedsExactlyWhenThePlanFits(f, p, order, s);
    } else {
      var a := attempts[0];
      AbortedRunKeepsTheTarget(a.faults, s, p, a.order);
      RepeatedRunsConverge(p, Run(a.faults, s, FullPlan(p, a.order)).session, attempts[1..], f, order);
    }
  }

  /** A broker that lost entities, and any bindings, gets every planned one back, if no
      binding needs a lost name that the plan does not declare. */
  lemma LostEntitiesAreRestored(f: Faults, p: Plan, s: Session, order: seq<string>, lost: set<Entity>, kept: set<Call>)
    requires IsOrder(order, p.queues.Keys) && Fits(p, s.state.entities) && Supported(p, s.state.entities - lost)
    ensures var damaged := Session(State(Target(p, s.state).entities - lost, kept), s.log);
            var last := Run(f, damaged, FullPlan(p, order));
            && (last.error.None? <==> Spares(f, damaged, |FullPlan(p, order)|))
            && (last.error.None? ==>
                  && last.session.state.entities == (s.state.entities - lost) + TopologyPlan(p)
                  && (forall c :: c in BindCalls(p) ==> c in last.session.state.bindings))
  {
    var damaged := State(Target(p, s.state).entities - lost, kept);
    RestoredEntities(s.state.entities, TopologyPlan(p), lost);
    DeclaringSucceedsExactlyWhenThePlanFits(f, p, order, Session(damaged, s.log));
  }

  lemma RestoredEntities(m: map<Entity, Properties>, plan: map<Entity, Properties>, lost: set<Entity>)
    ensures Compatible((m + plan) - lost, plan)
    ensures ((m + plan) - lost) + plan == (m - lost) + plan
  {
  }

  // Argument tables.

  lemma PlanHoldsDerivedQueues(queues: map<string, Q.Queue>, k: string)
    requires Keyed(queues) && NamesAreFree(queues) && k in queues
    ensures Queue(k) in QueuePlan(queues)
    ensures queues[k].withRetry ==> Queue(queues[k].RetryName()) in QueuePlan(queues)
    ensures queues[k].withDLQ ==> Queue(queues[k].DLQName()) in QueuePlan(queues)
  {
    var q := queues[k];
    assert QueueCalls(q)[|QueueCalls(q)| - 1] == MainCall(q);
    PlanHoldsEveryCall(queues, k, MainCall(q));
    if q.withRetry {
      PlanHoldsEveryCall(queues, k, QueueCalls(q)[0]);
    }
    if q.withDLQ {
      assert DlqCalls(q)[0] in QueueCalls(q);
      PlanHoldsEveryCall(queues, k, DlqCalls(q)[0]);
    }
  }

  lemma DeadLetterKeyOfACall(q: Q.Queue, c: Call)
    requires c in QueueCalls(q) && DeadLetterRoutingKey in c.properties.args
    ensures var args := c.properties.args;
            && DeadLetterExchange in args && args[DeadLetterExchange] == Text("")
            && (|| args[DeadLetterRoutingKey] == Text(q.name)
                || (q.withRetry && args[DeadLetterRoutingKey] == Text(q.RetryName()))
                || (q.withDLQ && args[DeadLetterRoutingKey] == Text(q.DLQName())))
  {
  }

  /** Every dead-letter key in a planned queue names a planned queue, through the default
      exchange. */
  lemma DeadLettersHaveAQueueToGoTo(queues: map<string, Q.Queue>, e: Entity)
    requires Keyed(queues) && NamesAreFree(queues) && e in QueuePlan(queues)
    requires QueuePlan(queues)[e].QueueProperties? && DeadLetterRoutingKey in QueuePlan(queues)[e].args
    ensures QueuePlan(queues)[e].args[DeadLetterRoutingKey].Text?
    ensures Queue(QueuePlan(queues)[e].args[DeadLetterRoutingKey].text) in QueuePlan(queues)
    ensures DeadLetterExchange in QueuePlan(queues)[e].args
    ensures QueuePlan(queues)[e].args[DeadLetterExchange] == Text("")
  {
    var k := PlanHoldsNothingElse(queues, e);
    PlanHoldsDerivedQueues(queues, k);
    DeadLetterKeyOfACall(queues[k], Declare(e, QueuePlan(queues)[e]));
  }

  /** Once the queue loop has succeeded, on any channel, every dead letter of a queue it
      declared has a queue on the broker to go to. */
  lemma DeclaredDeadLettersArrive(f: Faults, queues: map<string, Q.Queue>, order: seq<string>, s: Session, c: Call)
    requires Keyed(queues) && IsOrder(order, queues.Keys)
    requires Run(f, s, AllQueueCalls(queues, order)).error.None?
    requires c in AllQueueCalls(queues, order) && c.Declare? && DeadLetterRoutingKey in c.properties.args
    ensures var m := Run(f, s, AllQueueCalls(queues, order)).session.state.entities;
            && c.entity in m && m[c.entity] == c.properties
            && c.properties.args[DeadLetterRoutingKey].Text?
            && Queue(c.properties.args[DeadLetterRoutingKey].text) in m
  {
    hide Run;
    QueueLoopReachesThePlan(f, queues, order, s);
    QueueCallsAreThePlan(queues, order, c);
    DeadLettersHaveAQueueToGoTo(queues, c.entity);
  }

  /** The name a dispatcher publishes dead letters to is a declared queue, for a definition
      with a DLQ built by any chain of builder calls. */
  lemma DispatcherPublishesToADeclaredQueue(queues: map<string, Q.Queue>, k: string, settings: seq<Q.Setting>)
    requires Keyed(queues) && NamesAreFree(queues)
    requires k in queues && queues[k] == Q.Build(k, settings) && queues[k].withDLQ
    ensures Queue(queues[k].dqlName) in QueuePlan(queues)
  {
    Q.EveryChainIsWellBuilt(k, settings);
    PlanHoldsDerivedQueues(queues, k);
  }

  function LengthOf(args: Args): Option<int> {
    if MaxLength in args && args[MaxLength].Number? then Some(args[MaxLength].number) else None
  }

  function Asked(limited: bool, length: int): Option<int> {
    if limited then Some(length) else None
  }

  /** The one table serves as two separate ones, each with its own length limit, exactly
      when the queue has a DLQ, a limit of its own, or no DLQ limit to leak. */
  lemma SharedTableIsTwoTablesExactlyWhen(q: Q.Queue)
    ensures LengthOf(DlqArgs(q)) == Asked(q.withDLQMaxLength, q.dlqMaxLength)
    ensures LengthOf(MainArgs(q)) == Asked(q.withMaxLength, q.maxLength) <==>
            q.withDLQ || q.withMaxLength || !q.withDLQMaxLength
    ensures DlqArgs(q) - {MaxLength} == MainArgs(q) - {MaxLength}
  {
    assert DeadLetterArgs(q) - {MaxLength} == DeadLetterArgs(q);
  }

  lemma DlqLimitLeaksWithoutADlq()
    ensures LengthOf(MainArgs(Q.Build("q", [Q.DLQMaxLength(5)]))) == Some(5)
    ensures !Q.Build("q", [Q.DLQMaxLength(5)]).withMaxLength
  {
    assert Q.Build("q", []) == Q.Blank("q");
    assert [Q.DLQMaxLength(5)][..0] == [];
  }

  /** Rejected messages leave the main queue for the retry queue exactly when both features
      are on; with retry alone it has no dead-letter key at all. */
  lemma RetryCycleNeedsBothFeatures(q: Q.Queue)
    ensures DeadLetterRoutingKey in MainArgs(q) <==> q.withDLQ
    ensures DeadLetterRoutingKey in MainArgs(q) && MainArgs(q)[DeadLetterRoutingKey] == Text(q.RetryName()) <==>
            q.Cycles()
  {
    Q.DerivedNamesDiffer(q.name, q.name);
  }

  /** A definition with retry alone: its main queue has no dead-letter target at all. */
  lemma RetryAloneHasNoTarget()
    ensures var q := Q.Build("q", [Q.Retry(1, 3)]);
            q.withRetry && DeadLetterRoutingKey !in MainArgs(q) && DeadLetterExchange !in MainArgs(q)
  {
    assert Q.Build("q", []) == Q.Blank("q");
    assert [Q.Retry(1, 3)][..0] == [];
  }

  function TtlOf(args: Args): Option<int> {
    if MessageTTL in args && args[MessageTTL].Number? then Some(args[MessageTTL].number) else None
  }

  /** A TTL asked for with `WithTTL` reaches no declaration: whatever was asked for before or
      after, the calls are those of the same chain without it. */
  lemma TtlIsNeverDeclared(name: string, before: seq<Q.Setting>, d: int, after: seq<Q.Setting>)
    ensures QueueCalls(Q.Build(name, before + [Q.TTL(d)] + after)) == QueueCalls(Q.Build(name, before + after))
  {
    Q.TtlChangesTtlAlone(name, before, d, after);
  }

  /** The main queue is declared with the TTL its definition asks for exactly when it asks for
      none. The one table with a TTL is the retry queue's, with the retry delay. */
  lemma TtlIsHonouredExactlyWhenNotAsked(q: Q.Queue)
    ensures TtlOf(MainArgs(q)) == Asked(q.withTTL, Milliseconds(q.ttl)) <==> !q.withTTL
    ensures forall c :: c in QueueCalls(q) ==>
                          (MessageTTL in c.properties.args <==>
                           q.withRetry && c == QueueCall(q, q.RetryName(), RetryArgs(q)))
    ensures TtlOf(RetryArgs(q)) == Some(Milliseconds(q.retryTTL))
  {
    Q.DerivedNamesDiffer(q.name, q.name);
  }

  /** A definition with a TTL of a day, declared without one. */
  lemma TtlOfADayIsDropped()
    ensures var q := Q.Build("ttl-queue", [Q.TTL(86_400_000_000_000)]);
            q.withTTL && q.ttl == 86_400_000_000_000 && TtlOf(MainArgs(q)) == None
  {
    assert Q.Build("ttl-queue", []) == Q.Blank("ttl-queue");
    assert [Q.TTL(86_400_000_000_000)][..0] == [];
  }

  // What the broker holds afterwards, definition by definition.

  /** Milliseconds are whole ones, rounded toward zero. */
  lemma MillisecondsRoundTowardZero(nanoseconds: int)
    ensures nanoseconds >= 0 ==>
              Milliseconds(nanoseconds) * 1_000_000 <= nanoseconds < (Milliseconds(nanoseconds) + 1) * 1_000_000
    ensures Milliseconds(-nanoseconds) == -Milliseconds(nanoseconds)
  {
  }

  /** The names of a definition's queues are declared in the order in which dead letters need
      them: retry queue, DLQ, queue. */
  lemma DefinitionsDeclareInThisOrder(q: Q.Queue)
    ensures var names := (if q.withRetry then [q.name + "-retry"] else [])
                         + (if q.withDLQ then [q.name + "-dlq"] else []) + [q.name];
            && |QueueCalls(q)| == |names|
            && forall i :: 0 <= i < |names| ==> QueueCalls(q)[i].Declare? && QueueCalls(q)[i].entity == Queue(names[i])
  {
  }

  /** What the tables of a queue and of its DLQ have in common. */
  ghost predicate NamesTarget(q: Q.Queue, args: Args) {
    && QueueType in args && args[QueueType] == Text(if q.quorum then "quorum" else "classic")
    && (DeadLetterExchange in args <==> q.withDLQ) && (DeadLetterRoutingKey in args <==> q.withDLQ)
    && (q.withDLQ ==>
          && args[DeadLetterExchange] == Text("")
          && args[DeadLetterRoutingKey] == Text(if q.withRetry then q.name + "-retry" else q.name + "-dlq"))
    && MessageTTL !in args && RetryCount !in args
  }

  lemma TablesNameTheTarget(q: Q.Queue)
    ensures NamesTarget(q, MainArgs(q)) && NamesTarget(q, DlqArgs(q))
  {
  }

  ghost predicate HasFlags(q: Q.Queue, p: Properties) {
    p.QueueProperties? && p.durable == q.durable && p.autoDelete == q.autoDelete && p.exclusive == q.exclusive
  }

  /** After a successful queue loop, on any channel, every definition has its queue on the
      broker, with the properties, the dead-letter target and the length limit it asks for. */
  lemma EveryQueueIsDeclared(f: Faults, queues: map<string, Q.Queue>, order: seq<string>, s: Session, k: string)
    requires Keyed(queues) && IsOrder(order, queues.Keys) && k in queues
    requires Run(f, s, AllQueueCalls(queues, order)).error.None?
    ensures var q, m := queues[k], Run(f, s, AllQueueCalls(queues, order)).session.state.entities;
            && Queue(k) in m && HasFlags(q, m[Queue(k)]) && NamesTarget(q, m[Queue(k)].args)
            && (q.withMaxLength ==> LengthOf(m[Queue(k)].args) == Some(q.maxLength))
            && (q.withDLQ && !q.withMaxLength ==> LengthOf(m[Queue(k)].args) == None)
  {
    hide Run, MainArgs, DlqArgs, RetryArgs, NamesTarget, AllQueueCalls, LengthOf;
    QueueLoopReachesThePlan(f, queues, order, s);
    PlanHoldsDerivedQueues(queues, k);
    PlanHoldsEveryCall(queues, k, MainCall(queues[k]));
    TablesNameTheTarget(queues[k]);
    SharedTableIsTwoTablesExactlyWhen(queues[k]);
  }

  /** With retry, its retry queue is there as well: it holds a message for the retry delay and
      sends it back to the queue. */
  lemma EveryRetryQueueIsDeclared(f: Faults, queues: map<string, Q.Queue>, order: seq<string>, s: Session, k: string)
    requires Keyed(queues) && IsOrder(order, queues.Keys) && k in queues && queues[k].withRetry
    requires Run(f, s, AllQueueCalls(queues, order)).error.None?
    ensures var q, m := queues[k], Run(f, s, AllQueueCalls(queues, order)).session.state.entities;
            && Queue(k + "-retry") in m
            && m[Queue(k + "-retry")] == QueueProperties(q.durable, q.autoDelete, q.exclusive,
                 map[DeadLetterExchange := Text(""), DeadLetterRoutingKey := Text(k),
                     MessageTTL := Number(Milliseconds(q.retryTTL)), RetryCount := Number(q.retries),
                     QueueType := Text(if q.quorum then "quorum" else "classic")])
  {
    hide Run;
    QueueLoopReachesThePlan(f, queues, order, s);
    PlanHoldsEveryCall(queues, k, QueueCalls(queues[k])[0]);
  }

  /** With a DLQ, so is the DLQ, with its own length limit and the same dead-letter target. */
  lemma EveryDlqIsDeclared(f: Faults, queues: map<string, Q.Queue>, order: seq<string>, s: Session, k: string)
    requires Keyed(queues) && IsOrder(order, queues.Keys) && k in queues && queues[k].withDLQ
    requires Run(f, s, AllQueueCalls(queues, order)).error.None?
    ensures var q, m := queues[k], Run(f, s, AllQueueCalls(queues, order)).session.state.entities;
            var dlq := Queue(k + "-dlq");
            && dlq in m && HasFlags(q, m[dlq]) && NamesTarget(q, m[dlq].args)
            && LengthOf(m[dlq].args) == if q.withDLQMaxLength then Some(q.dlqMaxLength) else None
  {
    hide Run, MainArgs, DlqArgs, RetryArgs, NamesTarget, AllQueueCalls, LengthOf;
    var q := queues[k];
    QueueLoopReachesThePlan(f, queues, order, s);
    assert DlqCalls(q)[0] == QueueCall(q, k + "-dlq", DlqArgs(q)) && DlqCalls(q)[0] in QueueCalls(q);
    PlanHoldsEveryCall(queues, k, DlqCalls(q)[0]);
    TablesNameTheTarget(q);
    SharedTableIsTwoTablesExactlyWhen(q);
  }

  /** After a successful declaration every exchange is on the broker as defined. */
  lemma EveryExchangeIsDeclared(f: Faults, p: Plan, order: seq<string>, s: Session, e: ExchangeDefinition)
    requires Keyed(p.queues) && IsOrder(order, p.queues.Keys) && e in p.exchanges
    requires Run(f, s, FullPlan(p, order)).error.None?
    ensures var m := Run(f, s, FullPlan(p, order)).session.state.entities;
            && Exchange(e.name) in m
            && m[Exchange(e.name)] == ExchangeProperties(e.kind, e.durable, e.autoDelete, e.params)
  {
    hide Run, QueuePlan, NamesAreFree, AllQueueCalls;
    DeclaringSucceedsExactlyWhenThePlanFits(f, p, order, s);
    var i :| 0 <= i < |p.exchanges| && p.exchanges[i] == e;
    var c := ExchangeCalls(p.exchanges)[i];
    ExchangeCallsAreThePlan(p.exchanges, c);
    QueuePlanHasQueues(p.queues, c.entity);
  }

  lemma QueuePlanHasQueues(queues: map<string, Q.Queue>, e: Entity)
    requires e.Exchange?
    ensures e !in QueuePlan(queues)
  {
  }

  /** After a successful declaration, on any channel, the broker holds every binding as it was
      defined: from the exchange named as its source, to the queue or exchange named as its
      destination, under its own key and arguments. */
  lemma EveryBindingIsMade(f: Faults, p: Plan, order: seq<string>, s: Session)
    requires Keyed(p.queues) && IsOrder(order, p.queues.Keys)
    requires Run(f, s, FullPlan(p, order)).error.None?
    ensures var made := Run(f, s, FullPlan(p, order)).session.state.bindings;
            && (forall b :: b in p.exchangeBindings ==>
                  Bind(source := b.source, destination := Exchange(b.destination), key := b.key, args := b.args) in made)
            && (forall b :: b in p.queueBindings ==>
                  Bind(source := b.exchange, destination := Queue(b.queue), key := b.key, args := b.args) in made)
  {
    hide Run;
    DeclaringSucceedsExactlyWhenThePlanFits(f, p, order, s);
    var qs, es := QueueBindCalls(p.queueBindings), ExchangeBindCalls(p.exchangeBindings);
    assert BindCalls(p) == qs + es;
    forall b | b in p.exchangeBindings
      ensures Bind(b.source, Exchange(b.destination), b.key, b.args) in BindCalls(p)
    {
      var i :| 0 <= i < |p.exchangeBindings| && p.exchangeBindings[i] == b;
      assert es[i] in es;
    }
    forall b | b in p.queueBindings
      ensures Bind(b.exchange, Queue(b.queue), b.key, b.args) in BindCalls(p)
    {
      var i :| 0 <= i < |p.queueBindings| && p.queueBindings[i] == b;
      assert qs[i] in qs;
    }
  }

  /** Whatever fails, a binding that is new comes from one of the definitions. */
  lemma NewBindingsAreDefined(f: Faults, p: Plan, order: seq<string>, s: Session, c: Call)
    requires IsOrder(order, p.queues.Keys)
    requires c in Run(f, s, FullPlan(p, order)).session.state.bindings && c !in s.state.bindings
    ensures || (exists b :: b in p.exchangeBindings &&
                  c == Bind(source := b.source, destination := Exchange(b.destination), key := b.key, args := b.args))
            || (exists b :: b in p.queueBindings &&
                  c == Bind(source := b.exchange, destination := Queue(b.queue), key := b.key, args := b.args))
  {
    hide Run;
    RunAddsOnlyWhatItAsksFor(f, s, FullPlan(p, order));
    CallKinds(p, order);
    var qs, es := QueueBindCalls(p.queueBindings), ExchangeBindCalls(p.exchangeBindings);
    if c in qs {
      var i :| 0 <= i < |qs| && qs[i] == c;
      assert p.queueBindings[i] in p.queueBindings;
    } else {
      assert c in es;
      var i :| 0 <= i < |es| && es[i] == c;
      assert p.exchangeBindings[i] in p.exchangeBindings;
    }
  }

  // The order of the calls.

  /** Exchanges, queues, queue bindings, exchange bindings. */
  function Stage(c: Call): nat {
    match c
    case Declare(Exchange(_), _) => 0
    case Declare(Queue(_), _) => 1
    case Bind(_, Queue(_), _, _) => 2
    case Bind(_, Exchange(_), _, _) => 3
  }

  ghost predicate AllOfStage(calls: seq<Call>, n: nat) {
    forall i :: 0 <= i < |calls| ==> Stage(calls[i]) == n
  }

  lemma OneDefinitionIsStageOne(q: Q.Queue)
    ensures AllOfStage(QueueCalls(q), 1)
  {
  }

  lemma {:induction false} QueueCallsAreStageOne(queues: map<string, Q.Queue>, order: seq<string>)
    requires forall k :: k in order ==> k in queues
    ensures AllOfStage(AllQueueCalls(queues, order), 1)
  {
    hide QueueCalls, Stage;
    if order != [] {
      QueueCallsAreStageOne(queues, order[..|order| - 1]);
      OneDefinitionIsStageOne(queues[order[|order| - 1]]);
    }
  }

  /** Whatever fails, the calls are made stage by stage, and the exchanges and bindings in the
      order of their lists. */
  lemma CallsComeInStages(f: Faults, s: Session, p: Plan, order: seq<string>, i: nat, j: nat)
    requires IsOrder(order, p.queues.Keys)
    requires |s.log| <= i < j < |Run(f, s, FullPlan(p, order)).session.log|
    ensures var log := Run(f, s, FullPlan(p, order)).session.log;
            Stage(log[i]) <= Stage(log[j])
    ensures var log := Run(f, s, FullPlan(p, order)).session.log;
            i - |s.log| < |p.exchanges| ==> log[i].Declare? && log[i].entity == Exchange(p.exchanges[i - |s.log|].name)
  {
    hide Run;
    var plan, k, l := FullPlan(p, order), i - |s.log|, j - |s.log|;
    var made := RunStopsAtFirstError(f, s, plan);
    var log := Run(f, s, plan).session.log;
    assert log[i] == plan[k] && log[j] == plan[l];
    PlanComesInStages(p, order, k, l);
  }

  lemma PlanComesInStages(p: Plan, order: seq<string>, k: nat, l: nat)
    requires IsOrder(order, p.queues.Keys) && k < l < |FullPlan(p, order)|
    ensures Stage(FullPlan(p, order)[k]) <= Stage(FullPlan(p, order)[l])
    ensures k < |p.exchanges| ==>
              FullPlan(p, order)[k].Declare? && FullPlan(p, order)[k].entity == Exchange(p.exchanges[k].name)
  {
    var a, b := ExchangeCalls(p.exchanges), AllQueueCalls(p.queues, order);
    var c, d := QueueBindCalls(p.queueBindings), ExchangeBindCalls(p.exchangeBindings);
    QueueCallsAreStageOne(p.queues, order);
    assert AllOfStage(a, 0) && AllOfStage(c, 2) && AllOfStage(d, 3);
    StagesConcat(a, b, c, d, k, l);
    assert FullPlan(p, order) == a + b + (c + d);
  }

  lemma StagesConcat(a: seq<Call>, b: seq<Call>, c: seq<Call>, d: seq<Call>, k: nat, l: nat)
    requires AllOfStage(a, 0) && AllOfStage(b, 1) && AllOfStage(c, 2) && AllOfStage(d, 3)
    requires k < l < |a + b + (c + d)|
    ensures Stage((a + b + (c + d))[k]) <= Stage((a + b + (c + d))[l])
  {
    StageAt(a, b, c, d, k);
    StageAt(a, b, c, d, l);
  }

  lemma StageAt(a: seq<Call>, b: seq<Call>, c: seq<Call>, d: seq<Call>, k: nat)
    requires AllOfStage(a, 0) && AllOfStage(b, 1) && AllOfStage(c, 2) && AllOfStage(d, 3)
    requires k < |a + b + (c + d)|
    ensures Stage((a + b + (c + d))[k]) ==
            if k < |a| then 0 else if k < |a| + |b| then 1 else if k < |a| + |b| + |c| then 2 else 3
  {
  }
}
