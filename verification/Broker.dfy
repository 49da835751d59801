/** The broker as the topology code sees it: exchanges and queues with their properties, and
    the declare and bind calls of AMQP 0-9-1 (for queues: sections 1.7.2.1 and 1.7.2.3 of the
    XML reference). Declaring a name again succeeds if the properties agree and is refused
    otherwise; both ends of a binding must exist. */
module Broker {
  import opened Common

  /** The argument names the library writes (`x-dead-letter-exchange`, ...); `Other` is any
      further name a caller passes through. */
  datatype ArgName =
    | DeadLetterExchange
    | DeadLetterRoutingKey
    | MessageTTL
    | RetryCount
    | QueueType
    | MaxLength
    | Other(name: string)

  datatype Arg = Text(text: string) | Number(number: int)
  type Args = map<ArgName, Arg>

  datatype Entity = Exchange(name: string) | Queue(name: string)

  datatype Properties =
    | ExchangeProperties(kind: string, durable: bool, autoDelete: bool, args: Args)
    | QueueProperties(durable: bool, autoDelete: bool, exclusive: bool, args: Args)

  datatype Call =
    | Declare(entity: Entity, properties: Properties)
    | Bind(source: string, destination: Entity, key: string, args: Args)

  datatype Error =
    | Refused(code: int)
    | PreconditionFailed(entity: Entity)
    | NotFound(entity: Entity)
    | NullableChannel

  datatype State = State(entities: map<Entity, Properties>, bindings: set<Call>)
  datatype Session = Session(state: State, log: seq<Call>)
  datatype Outcome = Outcome(session: Session, error: Option<Error>)

  /** Which calls of a channel the broker or the network refuses for reasons of its own,
      by position in the channel's call log. */
  type Faults = nat -> Option<int>

  function NoFaults(): Faults {
    n => None
  }

  function Objection(s: State, c: Call): Option<Error> {
    match c
    case Declare(e, p) =>
      if e in s.entities && s.entities[e] != p then Some(PreconditionFailed(e)) else None
    case Bind(source, destination, _, _) =>
      if Exchange(source) !in s.entities then Some(NotFound(Exchange(source)))
      else if destination !in s.entities then Some(NotFound(destination))
      else None
  }

  function Apply(s: State, c: Call): State {
    if c.Declare? then s.(entities := s.entities[c.entity := c.properties])
    else s.(bindings := s.bindings + {c})
  }

  /** One call on a channel: it is logged; a refused call changes nothing. */
  function Serve(f: Faults, s: Session, c: Call): Outcome {
    var logged := s.(log := s.log + [c]);
    if f(|s.log|).Some? then Outcome(logged, Some(Refused(f(|s.log|).value)))
    else if Objection(s.state, c).Some? then Outcome(logged, Objection(s.state, c))
    else Outcome(logged.(state := Apply(s.state, c)), None)
  }

  /** Calls issued in order, stopping at the first error. */
  function Run(f: Faults, s: Session, calls: seq<Call>): Outcome
    decreases |calls|
  {
    if calls == [] then Outcome(s, None)
    else
      var first := Serve(f, s, calls[0]);
      if first.error.Some? then first else Run(f, first.session, calls[1..])
  }

  lemma {:induction false} RunConcat(f: Faults, s: Session, a: seq<Call>, b: seq<Call>)
    ensures Run(f, s, a + b) ==
            if Run(f, s, a).error.Some? then Run(f, s, a) else Run(f, Run(f, s, a).session, b)
    decreases |a|
  {
    if a == [] {
      assert a + b == b;
    } else {
      assert (a + b)[1..] == a[1..] + b;
      RunConcat(f, Serve(f, s, a[0]).session, a[1..], b);
    }
  }

  lemma RunSnoc(f: Faults, s: Session, a: seq<Call>, c: Call)
    requires Run(f, s, a).error.None?
    ensures Run(f, s, a + [c]) == Serve(f, Run(f, s, a).session, c)
  {
    RunConcat(f, s, a, [c]);
    var first := Serve(f, Run(f, s, a).session, c);
    assert [c][1..] == [];
    assert Run(f, first.session, []) == Outcome(first.session, None);
  }

  /** A run makes a prefix of its calls: all of them, or up to and including the first call
      that fails, whose error it returns. */
  lemma {:induction false} RunStopsAtFirstError(f: Faults, s: Session, calls: seq<Call>) returns (made: nat)
    ensures made <= |calls|
    ensures Run(f, s, calls).session.log == s.log + calls[..made]
    ensures Run(f, s, calls).error.None? ==> made == |calls|
    ensures Run(f, s, calls).error.Some? ==>
              && 0 < made
              && Run(f, s, calls[..made - 1]).error.None?
              && Serve(f, Run(f, s, calls[..made - 1]).session, calls[made - 1]) == Run(f, s, calls)
    decreases |calls|
  {
    if calls == [] {
      made := 0;
      assert s.log + calls[..0] == s.log;
      return;
    }
    var first := Serve(f, s, calls[0]);
    if first.error.Some? {
      made := 1;
      assert calls[..1] == [calls[0]] && calls[..0] == [];
      return;
    }
    var rest := RunStopsAtFirstError(f, first.session, calls[1..]);
    made := rest + 1;
    assert calls[..made] == [calls[0]] + calls[1..][..rest];
    assert s.log + calls[..made] == first.session.log + calls[1..][..rest];
    if Run(f, s, calls).error.Some? {
      assert calls[..made - 1] == [calls[0]] + calls[1..][..rest - 1];
      assert calls[..made - 1][1..] == calls[1..][..rest - 1];
    }
  }

  // What a list of calls says about names.

  ghost predicate Coherent(calls: seq<Call>) {
    forall c, d :: c in calls && d in calls && c.Declare? && d.Declare? && c.entity == d.entity ==> c == d
  }

  ghost predicate Agrees(m: map<Entity, Properties>, calls: seq<Call>) {
    forall c :: c in calls && c.Declare? && c.entity in m ==> m[c.entity] == c.properties
  }

  predicate Anchored(m: map<Entity, Properties>, c: Call) {
    c.Bind? ==> Exchange(c.source) in m && c.destination in m
  }

  ghost predicate Declares(calls: seq<Call>) {
    forall c :: c in calls ==> c.Declare?
  }

  ghost predicate Binds(calls: seq<Call>) {
    forall c :: c in calls ==> c.Bind?
  }

  /** The entities and bindings that a list of calls adds, whatever its order. */
  ghost predicate Merged(m: map<Entity, Properties>, calls: seq<Call>, r: map<Entity, Properties>) {
    && (forall e :: e in r <==> e in m || exists c :: c in calls && c.Declare? && c.entity == e)
    && (forall e :: e in m ==> e in r && r[e] == m[e])
    && (forall c :: c in calls && c.Declare? ==> c.entity in r && r[c.entity] == c.properties)
  }

  /** The broker refuses none of the next `n` calls for reasons of its own. */
  ghost predicate Spares(f: Faults, s: Session, n: nat) {
    forall i: nat :: |s.log| <= i < |s.log| + n ==> f(i).None?
  }

  /** Calls succeed on a broker that may refuse some exactly when it spares these and they
      would succeed without such refusals; and then they have the same outcome. */
  lemma {:induction false} RunSucceedsExactlyWhenSpared(f: Faults, s: Session, calls: seq<Call>)
    ensures Run(f, s, calls).error.None? <==> Spares(f, s, |calls|) && Run(NoFaults(), s, calls).error.None?
    ensures Run(f, s, calls).error.None? ==> Run(f, s, calls) == Run(NoFaults(), s, calls)
    decreases |calls|
  {
    if calls != [] {
      var first := Serve(f, s, calls[0]);
      assert |first.session.log| == |s.log| + 1;
      if first.error.None? {
        RunSucceedsExactlyWhenSpared(f, first.session, calls[1..]);
        assert Spares(f, s, |calls|) <==> Spares(f, first.session, |calls| - 1) by {
          assert f(|s.log|).None?;
        }
      } else if f(|s.log|).Some? {
        assert !Spares(f, s, |calls|);
      }
    }
  }

  lemma {:induction false} SparedDeclarationsAgree(s: Session, calls: seq<Call>)
    requires Declares(calls)
    ensures Run(NoFaults(), s, calls).error.None? <==> Coherent(calls) && Agrees(s.state.entities, calls)
    ensures Run(NoFaults(), s, calls).error.None? ==>
              && Run(NoFaults(), s, calls).session.state.bindings == s.state.bindings
              && Merged(s.state.entities, calls, Run(NoFaults(), s, calls).session.state.entities)
    decreases |calls|
  {
    if calls == [] {
      return;
    }
    var c, rest := calls[0], calls[1..];
    assert forall d :: d in calls <==> d == c || d in rest;
    assert c in calls;
    var m := s.state.entities;
    var first := Serve(NoFaults(), s, c);
    if first.error.Some? {
      assert !Agrees(m, calls);
    } else {
      var m' := first.session.state.entities;
      assert m' == m[c.entity := c.properties];
      SparedDeclarationsAgree(first.session, rest);
      if Coherent(calls) && Agrees(m, calls) {
        forall d | d in rest && d.entity in m'
          ensures m'[d.entity] == d.properties
        {
        }
        assert Coherent(rest) && Agrees(m', rest);
      }
      if Coherent(rest) && Agrees(m', rest) {
        assert Agrees(m, calls);
        forall d | d in rest && d.entity == c.entity
          ensures c == d
        {
        }
        assert Coherent(calls);
      }
    }
  }

  /** A list of declarations succeeds exactly when the broker refuses none of its calls for
      reasons of its own, and the list agrees with itself and with the names already there. It
      then adds exactly what it declares. */
  lemma DeclarationsSucceedExactlyWhenTheyAgree(f: Faults, s: Session, calls: seq<Call>)
    requires Declares(calls)
    ensures Run(f, s, calls).error.None? <==>
            Spares(f, s, |calls|) && Coherent(calls) && Agrees(s.state.entities, calls)
    ensures Run(f, s, calls).error.None? ==>
              && Run(f, s, calls).session.state.bindings == s.state.bindings
              && Merged(s.state.entities, calls, Run(f, s, calls).session.state.entities)
  {
    RunSucceedsExactlyWhenSpared(f, s, calls);
    SparedDeclarationsAgree(s, calls);
  }

  /** Bindings succeed exactly when both ends exist. */
  lemma {:induction false} BindingsSucceedExactlyWhenAnchored(s: Session, calls: seq<Call>)
    requires Binds(calls)
    ensures Run(NoFaults(), s, calls).error.None? <==> forall c :: c in calls ==> Anchored(s.state.entities, c)
    ensures Run(NoFaults(), s, calls).error.None? ==>
              Run(NoFaults(), s, calls).session.state ==
              State(s.state.entities, s.state.bindings + (set c | c in calls))
    decreases |calls|
  {
    if calls == [] {
      return;
    }
    var c, rest := calls[0], calls[1..];
    assert forall d :: d in calls <==> d == c || d in rest;
    assert c in calls;
    var first := Serve(NoFaults(), s, c);
    if first.error.None? {
      BindingsSucceedExactlyWhenAnchored(first.session, rest);
      assert (set d | d in calls) == {c} + (set d | d in rest);
    }
  }

  /** Whatever fails, a run leaves the old names alone and adds only what its calls ask for. */
  lemma {:induction false} RunAddsOnlyWhatItAsksFor(f: Faults, s: Session, calls: seq<Call>)
    ensures var t := Run(f, s, calls).session.state;
            && (forall e :: e in s.state.entities ==> e in t.entities && t.entities[e] == s.state.entities[e])
            && (forall e :: e in t.entities && e !in s.state.entities ==> Declare(e, t.entities[e]) in calls)
            && s.state.bindings <= t.bindings
            && (forall b :: b in t.bindings && b !in s.state.bindings ==> b in calls && b.Bind?)
    decreases |calls|
  {
    if calls != [] {
      assert forall d :: d in calls <==> d == calls[0] || d in calls[1..];
      var first := Serve(f, s, calls[0]);
      if first.error.None? {
        RunAddsOnlyWhatItAsksFor(f, first.session, calls[1..]);
      }
    }
  }

  /** An argument table is passed by reference; the broker sees its content at the call. */
  class Table {
    var entries: Args

    constructor (entries: Args)
      ensures this.entries == entries
    {
      this.entries := entries;
    }

    method Set(key: ArgName, value: Arg)
      modifies this
      ensures entries == old(entries)[key := value]
    {
      entries := entries[key := value];
    }

    method Delete(key: ArgName)
      modifies this
      ensures entries == old(entries) - {key}
    {
      entries := entries - {key};
    }
  }

  class Channel {
    const faults: Faults
    var state: State
    var log: seq<Call>

    function Current(): Session
      reads this
    {
      Session(state, log)
    }

    constructor (faults: Faults, state: State)
      ensures this.faults == faults && Current() == Session(state, [])
    {
      this.faults := faults;
      this.state := state;
      log := [];
    }

    method Issue(c: Call) returns (err: Option<Error>)
      modifies this
      ensures Outcome(Current(), err) == Serve(faults, old(Current()), c)
    {
      var outcome := Serve(faults, Current(), c);
      state, log := outcome.session.state, outcome.session.log;
      err := outcome.error;
    }

    method ExchangeDeclare(name: string, kind: string, durable: bool, autoDelete: bool, params: Args)
      returns (err: Option<Error>)
      modifies this
      ensures Outcome(Current(), err) ==
              Serve(faults, old(Current()),
                    Declare(Exchange(name), ExchangeProperties(kind, durable, autoDelete, params)))
    {
      err := Issue(Declare(Exchange(name), ExchangeProperties(kind, durable, autoDelete, params)));
    }

    method QueueDeclare(name: string, durable: bool, autoDelete: bool, exclusive: bool, args: Table)
      returns (err: Option<Error>)
      modifies this
      ensures Outcome(Current(), err) ==
              Serve(faults, old(Current()),
                    Declare(Queue(name), QueueProperties(durable, autoDelete, exclusive, args.entries)))
    {
      err := Issue(Declare(Queue(name), QueueProperties(durable, autoDelete, exclusive, args.entries)));
    }

    method QueueBind(queue: string, key: string, exchange: string, args: Args) returns (err: Option<Error>)
      modifies this
      ensures Outcome(Current(), err) == Serve(faults, old(Current()), Bind(exchange, Queue(queue), key, args))
    {
      err := Issue(Bind(exchange, Queue(queue), key, args));
    }

    method ExchangeBind(destination: string, key: string, source: string, args: Args)
      returns (err: Option<Error>)
      modifies this
      ensures Outcome(Current(), err) == Serve(faults, old(Current()), Bind(source, Exchange(destination), key, args))
    {
      err := Issue(Bind(source, Exchange(destination), key, args));
    }
  }
}
