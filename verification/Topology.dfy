/** Topology declaration (topology.go). `Plan` is the content of a topology, `FullPlan` the
    calls it stands for in one iteration order of the queue map, and the `Topology` class the
    loops that issue them, with the argument table that two declarations share. */
module Topologies {
  import opened Common
  import opened Broker
  import Q = Queues

  datatype ExchangeDefinition =
    ExchangeDefinition(name: string, kind: string, durable: bool, autoDelete: bool, params: Args)
  datatype QueueBinding = QueueBinding(queue: string, key: string, exchange: string, args: Args)
  datatype ExchangeBinding = ExchangeBinding(destination: string, key: string, source: string, args: Args)

  datatype Plan = Plan(
    exchanges: seq<ExchangeDefinition>, queues: map<string, Q.Queue>,
    queueBindings: seq<QueueBinding>, exchangeBindings: seq<ExchangeBinding>)

  // The three argument tables of one definition, each written down on its own.

  /** Whole milliseconds, rounding toward zero. */
  function Milliseconds(nanoseconds: int): int {
    if nanoseconds < 0 then -(-nanoseconds / 1_000_000) else nanoseconds / 1_000_000
  }

  function RetryArgs(q: Q.Queue): Args {
    map[DeadLetterExchange := Text(""), DeadLetterRoutingKey := Text(q.name),
        MessageTTL := Number(Milliseconds(q.retryTTL)), RetryCount := Number(q.retries), QueueType := Text(q.QueueType())]
  }

  /** What the DLQ and the queue itself have in common. */
  function DeadLetterArgs(q: Q.Queue): Args {
    var base: Args := map[QueueType := Text(q.QueueType())];
    if !q.withDLQ then base
    else base[DeadLetterExchange := Text("")]
             [DeadLetterRoutingKey := Text(if q.withRetry then q.RetryName() else q.DLQName())]
  }

  function Limited(args: Args, limited: bool, length: int): Args {
    if limited then args[MaxLength := Number(length)] else args
  }

  function DlqArgs(q: Q.Queue): Args {
    Limited(DeadLetterArgs(q), q.withDLQMaxLength, q.dlqMaxLength)
  }

  /** Without a DLQ to spend it on, the DLQ's length limit stays in the shared table. */
  function MainArgs(q: Q.Queue): Args {
    if q.withMaxLength then Limited(DeadLetterArgs(q), true, q.maxLength)
    else Limited(DeadLetterArgs(q), !q.withDLQ && q.withDLQMaxLength, q.dlqMaxLength)
  }

  lemma LimitIsUndone(q: Q.Queue)
    ensures DlqArgs(q) - {MaxLength} == DeadLetterArgs(q)
    ensures Limited(DlqArgs(q), true, q.maxLength) == Limited(DeadLetterArgs(q), true, q.maxLength)
  {
  }

  function QueueCall(q: Q.Queue, name: string, args: Args): Call {
    Declare(Queue(name), QueueProperties(q.durable, q.autoDelete, q.exclusive, args))
  }

  function RetryCalls(q: Q.Queue): seq<Call> {
    if q.withRetry then [QueueCall(q, q.RetryName(), RetryArgs(q))] else []
  }

  function DlqCalls(q: Q.Queue): seq<Call> {
    if q.withDLQ then [QueueCall(q, q.DLQName(), DlqArgs(q))] else []
  }

  function MainCall(q: Q.Queue): Call {
    QueueCall(q, q.name, MainArgs(q))
  }

  function QueueCalls(q: Q.Queue): seq<Call> {
    RetryCalls(q) + DlqCalls(q) + [MainCall(q)]
  }

  // The calls of a whole topology.

  ghost predicate IsOrder(order: seq<string>, keys: set<string>) {
    && (forall k :: k in order <==> k in keys)
    && (forall i, j :: 0 <= i < j < |order| ==> order[i] != order[j])
  }

  ghost predicate Keyed(queues: map<string, Q.Queue>) {
    forall k :: k in queues ==> queues[k].name == k
  }

  ghost function AllQueueCalls(queues: map<string, Q.Queue>, order: seq<string>): seq<Call>
    requires forall k :: k in order ==> k in queues
  {
    if order == [] then []
    else AllQueueCalls(queues, order[..|order| - 1]) + QueueCalls(queues[order[|order| - 1]])
  }

  function ExchangeCalls(es: seq<ExchangeDefinition>): seq<Call> {
    seq(|es|, i requires 0 <= i < |es| =>
      Declare(Exchange(es[i].name), ExchangeProperties(es[i].kind, es[i].durable, es[i].autoDelete, es[i].params)))
  }

  function QueueBindCalls(bs: seq<QueueBinding>): seq<Call> {
    seq(|bs|, i requires 0 <= i < |bs| => Bind(bs[i].exchange, Queue(bs[i].queue), bs[i].key, bs[i].args))
  }

  function ExchangeBindCalls(bs: seq<ExchangeBinding>): seq<Call> {
    seq(|bs|, i requires 0 <= i < |bs| => Bind(bs[i].source, Exchange(bs[i].destination), bs[i].key, bs[i].args))
  }

  ghost function DeclareCalls(p: Plan, order: seq<string>): seq<Call>
    requires IsOrder(order, p.queues.Keys)
  {
    ExchangeCalls(p.exchanges) + AllQueueCalls(p.queues, order)
  }

  function BindCalls(p: Plan): seq<Call> {
    QueueBindCalls(p.queueBindings) + ExchangeBindCalls(p.exchangeBindings)
  }

  ghost function FullPlan(p: Plan, order: seq<string>): seq<Call>
    requires IsOrder(order, p.queues.Keys)
  {
    DeclareCalls(p, order) + BindCalls(p)
  }

  lemma CallKinds(p: Plan, order: seq<string>)
    requires IsOrder(order, p.queues.Keys)
    ensures Declares(DeclareCalls(p, order)) && Binds(BindCalls(p))
  {
    QueueCallsAreDeclares(p.queues, order);
  }

  lemma {:induction false} QueueCallsAreDeclares(queues: map<string, Q.Queue>, order: seq<string>)
    requires forall k :: k in order ==> k in queues
    ensures Declares(AllQueueCalls(queues, order))
  {
    if order != [] {
      QueueCallsAreDeclares(queues, order[..|order| - 1]);
    }
  }

  lemma {:induction false} AllQueueCallsMember(queues: map<string, Q.Queue>, order: seq<string>, c: Call)
    requires forall k :: k in order ==> k in queues
    ensures c in AllQueueCalls(queues, order) <==> exists k :: k in order && c in QueueCalls(queues[k])
  {
    if order != [] {
      var front, last := order[..|order| - 1], order[|order| - 1];
      assert order == front + [last];
      AllQueueCallsMember(queues, front, c);
    }
  }

  // Running a list of calls one by one.

  lemma RunFailsEarly(f: Faults, s: Session, calls: seq<Call>, k: nat)
    requires k <= |calls| && Run(f, s, calls[..k]).error.Some?
    ensures Run(f, s, calls) == Run(f, s, calls[..k])
  {
    assert calls == calls[..k] + calls[k..];
    RunConcat(f, s, calls[..k], calls[k..]);
  }

  lemma RunNext(f: Faults, s: Session, calls: seq<Call>, k: nat)
    requires k < |calls| && Run(f, s, calls[..k]).error.None?
    ensures Run(f, s, calls[..k + 1]) == Serve(f, Run(f, s, calls[..k]).session, calls[k])
  {
    assert calls[..k + 1] == calls[..k] + [calls[k]];
    RunSnoc(f, s, calls[..k], calls[k]);
  }

  class Topology {
    var queues: map<string, Q.QueueDefinition>
    var queuesBinding: seq<QueueBinding>
    var exchanges: seq<ExchangeDefinition>
    var exchangesBinding: seq<ExchangeBinding>

    constructor ()
      ensures queues == map[] && queuesBinding == [] && exchanges == [] && exchangesBinding == []
    {
      queues, queuesBinding, exchanges, exchangesBinding := map[], [], [], [];
    }

    ghost predicate Valid()
      reads this
    {
      forall k :: k in queues ==> queues[k].name == k
    }

    ghost function Definitions(): (m: map<string, Q.Queue>)
      reads this, queues.Values
      ensures Valid() ==> Keyed(m)
    {
      map k | k in queues :: queues[k].Value()
    }

    ghost function Contents(): Plan
      reads this, queues.Values
    {
      Plan(exchanges, Definitions(), queuesBinding, exchangesBinding)
    }

    method Queue(q: Q.QueueDefinition)
      requires Valid()
      modifies this
      ensures Valid()
      ensures Contents() == old(Contents()).(queues := old(Definitions())[q.name := q.Value()])
    {
      queues := queues[q.name := q];
    }

    method Queues(qs: seq<Q.QueueDefinition>)
      requires Valid()
      modifies this
      ensures Valid()
      ensures forall k :: k in queues <==> k in old(queues) || exists q :: q in qs && q.name == k
      ensures forall k :: k in queues && (forall q :: q in qs ==> q.name != k) ==> queues[k] == old(queues)[k]
      ensures forall i :: 0 <= i < |qs| && (forall j :: i < j < |qs| ==> qs[j].name != qs[i].name) ==>
                            queues[qs[i].name] == qs[i]
      ensures queuesBinding == old(queuesBinding) && exchanges == old(exchanges)
      ensures exchangesBinding == old(exchangesBinding)
    {
      for i := 0 to |qs|
        invariant Valid()
        invariant forall k :: k in queues <==> k in old(queues) || exists q :: q in qs[..i] && q.name == k
        invariant forall k :: k in queues && (forall q :: q in qs[..i] ==> q.name != k) ==> queues[k] == old(queues)[k]
        invariant forall a :: 0 <= a < i && (forall j :: a < j < i ==> qs[j].name != qs[a].name) ==>
                                queues[qs[a].name] == qs[a]
        invariant queuesBinding == old(queuesBinding) && exchanges == old(exchanges)
        invariant exchangesBinding == old(exchangesBinding)
      {
        assert qs[..i + 1] == qs[..i] + [qs[i]];
        queues := queues[qs[i].name := qs[i]];
      }
      assert qs[..|qs|] == qs;
    }

    method Exchange(e: ExchangeDefinition)
      modifies this
      ensures Contents() == old(Contents()).(exchanges := old(exchanges) + [e])
      ensures queues == old(queues)
    {
      exchanges := exchanges + [e];
    }

    method QueueBinding(b: QueueBinding)
      modifies this
      ensures Contents() == old(Contents()).(queueBindings := old(queuesBinding) + [b])
      ensures queues == old(queues)
    {
      queuesBinding := queuesBinding + [b];
    }

    method ExchangeBinding(b: ExchangeBinding)
      modifies this
      ensures Contents() == old(Contents()).(exchangeBindings := old(exchangesBinding) + [b])
      ensures queues == old(queues)
    {
      exchangesBinding := exchangesBinding + [b];
    }

    method DeclareExchanges(ch: Channel) returns (err: Option<Error>)
      modifies ch
      ensures Outcome(ch.Current(), err) == Run(ch.faults, old(ch.Current()), ExchangeCalls(exchanges))
    {
      ghost var calls := ExchangeCalls(exchanges);
      for i := 0 to |exchanges|
        invariant Outcome(ch.Current(), None) == Run(ch.faults, old(ch.Current()), calls[..i])
      {
        var e := exchanges[i];
        RunNext(ch.faults, old(ch.Current()), calls, i);
        err := ch.ExchangeDeclare(e.name, e.kind, e.durable, e.autoDelete, e.params);
        if err.Some? {
          RunFailsEarly(ch.faults, old(ch.Current()), calls, i + 1);
          return;
        }
      }
      assert calls[..|calls|] == calls;
      err := None;
    }

    method DeclareRetryQueue(queue: Q.QueueDefinition, ch: Channel) returns (err: Option<Error>)
      modifies ch
      ensures Outcome(ch.Current(), err) == Run(ch.faults, old(ch.Current()), RetryCalls(queue.Value()))
    {
      err := None;
      if queue.withRetry {
        var table := new Table(map[
          DeadLetterExchange := Text(""), DeadLetterRoutingKey := Text(queue.name),
          MessageTTL := Number(Milliseconds(queue.retryTTL)),
          RetryCount := Number(queue.retries),
          QueueType := Text(if queue.quorum then "quorum" else "classic")]);
        RunOne(ch.faults, ch.Current(), QueueCall(queue.Value(), queue.Value().RetryName(), table.entries));
        err := ch.QueueDeclare(queue.name + "-retry", queue.durable, queue.autoDelete, queue.exclusive, table);
      }
    }

    /** The table for the DLQ, which the queue itself will be declared from as well. */
    method DeadLetterTable(queue: Q.QueueDefinition) returns (opts: Table)
      ensures fresh(opts) && opts.entries == DlqArgs(queue.Value())
    {
      opts := new Table(map[QueueType := Text(if queue.quorum then "quorum" else "classic")]);
      if queue.withDLQ && queue.withRetry {
        opts.Set(DeadLetterExchange, Text(""));
        opts.Set(DeadLetterRoutingKey, Text(queue.name + "-retry"));
      }
      if queue.withDLQ && !queue.withRetry {
        opts.Set(DeadLetterExchange, Text(""));
        opts.Set(DeadLetterRoutingKey, Text(queue.name + "-dlq"));
      }
      if queue.withDLQMaxLength {
        opts.Set(MaxLength, Number(queue.dlqMaxLength));
      }
    }

    /** The DLQ and the queue are declared from one table, edited in between. */
    method DeclareQueueAndDlq(queue: Q.QueueDefinition, ch: Channel) returns (err: Option<Error>)
      modifies ch
      ensures Outcome(ch.Current(), err) ==
              Run(ch.faults, old(ch.Current()), DlqCalls(queue.Value()) + [MainCall(queue.Value())])
    {
      ghost var q := queue.Value();
      var opts := DeadLetterTable(queue);
      LimitIsUndone(q);
      RunConcat(ch.faults, ch.Current(), DlqCalls(q), [MainCall(q)]);
      if queue.withDLQ {
        RunOne(ch.faults, ch.Current(), QueueCall(q, q.DLQName(), opts.entries));
        err := ch.QueueDeclare(queue.name + "-dlq", queue.durable, queue.autoDelete, queue.exclusive, opts);
        if err.Some? {
          return;
        }
        opts.Delete(MaxLength);
      }
      if queue.withMaxLength {
        opts.Set(MaxLength, Number(queue.maxLength));
      }
      assert opts.entries == MainArgs(q);
      RunOne(ch.faults, ch.Current(), MainCall(q));
      err := ch.QueueDeclare(queue.name, queue.durable, queue.autoDelete, queue.exclusive, opts);
    }

    /** One turn of the queue loop. */
    method DeclareQueue(queue: Q.QueueDefinition, ch: Channel) returns (err: Option<Error>)
      modifies ch
      ensures Outcome(ch.Current(), err) == Run(ch.faults, old(ch.Current()), QueueCalls(queue.Value()))
    {
      ghost var q := queue.Value();
      assert QueueCalls(q) == RetryCalls(q) + (DlqCalls(q) + [MainCall(q)]);
      RunConcat(ch.faults, ch.Current(), RetryCalls(q), DlqCalls(q) + [MainCall(q)]);
      err := DeclareRetryQueue(queue, ch);
      if err.None? {
        err := DeclareQueueAndDlq(queue, ch);
      }
    }

    /** The keys of the queue map, in an order of the run time's choosing. */
    method IterationOrder() returns (order: seq<string>)
      ensures IsOrder(order, queues.Keys)
    {
      order := [];
      var rest := queues.Keys;
      while rest != {}
        invariant rest <= queues.Keys
        invariant IsOrder(order, queues.Keys - rest)
        decreases rest
      {
        var k :| k in rest;
        order, rest := order + [k], rest - {k};
      }
    }

    /** The queue loop, in the order given. */
    method DeclareInOrder(ch: Channel, order: seq<string>, ghost defs: map<string, Q.Queue>)
      returns (err: Option<Error>)
      requires forall k :: k in order ==> k in queues && k in defs && queues[k].Value() == defs[k]
      modifies ch
      ensures Outcome(ch.Current(), err) == Run(ch.faults, old(ch.Current()), AllQueueCalls(defs, order))
    {
      hide Run;
      ghost var f, s0 := ch.faults, ch.Current();
      err := None;
      assert AllQueueCalls(defs, order[..0]) == [];
      RunNothing(f, s0);
      for i := 0 to |order|
        invariant Outcome(ch.Current(), None) == Run(f, s0, AllQueueCalls(defs, order[..i]))
        invariant forall k :: k in order ==> queues[k].Value() == defs[k]
      {
        RunNextQueue(f, s0, defs, order, i);
        err := DeclareQueue(queues[order[i]], ch);
        if err.Some? {
          PrefixFails(f, s0, defs, order, i + 1);
          return;
        }
      }
      PrefixSucceeds(f, s0, defs, order);
      err := None;
    }

    method DeclareQueues(ch: Channel) returns (err: Option<Error>, order: seq<string>)
      modifies ch
      ensures IsOrder(order, queues.Keys)
      ensures Outcome(ch.Current(), err) == Run(ch.faults, old(ch.Current()), AllQueueCalls(old(Definitions()), order))
    {
      order := IterationOrder();
      err := DeclareInOrder(ch, order, Definitions());
    }

    method BindQueues(ch: Channel) returns (err: Option<Error>)
      modifies ch
      ensures Outcome(ch.Current(), err) == Run(ch.faults, old(ch.Current()), QueueBindCalls(queuesBinding))
    {
      ghost var calls := QueueBindCalls(queuesBinding);
      for i := 0 to |queuesBinding|
        invariant Outcome(ch.Current(), None) == Run(ch.faults, old(ch.Current()), calls[..i])
      {
        var b := queuesBinding[i];
        RunNext(ch.faults, old(ch.Current()), calls, i);
        err := ch.QueueBind(b.queue, b.key, b.exchange, b.args);
        if err.Some? {
          RunFailsEarly(ch.faults, old(ch.Current()), calls, i + 1);
          return;
        }
      }
      assert calls[..|calls|] == calls;
      err := None;
    }

    method BindExchanges(ch: Channel) returns (err: Option<Error>)
      modifies ch
      ensures Outcome(ch.Current(), err) == Run(ch.faults, old(ch.Current()), ExchangeBindCalls(exchangesBinding))
    {
      ghost var calls := ExchangeBindCalls(exchangesBinding);
      for i := 0 to |exchangesBinding|
        invariant Outcome(ch.Current(), None) == Run(ch.faults, old(ch.Current()), calls[..i])
      {
        var b := exchangesBinding[i];
        RunNext(ch.faults, old(ch.Current()), calls, i);
        err := ch.ExchangeBind(b.destination, b.key, b.source, b.args);
        if err.Some? {
          RunFailsEarly(ch.faults, old(ch.Current()), calls, i + 1);
          return;
        }
      }
      assert calls[..|calls|] == calls;
      err := None;
    }

    /** Exchanges, queues, queue bindings, exchange bindings: the outcome is that of issuing
        the full plan, in some order of the queue map, up to its first error. */
    method DeclareAndBindings(ch: Channel?) returns (err: Option<Error>, order: seq<string>)
      modifies ch
      ensures IsOrder(order, queues.Keys)
      ensures ch == null ==> err == Some(NullableChannel)
      ensures ch != null ==>
                Outcome(ch.Current(), err) == Run(ch.faults, old(ch.Current()), FullPlan(old(Contents()), order))
    {
      hide Run, FullPlan;
      order := [];
      if ch == null {
        order := IterationOrder();
        return Some(NullableChannel), order;
      }
      ghost var f, s0, p := ch.faults, ch.Current(), Contents();
      err := DeclareExchanges(ch);
      if err.Some? {
        order := IterationOrder();
        RunInStages(f, s0, p, order);
        return;
      }
      err, order := DeclareQueues(ch);
      RunInStages(f, s0, p, order);
      if err.Some? {
        return;
      }
      err := BindQueues(ch);
      if err.None? {
        err := BindExchanges(ch);
      }
    }
  }

  lemma PrefixSucceeds(f: Faults, s: Session, queues: map<string, Q.Queue>, order: seq<string>)
    requires forall n :: n in order ==> n in queues
    ensures Run(f, s, AllQueueCalls(queues, order[..|order|])) == Run(f, s, AllQueueCalls(queues, order))
  {
    assert order[..|order|] == order;
  }

  lemma RunNothing(f: Faults, s: Session)
    ensures Run(f, s, []) == Outcome(s, None)
  {
  }

  lemma RunOne(f: Faults, s: Session, c: Call)
    ensures Run(f, s, [c]) == Serve(f, s, c)
  {
    RunSnoc(f, s, [], c);
    assert [] + [c] == [c];
  }

  lemma RunNextQueue(f: Faults, s: Session, queues: map<string, Q.Queue>, order: seq<string>, i: nat)
    requires forall k :: k in order ==> k in queues
    requires i < |order| && Run(f, s, AllQueueCalls(queues, order[..i])).error.None?
    ensures Run(f, s, AllQueueCalls(queues, order[..i + 1])) ==
            Run(f, Run(f, s, AllQueueCalls(queues, order[..i])).session, QueueCalls(queues[order[i]]))
  {
    assert order[..i + 1][..i] == order[..i];
    RunConcat(f, s, AllQueueCalls(queues, order[..i]), QueueCalls(queues[order[i]]));
  }

  ghost function Then(f: Faults, o: Outcome, calls: seq<Call>): Outcome {
    if o.error.Some? then o else Run(f, o.session, calls)
  }

  lemma RunInStages(f: Faults, s: Session, p: Plan, order: seq<string>)
    requires IsOrder(order, p.queues.Keys)
    ensures Run(f, s, FullPlan(p, order)) ==
            Then(f, Then(f, Then(f, Run(f, s, ExchangeCalls(p.exchanges)), AllQueueCalls(p.queues, order)),
                         QueueBindCalls(p.queueBindings)), ExchangeBindCalls(p.exchangeBindings))
  {
    var declared := Run(f, s, DeclareCalls(p, order));
    RunConcat(f, s, ExchangeCalls(p.exchanges), AllQueueCalls(p.queues, order));
    RunConcat(f, s, DeclareCalls(p, order), BindCalls(p));
    RunConcat(f, declared.session, QueueBindCalls(p.queueBindings), ExchangeBindCalls(p.exchangeBindings));
  }

  lemma {:induction false} PrefixFails(f: Faults, s: Session, queues: map<string, Q.Queue>, order: seq<string>, k: nat)
    requires forall n :: n in order ==> n in queues
    requires k <= |order| && Run(f, s, AllQueueCalls(queues, order[..k])).error.Some?
    ensures Run(f, s, AllQueueCalls(queues, order)) == Run(f, s, AllQueueCalls(queues, order[..k]))
    decreases |order|
  {
    if k < |order| {
      var front := order[..|order| - 1];
      assert front[..k] == order[..k];
      PrefixFails(f, s, queues, front, k);
      RunConcat(f, s, AllQueueCalls(queues, front), QueueCalls(queues[order[|order| - 1]]));
    } else {
      assert order[..k] == order;
    }
  }
}
