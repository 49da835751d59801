/** The dispatcher (dispatcher.go): the handler registry and the treatment of one delivery. */
module Dispatchers {
  import opened Common
  import opened Deliveries
  import Q = Queues

  // Kinds of consumer definition, numbered as in the source.
  const BY_TYPE := 1
  const BY_EXCHANGE := 2
  const BY_ROUTING_KEY := 3
  const BY_EXCHANGE_ROUTING_KEY := 4

  datatype ConsumerDefinition = ConsumerDefinition(
    typ: int, queue: string, exchange: string, routingKey: string, msgType: string, handler: nat)

  // Message types by reflection: one pointer is looked through.

  datatype GoType = Named(name: string) | Pointer(element: GoType)

  function TypeName(t: GoType): string {
    match t
    case Named(n) => n
    case Pointer(e) => "*" + TypeName(e)
  }

  function MessageType(t: GoType): string {
    TypeName(if t.Pointer? then t.element else t)
  }

  // The registry as a value.

  datatype Registration =
    | ByType(queue: string, msg: Option<GoType>, handler: nat)
    | ByExchange(queue: string, msg: Option<GoType>, exchange: string, handler: nat)
    | ByRoutingKey(queue: string, msg: Option<GoType>, routingKey: string, handler: nat)
    | ByExchangeRoutingKey(queue: string, msg: Option<GoType>, exchange: string, routingKey: string, handler: nat)

  datatype RegistrationError = InvalidParams | AlreadyRegistered | QueueDefinitionNotFound

  datatype Registry = Registry(known: set<string>, entries: map<string, seq<ConsumerDefinition>>)
  datatype Registered = Registered(registry: Registry, error: Option<RegistrationError>)

  function EntriesOf(r: Registry, queue: string): seq<ConsumerDefinition> {
    if queue in r.entries then r.entries[queue] else []
  }

  predicate Malformed(c: Registration) {
    || c.msg.None?
    || c.queue == ""
    || ((c.ByExchange? || c.ByExchangeRoutingKey?) && c.exchange == "")
    || ((c.ByRoutingKey? || c.ByExchangeRoutingKey?) && c.routingKey == "")
  }

  predicate HasType(defs: seq<ConsumerDefinition>, msgType: string) {
    exists i :: 0 <= i < |defs| && defs[i].msgType == msgType
  }

  function Entry(c: Registration): ConsumerDefinition
    requires c.msg.Some?
  {
    var t := MessageType(c.msg.value);
    match c
    case ByType(q, _, h) => ConsumerDefinition(BY_TYPE, q, "", "", t, h)
    case ByExchange(q, _, e, h) => ConsumerDefinition(BY_EXCHANGE, q, e, "", t, h)
    case ByRoutingKey(q, _, k, h) => ConsumerDefinition(BY_ROUTING_KEY, q, "", k, t, h)
    case ByExchangeRoutingKey(q, _, e, k, h) => ConsumerDefinition(BY_EXCHANGE_ROUTING_KEY, q, e, k, t, h)
  }

  /** Only a registration by exchange and routing key may repeat a message type. */
  function Register(r: Registry, c: Registration): Registered {
    if Malformed(c) then Registered(r, Some(InvalidParams))
    else if !c.ByExchangeRoutingKey? && HasType(EntriesOf(r, c.queue), MessageType(c.msg.value))
      then Registered(r, Some(AlreadyRegistered))
    else if c.queue !in r.known then Registered(r, Some(QueueDefinitionNotFound))
    else Registered(r.(entries := r.entries[c.queue := EntriesOf(r, c.queue) + [Entry(c)]]), None)
  }

  // Resolution.

  datatype Resolution = Chosen(def: ConsumerDefinition) | NoConsumer | UnknownKind

  predicate KnownKind(def: ConsumerDefinition) {
    def.typ in {BY_TYPE, BY_EXCHANGE, BY_ROUTING_KEY, BY_EXCHANGE_ROUTING_KEY}
  }

  predicate Matches(def: ConsumerDefinition, m: Metadata) {
    || (def.typ == BY_TYPE && def.msgType == m.typ)
    || (def.typ == BY_EXCHANGE && def.exchange == m.originExchange)
    || (def.typ == BY_ROUTING_KEY && def.routingKey == m.routingKey)
    || (def.typ == BY_EXCHANGE_ROUTING_KEY && def.exchange == m.originExchange && def.routingKey == m.routingKey)
  }

  function Resolve(defs: seq<ConsumerDefinition>, m: Metadata): Resolution {
    if defs == [] then NoConsumer
    else if !KnownKind(defs[0]) then UnknownKind
    else if Matches(defs[0], m) then Chosen(defs[0])
    else Resolve(defs[1..], m)
  }

  // One delivery.

  datatype HandlerResult = Success | RetryableError | OtherError

  /** What is done about a delivery, always about its own tag. `PublishDlq` is an attempt. */
  datatype Action =
    | Invoke(handler: nat, metadata: Metadata)
    | Ack(multiple: bool)
    | Nack(multiple: bool, requeue: bool)
    | PublishDlq(key: string)

  datatype Verdict =
    | Unmatched | Undecodable | LimitReached | Succeeded | SentToRetry | Failed | FailedWithoutDlq

  function Judge(q: Q.Queue, defs: seq<ConsumerDefinition>, d: Delivery, m: Metadata, r: HandlerResult): Verdict {
    var chosen := Resolve(defs, m);
    if !chosen.Chosen? then Unmatched
    else if chosen.def.msgType !in d.decodesAs then Undecodable
    else if q.withRetry && m.xCount >= q.retries then LimitReached
    else if r.Success? then Succeeded
    else if q.withRetry && r.RetryableError? then SentToRetry
    else if q.withDLQ then Failed
    else FailedWithoutDlq
  }

  predicate Invokes(v: Verdict) {
    v.Succeeded? || v.SentToRetry? || v.Failed? || v.FailedWithoutDlq?
  }

  function Settlement(q: Q.Queue, v: Verdict): seq<Action> {
    match v
    case Unmatched => [Ack(false)]
    case Undecodable => [Nack(true, false)]
    case LimitReached => [Ack(false), PublishDlq(q.dqlName)]
    case Succeeded => [Ack(true)]
    case SentToRetry => [Nack(false, false)]
    case Failed => [Ack(false), PublishDlq(q.dqlName)]
    case FailedWithoutDlq => [Ack(false), Ack(true)]
  }

  function Actions(q: Q.Queue, defs: seq<ConsumerDefinition>, d: Delivery, r: HandlerResult): seq<Action> {
    match Extract(d)
    case Panic => []
    case Extracted(m) =>
      var v := Judge(q, defs, d, m, r);
      (if Invokes(v) then [Invoke(Resolve(defs, m).def.handler, m)] else []) + Settlement(q, v)
  }

  /** The channel a delivery is answered on, as the sequence of what was sent on it. */
  class Replies {
    var sent: seq<Action>

    constructor ()
      ensures sent == []
    {
      sent := [];
    }

    method Send(a: Action)
      modifies this
      ensures sent == old(sent) + [a]
    {
      sent := sent + [a];
    }
  }

  class Dispatcher {
    const queueDefinitions: map<string, Q.QueueDefinition>
    var consumersDefinition: map<string, seq<ConsumerDefinition>>

    function Contents(): Registry
      reads this
    {
      Registry(queueDefinitions.Keys, consumersDefinition)
    }

    constructor (definitions: seq<Q.QueueDefinition>)
      ensures Contents().entries == map[]
      ensures forall n :: n in Contents().known <==> exists i :: 0 <= i < |definitions| && definitions[i].name == n
      ensures forall n :: n in queueDefinitions ==> queueDefinitions[n].name == n
      ensures forall i :: 0 <= i < |definitions| && (forall j :: i < j < |definitions| ==> definitions[j].name != definitions[i].name) ==>
                            queueDefinitions[definitions[i].name] == definitions[i]
    {
      var defs: map<string, Q.QueueDefinition> := map[];
      for i := 0 to |definitions|
        invariant forall n :: n in defs <==> exists j :: 0 <= j < i && definitions[j].name == n
        invariant forall n :: n in defs ==> defs[n].name == n
        invariant forall a :: 0 <= a < i && (forall j :: a < j < i ==> definitions[j].name != definitions[a].name) ==>
                                defs[definitions[a].name] == definitions[a]
      {
        defs := defs[definitions[i].name := definitions[i]];
      }
      queueDefinitions := defs;
      consumersDefinition := map[];
    }

    method Consumers(queue: string) returns (defs: seq<ConsumerDefinition>)
      ensures defs == EntriesOf(Contents(), queue)
    {
      defs := if queue in consumersDefinition then consumersDefinition[queue] else [];
    }

    method TypeIsTaken(defs: seq<ConsumerDefinition>, msgType: string) returns (taken: bool)
      ensures taken == HasType(defs, msgType)
    {
      for i := 0 to |defs|
        invariant !HasType(defs[..i], msgType)
      {
        if defs[i].msgType == msgType {
          return true;
        }
      }
      assert defs[..|defs|] == defs;
      return false;
    }

    method RegisterByType(queue: string, msg: Option<GoType>, handler: nat) returns (err: Option<RegistrationError>)
      modifies this
      ensures Registered(Contents(), err) == Register(old(Contents()), ByType(queue, msg, handler))
    {
      if msg.None? || queue == "" {
        return Some(InvalidParams);
      }
      var msgType := MessageType(msg.value);
      var consumers := Consumers(queue);
      var taken := TypeIsTaken(consumers, msgType);
      if taken {
        return Some(AlreadyRegistered);
      }
      if queue !in queueDefinitions {
        return Some(QueueDefinitionNotFound);
      }
      consumersDefinition := consumersDefinition[queue :=
        consumers + [ConsumerDefinition(BY_TYPE, queue, "", "", msgType, handler)]];
      return None;
    }

    method RegisterByExchange(queue: string, msg: Option<GoType>, exchange: string, handler: nat)
      returns (err: Option<RegistrationError>)
      modifies this
      ensures Registered(Contents(), err) == Register(old(Contents()), ByExchange(queue, msg, exchange, handler))
    {
      if msg.None? || queue == "" || exchange == "" {
        return Some(InvalidParams);
      }
      var msgType := MessageType(msg.value);
      var consumers := Consumers(queue);
      var taken := TypeIsTaken(consumers, msgType);
      if taken {
        return Some(AlreadyRegistered);
      }
      if queue !in queueDefinitions {
        return Some(QueueDefinitionNotFound);
      }
      consumersDefinition := consumersDefinition[queue :=
        consumers + [ConsumerDefinition(BY_EXCHANGE, queue, exchange, "", msgType, handler)]];
      return None;
    }

    method RegisterByRoutingKey(queue: string, msg: Option<GoType>, routingKey: string, handler: nat)
      returns (err: Option<RegistrationError>)
      modifies this
      ensures Registered(Contents(), err) == Register(old(Contents()), ByRoutingKey(queue, msg, routingKey, handler))
    {
      if msg.None? || queue == "" || routingKey == "" {
        return Some(InvalidParams);
      }
      var msgType := MessageType(msg.value);
      var consumers := Consumers(queue);
      var taken := TypeIsTaken(consumers, msgType);
      if taken {
        return Some(AlreadyRegistered);
      }
      if queue !in queueDefinitions {
        return Some(QueueDefinitionNotFound);
      }
      consumersDefinition := consumersDefinition[queue :=
        consumers + [ConsumerDefinition(BY_ROUTING_KEY, queue, "", routingKey, msgType, handler)]];
      return None;
    }

    method RegisterByExchangeRoutingKey(queue: string, msg: Option<GoType>, exchange: string, routingKey: string,
                                        handler: nat)
      returns (err: Option<RegistrationError>)
      modifies this
      ensures Registered(Contents(), err) ==
              Register(old(Contents()), ByExchangeRoutingKey(queue, msg, exchange, routingKey, handler))
    {
      if msg.None? || queue == "" || exchange == "" || routingKey == "" {
        return Some(InvalidParams);
      }
      var msgType := MessageType(msg.value);
      if queue !in queueDefinitions {
        return Some(QueueDefinitionNotFound);
      }
      var consumers := Consumers(queue);
      consumersDefinition := consumersDefinition[queue :=
        consumers + [ConsumerDefinition(BY_EXCHANGE_ROUTING_KEY, queue, exchange, routingKey, msgType, handler)]];
      return None;
    }

    /** The source reads a lone death and the last of several by two branches of the same text. */
    method ExtractMetadata(d: Delivery) returns (r: Extraction)
      ensures r == Extract(d)
    {
      var exchange, routingKey, xCount := d.exchange, d.routingKey, 0;
      if XDeath in d.headers {
        var tables := ItemsOf(d.headers[XDeath]);
        if |tables| == 0 {
          return Panic;
        }
        var lastTable := TableOf(tables[0]);
        xCount := LongAt(lastTable, Count);
        if |tables| == 1 {
          exchange := TextAt(lastTable, ExchangeName);
          if RoutingKeys in lastTable {
            var keys := ItemsOf(lastTable[RoutingKeys]);
            if |keys| > 0 && keys[0].Text? {
              routingKey := keys[0].text;
            }
          }
        } else {
          var firstTable := TableOf(tables[|tables| - 1]);
          exchange := TextAt(firstTable, ExchangeName);
          if RoutingKeys in firstTable {
            var keys := ItemsOf(firstTable[RoutingKeys]);
            if |keys| > 0 && keys[0].Text? {
              routingKey := keys[0].text;
            }
          }
        }
      }
      r := Extracted(Metadata(d.messageId, xCount, d.typ, exchange, routingKey, d.headers));
    }

    method EvaluateDefByReceivedMsg(queue: string, m: Metadata) returns (r: Resolution)
      ensures r == Resolve(EntriesOf(Contents(), queue), m)
    {
      var defs := Consumers(queue);
      for i := 0 to |defs|
        invariant Resolve(defs, m) == Resolve(defs[i..], m)
      {
        var def := defs[i];
        assert defs[i..][1..] == defs[i + 1..];
        if def.typ == BY_TYPE {
          if def.msgType == m.typ {
            return Chosen(def);
          }
        } else if def.typ == BY_EXCHANGE_ROUTING_KEY {
          if def.exchange == m.originExchange && def.routingKey == m.routingKey {
            return Chosen(def);
          }
        } else if def.typ == BY_EXCHANGE {
          if def.exchange == m.originExchange {
            return Chosen(def);
          }
        } else if def.typ == BY_ROUTING_KEY {
          if def.routingKey == m.routingKey {
            return Chosen(def);
          }
        } else {
          return UnknownKind;
        }
      }
      return NoConsumer;
    }

    /** One delivery from start to end. `result` is what the handler would return. */
    method ProcessReceivedMessage(queueDef: Q.QueueDefinition, received: Delivery, replies: Replies, result: HandlerResult)
      returns (panicked: bool)
      modifies replies
      ensures panicked <==> MalformedDeaths(received.headers)
      ensures replies.sent ==
              old(replies.sent) +
              Actions(queueDef.Value(), EntriesOf(Contents(), queueDef.name), received, result)
    {
      hide Extract, Resolve, EntriesOf, MalformedDeaths;
      PanicsExactlyWhenDeathsAreMalformed(received);
      var extraction := ExtractMetadata(received);
      if extraction.Panic? {
        return true;
      }
      panicked := false;
      var metadata := extraction.metadata;
      var resolution := EvaluateDefByReceivedMsg(queueDef.name, metadata);
      if !resolution.Chosen? {
        replies.Send(Ack(false));
        return;
      }
      var def := resolution.def;
      if def.msgType !in received.decodesAs {
        replies.Send(Nack(true, false));
        return;
      }
      if queueDef.withRetry && metadata.xCount >= queueDef.retries {
        replies.Send(Ack(false));
        replies.Send(PublishDlq(queueDef.dqlName));
        return;
      }
      replies.Send(Invoke(def.handler, metadata));
      if !result.Success? {
        if queueDef.withRetry && result.RetryableError? {
          replies.Send(Nack(false, false));
          return;
        }
        if queueDef.withDLQ {
          replies.Send(Ack(false));
          replies.Send(PublishDlq(queueDef.dqlName));
          return;
        }
        replies.Send(Ack(false));
      }
      replies.Send(Ack(true));
    }
  }

  // How often one delivery is settled.

  function Settles(a: Action): int {
    if a.Ack? || a.Nack? then 1 else 0
  }

  /** A delivery is settled exactly once, except when a handler fails without a dead-letter
      queue to go to and without a retry: then it is acknowledged twice. */
  lemma SettledOnceExactlyWhen(q: Q.Queue, defs: seq<ConsumerDefinition>, d: Delivery, r: HandlerResult)
    requires Extract(d).Extracted?
    ensures var m := Extract(d).metadata;
            var reachesHandler := && Resolve(defs, m).Chosen?
                                  && Resolve(defs, m).def.msgType in d.decodesAs
                                  && !(q.withRetry && m.xCount >= q.retries);
            var fallsThrough := && reachesHandler && !q.withDLQ && !r.Success?
                                && !(q.withRetry && r.RetryableError?);
            Sum(Actions(q, defs, d, r), Settles) == if fallsThrough then 2 else 1
  {
    var m := Extract(d).metadata;
    var v := Judge(q, defs, d, m, r);
    var s := Settlement(q, v);
    if Invokes(v) {
      var call := Invoke(Resolve(defs, m).def.handler, m);
      assert Actions(q, defs, d, r)[1..] == s;
      assert Sum(Actions(q, defs, d, r), Settles) == Settles(call) + Sum(s, Settles);
    } else {
      assert Actions(q, defs, d, r) == s;
    }
    assert Sum(s, Settles) == Settles(s[0]) + Sum(s[1..], Settles);
    if |s| == 2 {
      assert s[1..] == [s[1]] && s[1..][1..] == [];
      assert Sum(s[1..], Settles) == Settles(s[1]);
    }
  }

  /** A queue without DLQ or retry, and a handler that fails. */
  lemma FailureWithoutDlqIsAnsweredTwice()
    ensures var def := ConsumerDefinition(BY_TYPE, "q", "", "", "T", 0);
            var d := Delivery("id", "T", "", "q", map[], {"T"});
            var m := Metadata("id", 0, "T", "", "q", map[]);
            Actions(Q.Build("q", []), [def], d, OtherError) == [Invoke(0, m), Ack(false), Ack(true)]
  {
    assert Q.Build("q", []) == Q.Blank("q");
  }
}
