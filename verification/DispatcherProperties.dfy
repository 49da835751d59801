/** What a caller sees of the dispatcher: which registration gets a message, and which answer
    each outcome has. */
module DispatcherProperties {
  import opened Common
  import opened Deliveries
  import opened Dispatchers
  import opened RegistryProperties
  import Q = Queues

  // Message types.

  /** A type and a pointer to it have one name; a pointer to a pointer has another. */
  lemma OnePointerIsLookedThrough(n: string)
    ensures MessageType(Named(n)) == n && MessageType(Pointer(Named(n))) == n
    ensures MessageType(Pointer(Pointer(Named(n)))) == "*" + n
  {
  }

  /** Registering a type by type after a pointer to it, or the other way round, is refused. */
  lemma PointerAndValueCollide(r: Registry, queue: string, t: GoType, first: Registration, handler: nat)
    requires WellFormed(r) && !t.Pointer?
    requires first.queue == queue && (first.msg == Some(t) || first.msg == Some(Pointer(t)))
    requires Register(r, first).error.None?
    ensures var after := Register(r, first).registry;
            && Register(after, ByType(queue, Some(t), handler)).error == Some(AlreadyRegistered)
            && Register(after, ByType(queue, Some(Pointer(t)), handler)).error == Some(AlreadyRegistered)
  {
    var defs := EntriesOf(Register(r, first).registry, queue);
    assert defs[|defs| - 1].msgType == MessageType(t);
    assert HasType(defs, MessageType(t));
  }

  // Registrations and the messages they get.

  /** Which error a registration returns. */
  lemma RegistrationErrorIs(r: Registry, c: Registration)
    ensures Register(r, c).error == Some(InvalidParams) <==>
            || c.msg.None? || c.queue == ""
            || (c.ByExchange? && c.exchange == "")
            || (c.ByRoutingKey? && c.routingKey == "")
            || (c.ByExchangeRoutingKey? && (c.exchange == "" || c.routingKey == ""))
    ensures Register(r, c).error == Some(AlreadyRegistered) ==>
              && !c.ByExchangeRoutingKey? && c.msg.Some?
              && exists e :: e in EntriesOf(r, c.queue) && e.msgType == MessageType(c.msg.value)
    ensures Register(r, c).error == Some(QueueDefinitionNotFound) ==> c.queue !in r.known
  {
    if Register(r, c).error == Some(AlreadyRegistered) {
      var defs := EntriesOf(r, c.queue);
      var i :| 0 <= i < |defs| && defs[i].msgType == MessageType(c.msg.value);
      assert defs[i] in defs;
    }
  }

  /** The entry chosen meets the condition of its kind, no earlier entry meets its own, and
      nothing is chosen only when no entry does. */
  lemma ChosenEntryMeetsItsKind(defs: seq<ConsumerDefinition>, m: Metadata) returns (i: nat)
    requires forall e :: e in defs ==> WellKinded(e)
    ensures i <= |defs| && Resolve(defs, m) == if i < |defs| then Chosen(defs[i]) else NoConsumer
    ensures i < |defs| ==>
              && (defs[i].typ == BY_TYPE ==> defs[i].msgType == m.typ)
              && (defs[i].typ == BY_EXCHANGE ==> defs[i].exchange == m.originExchange)
              && (defs[i].typ == BY_ROUTING_KEY ==> defs[i].routingKey == m.routingKey)
              && (defs[i].typ == BY_EXCHANGE_ROUTING_KEY ==>
                    defs[i].exchange == m.originExchange && defs[i].routingKey == m.routingKey)
    ensures forall j :: 0 <= j < i ==>
              && (defs[j].typ == BY_TYPE ==> defs[j].msgType != m.typ)
              && (defs[j].typ == BY_EXCHANGE ==> defs[j].exchange != m.originExchange)
              && (defs[j].typ == BY_ROUTING_KEY ==> defs[j].routingKey != m.routingKey)
              && (defs[j].typ == BY_EXCHANGE_ROUTING_KEY ==>
                    defs[j].exchange != m.originExchange || defs[j].routingKey != m.routingKey)
  {
    i := ResolveIsFirstMatch(defs, m);
    forall j | 0 <= j < |defs|
      ensures WellKinded(defs[j])
    {
      assert defs[j] in defs;
    }
  }

  /** What a registration asks for. */
  predicate Wants(c: Registration, m: Metadata)
    requires c.msg.Some?
  {
    match c
    case ByType(_, msg, _) => m.typ == MessageType(msg.value)
    case ByExchange(_, _, exchange, _) => m.originExchange == exchange
    case ByRoutingKey(_, _, key, _) => m.routingKey == key
    case ByExchangeRoutingKey(_, _, exchange, key, _) => m.originExchange == exchange && m.routingKey == key
  }

  /** Registration number `i` was accepted when its turn came. */
  predicate Accepted(r: Registry, cs: seq<Registration>, i: nat)
    requires i < |cs|
  {
    Register(RegisterAll(r, cs[..i]), cs[i]).error.None?
  }

  /** It was accepted for this queue, and this message is one that it asks for. */
  predicate Takes(r: Registry, cs: seq<Registration>, i: nat, queue: string, m: Metadata)
    requires i < |cs|
  {
    Accepted(r, cs, i) && cs[i].queue == queue && cs[i].msg.Some? && Wants(cs[i], m)
  }

  lemma {:induction false} RegisterAllSnoc(r: Registry, cs: seq<Registration>, c: Registration)
    ensures RegisterAll(r, cs + [c]) == Register(RegisterAll(r, cs), c).registry
    decreases |cs|
  {
    if cs == [] {
      assert [c][1..] == [] && [] + [c] == [c];
    } else {
      assert (cs + [c])[1..] == cs[1..] + [c];
      RegisterAllSnoc(Register(r, cs[0]).registry, cs[1..], c);
    }
  }

  lemma {:induction false} ResolveSnoc(defs: seq<ConsumerDefinition>, e: ConsumerDefinition, m: Metadata)
    requires Resolve(defs, m).NoConsumer?
    ensures Resolve(defs + [e], m) == Resolve([e], m)
  {
    if defs == [] {
      assert [] + [e] == [e];
    } else {
      assert (defs + [e])[0] == defs[0] && (defs + [e])[1..] == defs[1..] + [e];
      ResolveSnoc(defs[1..], e, m);
    }
  }

  lemma EntryMatchesWhatIsWanted(c: Registration, m: Metadata)
    requires c.msg.Some?
    ensures Resolve([Entry(c)], m) == if Wants(c, m) then Chosen(Entry(c)) else NoConsumer
    ensures Entry(c).handler == c.handler && Entry(c).queue == c.queue
    ensures Entry(c).msgType == MessageType(c.msg.value)
  {
    assert [Entry(c)][1..] == [];
  }

  /** For every sequence of registrations: a message goes to the handler of the first accepted
      registration for its queue that asks for it, to be decoded into the type named there; and
      it has no consumer exactly when there is no such registration. */
  lemma {:induction false} FirstRegistrationGetsTheMessage(known: set<string>, cs: seq<Registration>, queue: string, m: Metadata)
    returns (i: nat)
    ensures i <= |cs|
    ensures forall j :: 0 <= j < i ==> !Takes(Empty(known), cs, j, queue, m)
    ensures var r := Resolve(EntriesOf(RegisterAll(Empty(known), cs), queue), m);
            if i == |cs| then r == NoConsumer
            else && Takes(Empty(known), cs, i, queue, m) && r.Chosen?
                 && r.def.handler == cs[i].handler && r.def.msgType == MessageType(cs[i].msg.value)
    decreases |cs|
  {
    var r0 := Empty(known);
    if cs == [] {
      i := 0;
      return;
    }
    var n := |cs| - 1;
    var front, c := cs[..n], cs[n];
    assert front + [c] == cs;
    i := FirstRegistrationGetsTheMessage(known, front, queue, m);
    forall j | 0 <= j < n
      ensures Takes(r0, cs, j, queue, m) == Takes(r0, front, j, queue, m)
    {
      assert cs[..j] == front[..j];
    }
    RegisterAllSnoc(r0, front, c);
    LastRegistration(RegisterAll(r0, front), c, queue, m);
    if i == n {
      i := if Takes(r0, cs, n, queue, m) then n else n + 1;
    }
  }

  lemma LastRegistration(r: Registry, c: Registration, queue: string, m: Metadata)
    ensures var before, after := Resolve(EntriesOf(r, queue), m), Resolve(EntriesOf(Register(r, c).registry, queue), m);
            && (before.Chosen? ==> after == before)
            && (before == NoConsumer ==>
                  if Register(r, c).error.None? && c.queue == queue && c.msg.Some? && Wants(c, m)
                  then && after.Chosen? && after.def.handler == c.handler
                       && after.def.msgType == MessageType(c.msg.value)
                  else after == NoConsumer)
  {
    var defs := EntriesOf(r, queue);
    if Register(r, c).error.None? && c.queue == queue {
      assert EntriesOf(Register(r, c).registry, queue) == defs + [Entry(c)];
      EntryMatchesWhatIsWanted(c, m);
      if Resolve(defs, m).Chosen? {
        ResolveIgnoresLaterEntries(defs, [Entry(c)], m);
      } else if Resolve(defs, m) == NoConsumer {
        ResolveSnoc(defs, Entry(c), m);
      }
    } else {
      assert EntriesOf(Register(r, c).registry, queue) == defs;
    }
  }

  // Answers.

  /** The answer to a delivery by its outcome: no consumer, a body that does not unmarshal, the
      retry limit, and the three results of a handler that is reached. A retryable failure goes
      back through the broker before any other use of the DLQ. */
  lemma AnswerByOutcome(q: Q.Queue, defs: seq<ConsumerDefinition>, d: Delivery, r: HandlerResult)
    requires Extract(d).Extracted?
    ensures var m := Extract(d).metadata;
            var chosen, sent := Resolve(defs, m), Actions(q, defs, d, r);
            if !chosen.Chosen? then sent == [Ack(false)]
            else if chosen.def.msgType !in d.decodesAs then sent == [Nack(true, false)]
            else if q.withRetry && m.xCount >= q.retries then sent == [Ack(false), PublishDlq(q.dqlName)]
            else
              && sent != [] && sent[0] == Invoke(chosen.def.handler, m)
              && (r == Success ==> sent[1..] == [Ack(true)])
              && (r == RetryableError && q.withRetry ==> sent[1..] == [Nack(false, false)])
              && ((r == RetryableError && !q.withRetry) || r == OtherError ==>
                    sent[1..] == if q.withDLQ then [Ack(false), PublishDlq(q.dqlName)] else [Ack(false), Ack(true)])
  {
    hide Resolve, Extract;
    var m := Extract(d).metadata;
    var v := Judge(q, defs, d, m, r);
    if Invokes(v) {
      var call := [Invoke(Resolve(defs, m).def.handler, m)];
      assert Actions(q, defs, d, r) == call + Settlement(q, v);
      assert (call + Settlement(q, v))[1..] == Settlement(q, v);
    } else {
      assert Actions(q, defs, d, r) == [] + Settlement(q, v);
    }
  }

  lemma PanicSendsNothing(q: Q.Queue, defs: seq<ConsumerDefinition>, d: Delivery, r: HandlerResult)
    requires Extract(d).Panic?
    ensures Actions(q, defs, d, r) == []
  {
  }
}
