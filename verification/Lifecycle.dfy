/** The life of messages around one consumed queue: the broker's main, retry and dead-letter
    queues, a channel with delivery tags, and the consumer that works through its deliveries
    one action at a time. A connection may be lost between any two steps; deliveries handed to
    the consumer before the loss are then stale, and answering them has no effect. Losing the
    connection just before an answer also stands for an answer lost on its way. */
module Lifecycle {
  import opened Common
  import opened Dispatchers
  import B = Broker
  import D = Deliveries
  import Q = Queues
  import T = Topologies

  datatype Config = Config(q: Q.Queue, defs: seq<ConsumerDefinition>)

  ghost predicate Valid(cfg: Config) {
    cfg.q.WellBuilt() && cfg.q.name != ""
  }

  /** A message as the broker holds it. `id` tells publishes apart; `trips`, `firstExchange`
      and `firstKey` record what happened to it and are read by nothing but the claims. */
  datatype Message = Message(
    id: nat, messageId: string, typ: string, exchange: string, routingKey: string,
    user: D.Headers, deaths: seq<D.Death>, decodesAs: set<string>,
    trips: nat, firstExchange: string, firstKey: string)

  function Seen(m: Message): D.Delivery {
    D.Delivery(m.messageId, m.typ, m.exchange, m.routingKey, D.EncodeHeaders(m.user, m.deaths), m.decodesAs)
  }

  datatype Tagged = Tagged(tag: nat, message: Message)

  /** The consumer is idle, or about to perform action `next` of those that verdict `v`
      calls for. `settled` says whether the broker has taken an answer for the delivery. */
  datatype Consumer = Idle | Busy(d: Tagged, r: HandlerResult, v: Verdict, next: nat, settled: bool)

  datatype Reason = NoConsumerFor | NoDeadLetterTarget | FailureWithoutDlq | PublishFailed | Unroutable
  datatype Lost = Lost(message: Message, why: Reason)

  /** Counts kept beside the machine. `copies` are extra copies put into the DLQ; `runs` are
      handler calls; `excused` are messages that met anything but a retry or the limit;
      `futile` counts rejections into the retry queue of messages past their limit. */
  datatype History = History(
    published: set<nat>, copies: multiset<nat>, runs: multiset<nat>, redelivered: multiset<nat>,
    excused: set<nat>, progress: nat, futile: nat)

  datatype State = State(
    main: seq<Message>, unacked: seq<Tagged>, buffer: seq<Tagged>, consumer: Consumer,
    live: bool, nextTag: nat, settledTags: seq<nat>,
    retry: seq<Message>, dlq: seq<Message>, done: seq<Message>, lost: seq<Lost>, h: History)

  function Start(): State {
    State([], [], [], Idle, true, 1, [], [], [], [], [],
          History({}, multiset{}, multiset{}, multiset{}, {}, 0, 0))
  }

  datatype Step =
    | Publish(m: Message)
    | Deliver
    | Receive(r: HandlerResult)
    | Act(ok: bool)
    | Expire
    | Lose
    | Resume

  // Where the default exchange takes a message.

  datatype Place = ToMain | ToRetry | ToDlq | Nowhere

  function Route(q: Q.Queue, exchange: string, key: string): Place {
    if exchange != "" then Nowhere
    else if key == q.name then ToMain
    else if q.withRetry && key == q.RetryName() then ToRetry
    else if q.withDLQ && key == q.DLQName() then ToDlq
    else Nowhere
  }

  /** Dead-lettering out of a queue declared with `args`. */
  function Buried(m: Message, queue: string, reason: D.Reason, args: B.Args): Option<Message> {
    if B.DeadLetterExchange in args && args[B.DeadLetterExchange].Text? then
      var key := if B.DeadLetterRoutingKey in args && args[B.DeadLetterRoutingKey].Text?
                 then args[B.DeadLetterRoutingKey].text else m.routingKey;
      Some(m.(deaths := D.Bury(m.deaths, queue, reason, m.exchange, m.routingKey),
              exchange := args[B.DeadLetterExchange].text, routingKey := key))
    else None
  }

  function Put(s: State, q: Q.Queue, m: Message): State {
    match Route(q, m.exchange, m.routingKey)
    case ToMain => s.(main := s.main + [m])
    case ToRetry => s.(retry := s.retry + [m])
    case ToDlq => s.(dlq := s.dlq + [m])
    case Nowhere => s.(lost := s.lost + [Lost(m, Unroutable)])
  }

  function Reject(cfg: Config, s: State, m: Message): State {
    var m' := Buried(m, cfg.q.name, D.Rejected, T.MainArgs(cfg.q));
    if m'.None? then s.(lost := s.lost + [Lost(m, NoDeadLetterTarget)]) else Put(s, cfg.q, m'.value)
  }

  function RejectAll(cfg: Config, s: State, ds: seq<Tagged>): State
    decreases |ds|
  {
    if ds == [] then s else RejectAll(cfg, Reject(cfg, s, ds[0].message), ds[1..])
  }

  // Answers: basic.ack (section 1.8.3.13 of the AMQP 0-9-1 XML reference) and RabbitMQ's
  // basic.nack, which takes tags the same way.

  predicate Covers(tag: nat, multiple: bool, d: Tagged) {
    if multiple then d.tag <= tag else d.tag == tag
  }

  function Taken(ds: seq<Tagged>, tag: nat, multiple: bool): seq<Tagged> {
    if ds == [] then []
    else (if Covers(tag, multiple, ds[0]) then [ds[0]] else []) + Taken(ds[1..], tag, multiple)
  }

  function Left(ds: seq<Tagged>, tag: nat, multiple: bool): seq<Tagged> {
    if ds == [] then []
    else (if Covers(tag, multiple, ds[0]) then [] else [ds[0]]) + Left(ds[1..], tag, multiple)
  }

  predicate Outstanding(ds: seq<Tagged>, tag: nat) {
    exists i :: 0 <= i < |ds| && ds[i].tag == tag
  }

  function Messages(ds: seq<Tagged>): seq<Message> {
    seq(|ds|, i requires 0 <= i < |ds| => ds[i].message)
  }

  function Tags(ds: seq<Tagged>): seq<nat> {
    seq(|ds|, i requires 0 <= i < |ds| => ds[i].tag)
  }

  function AllLost(ds: seq<Tagged>, why: Reason): seq<Lost> {
    seq(|ds|, i requires 0 <= i < |ds| => Lost(ds[i].message, why))
  }

  function Ids(ds: seq<Tagged>): multiset<nat> {
    multiset(seq(|ds|, i requires 0 <= i < |ds| => ds[i].message.id))
  }

  /** The channel is gone: what was unsettled is back in front of the queue. */
  function Drop(s: State): State {
    s.(main := Messages(s.unacked) + s.main, unacked := [], live := false,
       h := s.h.(redelivered := s.h.redelivered + Ids(s.unacked)))
  }

  function VerdictOn(cfg: Config, m: Message, r: HandlerResult): Verdict
    requires D.Extract(Seen(m)).Extracted?
  {
    Judge(cfg.q, cfg.defs, Seen(m), D.Extract(Seen(m)).metadata, r)
  }

  /** The number of actions that come before the answer. */
  function Lead(v: Verdict): nat {
    if Invokes(v) then 1 else 0
  }

  function ScriptLength(q: Q.Queue, v: Verdict): nat {
    Lead(v) + |Settlement(q, v)|
  }

  /** Answering with a tag that is not outstanding is a channel error. */
  function Answer(cfg: Config, s: State, tag: nat, v: Verdict, a: Action): State
    requires a.Ack? || a.Nack?
  {
    if !s.live then s
    else if !Outstanding(s.unacked, tag) then Drop(s)
    else
      var taken := Taken(s.unacked, tag, a.multiple);
      var t := s.(unacked := Left(s.unacked, tag, a.multiple), settledTags := s.settledTags + Tags(taken));
      if a.Nack? then
        if a.requeue then t.(main := Messages(taken) + t.main) else RejectAll(cfg, t, taken)
      else if v.Succeeded? then t.(done := t.done + Messages(taken))
      else if v.Unmatched? then t.(lost := t.lost + AllLost(taken, NoConsumerFor))
      else if v.FailedWithoutDlq? then t.(lost := t.lost + AllLost(taken, FailureWithoutDlq))
      else t
  }

  /** Publishing to the DLQ: the only copy when the delivery was settled, an extra one when it
      was not. */
  function Republish(cfg: Config, s: State, m: Message, key: string, settled: bool, ok: bool): State {
    var m' := m.(exchange := "", routingKey := key);
    if settled then
      if ok then Put(s, cfg.q, m') else s.(lost := s.lost + [Lost(m, PublishFailed)])
    else if ok && Route(cfg.q, "", key).ToDlq? then
      s.(dlq := s.dlq + [m'], h := s.h.(copies := s.h.copies + multiset{m.id}))
    else s
  }

  /** The number of trips after which a message is not tried again. */
  function Limit(q: Q.Queue): nat {
    if q.Cycles() && q.retries > 0 then q.retries else 0
  }

  /** Action number `next` on a delivery. */
  function Perform(cfg: Config, s: State, d: Tagged, v: Verdict, next: nat, settled: bool, ok: bool): State
    requires next < ScriptLength(cfg.q, v)
  {
    if next < Lead(v) then s.(h := s.h.(runs := s.h.runs + multiset{d.message.id}))
    else
      var a := Settlement(cfg.q, v)[next - Lead(v)];
      if a.PublishDlq? then Republish(cfg, s, d.message, a.key, settled, ok)
      else if a.Invoke? then s
      else if a.Nack? && s.live && cfg.q.Cycles() && d.message.trips >= Limit(cfg.q) then
        Futile(Answer(cfg, s, d.tag, v, a))
      else Answer(cfg, s, d.tag, v, a)
  }

  predicate IsAnswer(q: Q.Queue, v: Verdict, next: nat) {
    Lead(v) <= next < ScriptLength(q, v) && !Settlement(q, v)[next - Lead(v)].PublishDlq?
  }

  function Futile(s: State): State {
    s.(h := s.h.(futile := s.h.futile + 1))
  }

  function Moved(q: Q.Queue, c: Consumer, live: bool): Consumer
    requires c.Busy?
  {
    var Busy(d, r, v, next, settled) := c;
    if next + 1 >= ScriptLength(q, v) then Idle
    else Busy(d, r, v, next + 1, settled || (live && IsAnswer(q, v, next)))
  }

  function Excused(h: History, c: Consumer): set<nat>
    requires c.Busy?
  {
    if c.v.SentToRetry? || c.v.LimitReached? then h.excused else h.excused + {c.d.message.id}
  }

  /** The consumer of `s` moves on after an action that led to `t`. */
  function Turned(cfg: Config, s: State, t: State): State
    requires s.consumer.Busy?
  {
    t.(consumer := Moved(cfg.q, s.consumer, s.live), h := t.h.(excused := Excused(t.h, s.consumer)))
  }

  function Next(cfg: Config, s: State, step: Step): Option<State> {
    match step
    case Publish(m) =>
      if m.id in s.h.published || m.deaths != [] || D.XDeath in m.user || m.trips != 0
         || m.exchange != m.firstExchange || m.routingKey != m.firstKey then None
      else Some(s.(main := s.main + [m], h := s.h.(published := s.h.published + {m.id})))
    case Deliver =>
      if !s.live || s.main == [] then None
      else
        var t := Tagged(s.nextTag, s.main[0]);
        Some(Advance(s.(main := s.main[1..], unacked := s.unacked + [t], buffer := s.buffer + [t],
                        nextTag := s.nextTag + 1)))
    case Receive(r) =>
      if s.consumer.Busy? || s.buffer == [] || D.Extract(Seen(s.buffer[0].message)).Panic? then None
      else
        var d := s.buffer[0];
        Some(Advance(s.(buffer := s.buffer[1..], consumer := Busy(d, r, VerdictOn(cfg, d.message, r), 0, false))))
    case Act(ok) =>
      if s.consumer.Idle? || s.consumer.next >= ScriptLength(cfg.q, s.consumer.v) then None
      else
        var Busy(d, r, v, next, settled) := s.consumer;
        Some(Advance(Turned(cfg, s, Perform(cfg, s, d, v, next, settled, ok))))
    case Expire =>
      if s.retry == [] then None
      else
        var m := Buried(s.retry[0], cfg.q.RetryName(), D.Expired, T.RetryArgs(cfg.q));
        if m.None? then None
        else Some(Advance(Put(s.(retry := s.retry[1..]), cfg.q, m.value.(trips := m.value.trips + 1))))
    case Lose =>
      if s.live then Some(Drop(s)) else None
    case Resume =>
      if s.live || s.consumer.Busy? then None
      else Some(s.(buffer := [], live := true, nextTag := 1, settledTags := []))
  }

  function Advance(s: State): State {
    s.(h := s.h.(progress := s.h.progress + 1))
  }

  /** The state after a whole run, if every step of it was possible. */
  function Reach(cfg: Config, steps: seq<Step>): Option<State> {
    if steps == [] then Some(Start())
    else
      var s := Reach(cfg, steps[..|steps| - 1]);
      if s.None? then None else Next(cfg, s.value, steps[|steps| - 1])
  }
}
