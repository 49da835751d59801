/** Deliveries, the broker's `x-death` bookkeeping, and the metadata a dispatcher reads from
    them. Header tables are keyed by the names involved; `Other` is any further name. */
module Deliveries {
  datatype Name = XDeath | Count | ExchangeName | RoutingKeys | QueueName | ReasonName | Other(name: string)

  datatype Field =
    | Text(text: string)
    | Long(value: int)
    | List(items: seq<Field>)
    | Table(table: map<Name, Field>)

  type Headers = map<Name, Field>

  /** A received message. `decodesAs` stands for its body: the type names it unmarshals into. */
  datatype Delivery = Delivery(
    messageId: string, typ: string, exchange: string, routingKey: string,
    headers: Headers, decodesAs: set<string>)

  datatype Metadata = Metadata(
    messageId: string, xCount: int, typ: string, originExchange: string, routingKey: string, headers: Headers)

  /** Indexing an empty list panics in the source. */
  datatype Extraction = Panic | Extracted(metadata: Metadata)

  // A failed type assertion yields the zero value.

  function ItemsOf(f: Field): seq<Field> {
    if f.List? then f.items else []
  }

  function TableOf(f: Field): map<Name, Field> {
    if f.Table? then f.table else map[]
  }

  function TextAt(t: map<Name, Field>, n: Name): string {
    if n in t && t[n].Text? then t[n].text else ""
  }

  function LongAt(t: map<Name, Field>, n: Name): int {
    if n in t && t[n].Long? then t[n].value else 0
  }

  function FirstKey(t: map<Name, Field>, otherwise: string): string {
    if RoutingKeys in t && ItemsOf(t[RoutingKeys]) != [] && ItemsOf(t[RoutingKeys])[0].Text?
    then ItemsOf(t[RoutingKeys])[0].text
    else otherwise
  }

  /** The count comes from the first death, the origin from the last. */
  function Extract(d: Delivery): Extraction {
    if XDeath !in d.headers then
      Extracted(Metadata(d.messageId, 0, d.typ, d.exchange, d.routingKey, d.headers))
    else
      var deaths := ItemsOf(d.headers[XDeath]);
      if deaths == [] then Panic
      else
        var first, last := TableOf(deaths[0]), TableOf(deaths[|deaths| - 1]);
        Extracted(Metadata(d.messageId, LongAt(first, Count), d.typ,
                           TextAt(last, ExchangeName), FirstKey(last, d.routingKey), d.headers))
  }

  /** Headers that carry an `x-death` which is not a list with an entry. */
  predicate MalformedDeaths(h: Headers) {
    XDeath in h && !(h[XDeath].List? && h[XDeath].items != [])
  }

  /** Reading a delivery panics exactly on such headers. */
  lemma PanicsExactlyWhenDeathsAreMalformed(d: Delivery)
    ensures Extract(d).Panic? <==> MalformedDeaths(d.headers)
  {
  }

  lemma EmptyDeathListPanics()
    ensures Extract(Delivery("id", "type", "", "q", map[XDeath := List([])], {})) == Panic
  {
  }

  /** Fields that are missing or of another type: no count reads as zero and no exchange as
      empty, while no routing key leaves the delivery's own. */
  lemma MissingFieldsHaveDefaults(d: Delivery, deaths: seq<Field>)
    requires XDeath in d.headers && d.headers[XDeath] == List(deaths) && deaths != []
    ensures Extract(d).Extracted?
    ensures var m, first, last := Extract(d).metadata, deaths[0], deaths[|deaths| - 1];
            && (!(first.Table? && Count in first.table && first.table[Count].Long?) ==> m.xCount == 0)
            && (!(last.Table? && ExchangeName in last.table && last.table[ExchangeName].Text?) ==> m.originExchange == "")
            && (!(last.Table? && RoutingKeys in last.table && last.table[RoutingKeys].List?) ==> m.routingKey == d.routingKey)
            && (last.Table? && RoutingKeys in last.table && last.table[RoutingKeys].List? ==>
                  var keys := last.table[RoutingKeys].items;
                  m.routingKey == if keys != [] && keys[0].Text? then keys[0].text else d.routingKey)
  {
  }

  // The broker's side: one entry per queue and reason, the latest first.

  datatype Reason = Rejected | Expired
  datatype Death = Death(queue: string, reason: Reason, count: nat, exchange: string, routingKeys: seq<string>)

  function Find(deaths: seq<Death>, queue: string, reason: Reason): (i: nat)
    ensures i <= |deaths|
    ensures i < |deaths| ==> deaths[i].queue == queue && deaths[i].reason == reason
    ensures forall j :: 0 <= j < i ==> deaths[j].queue != queue || deaths[j].reason != reason
  {
    if deaths == [] || (deaths[0].queue == queue && deaths[0].reason == reason) then 0
    else 1 + Find(deaths[1..], queue, reason)
  }

  /** A known cause of death has its count raised and moves to the front, keeping its origin;
      a new one is put in front with the message's present address. */
  function Bury(deaths: seq<Death>, queue: string, reason: Reason, exchange: string, key: string): seq<Death> {
    var i := Find(deaths, queue, reason);
    if i == |deaths| then [Death(queue, reason, 1, exchange, [key])] + deaths
    else [deaths[i].(count := deaths[i].count + 1)] + deaths[..i] + deaths[i + 1..]
  }

  ghost predicate OneEntryPerCause(deaths: seq<Death>) {
    forall i, j :: 0 <= i < j < |deaths| ==> deaths[i].queue != deaths[j].queue || deaths[i].reason != deaths[j].reason
  }

  lemma BuryLosesNoOther(deaths: seq<Death>, queue: string, reason: Reason, exchange: string, key: string, d: Death)
    requires d in deaths && (d.queue != queue || d.reason != reason)
    ensures d in Bury(deaths, queue, reason, exchange, key)
  {
    var i, after := Find(deaths, queue, reason), Bury(deaths, queue, reason, exchange, key);
    var k :| 0 <= k < |deaths| && deaths[k] == d;
    assert d == if i == |deaths| || k < i then after[k + 1] else after[k];
  }

  /** Behind the front entry come the others, in their old order. */
  lemma BuryMovesOneToTheFront(deaths: seq<Death>, queue: string, reason: Reason, exchange: string, key: string, j: nat)
    requires 0 < j < |Bury(deaths, queue, reason, exchange, key)|
    ensures var i := Find(deaths, queue, reason);
            Bury(deaths, queue, reason, exchange, key)[j] == if j <= i then deaths[j - 1] else deaths[j]
  {
    hide Find;
    var i := Find(deaths, queue, reason);
    if i < |deaths| {
      var front := [deaths[i].(count := deaths[i].count + 1)];
      assert Bury(deaths, queue, reason, exchange, key) == front + deaths[..i] + deaths[i + 1..];
      assert j > i ==> deaths[i + 1..][j - i - 1] == deaths[j];
    }
  }

  lemma BuryKeepsOneEntryPerCause(deaths: seq<Death>, queue: string, reason: Reason, exchange: string, key: string)
    requires OneEntryPerCause(deaths)
    ensures OneEntryPerCause(Bury(deaths, queue, reason, exchange, key))
    ensures Bury(deaths, queue, reason, exchange, key)[0].queue == queue
    ensures Bury(deaths, queue, reason, exchange, key)[0].reason == reason
    ensures forall d :: d in deaths && (d.queue != queue || d.reason != reason) ==>
                          d in Bury(deaths, queue, reason, exchange, key)
  {
    var i, after := Find(deaths, queue, reason), Bury(deaths, queue, reason, exchange, key);
    assert after[0].queue == queue && after[0].reason == reason;
    forall j, k | 0 <= j < k < |after|
      ensures after[j].queue != after[k].queue || after[j].reason != after[k].reason
    {
      hide Bury;
      BuryMovesOneToTheFront(deaths, queue, reason, exchange, key, k);
      if j > 0 {
        BuryMovesOneToTheFront(deaths, queue, reason, exchange, key, j);
      }
    }
    forall d | d in deaths && (d.queue != queue || d.reason != reason)
      ensures d in Bury(deaths, queue, reason, exchange, key)
    {
      BuryLosesNoOther(deaths, queue, reason, exchange, key, d);
    }
  }

  function EncodeDeath(d: Death): Field {
    Table(map[QueueName := Text(d.queue), ReasonName := Text(if d.reason.Rejected? then "rejected" else "expired"),
              Count := Long(d.count), ExchangeName := Text(d.exchange),
              RoutingKeys := List(seq(|d.routingKeys|, i requires 0 <= i < |d.routingKeys| => Text(d.routingKeys[i])))])
  }

  /** The headers a consumer sees: no `x-death` at all until the first death. */
  function EncodeHeaders(user: Headers, deaths: seq<Death>): Headers {
    if deaths == [] then user
    else user[XDeath := List(seq(|deaths|, i requires 0 <= i < |deaths| => EncodeDeath(deaths[i])))]
  }

  /** Reading back what the broker wrote never indexes out of bounds, and yields the count of
      the latest death and the address recorded by the oldest. */
  lemma ExtractReadsTheDeaths(d: Delivery, user: Headers, deaths: seq<Death>)
    requires XDeath !in user && d.headers == EncodeHeaders(user, deaths)
    requires forall x :: x in deaths ==> x.routingKeys != []
    ensures Extract(d).Extracted?
    ensures var m := Extract(d).metadata;
            && m.messageId == d.messageId && m.typ == d.typ && m.headers == d.headers
            && m.xCount == (if deaths == [] then 0 else deaths[0].count)
            && m.originExchange == (if deaths == [] then d.exchange else deaths[|deaths| - 1].exchange)
            && m.routingKey == (if deaths == [] then d.routingKey else deaths[|deaths| - 1].routingKeys[0])
  {
    if deaths != [] {
      var last := deaths[|deaths| - 1];
      assert last in deaths;
      var items := ItemsOf(d.headers[XDeath]);
      assert |items| == |deaths| && items[0] == EncodeDeath(deaths[0]) && items[|items| - 1] == EncodeDeath(last);
      assert ItemsOf(TableOf(EncodeDeath(last))[RoutingKeys])[0] == Text(last.routingKeys[0]);
    }
  }
}
