/** What every sequence of registrations keeps, and what it means for choosing a handler. */
module RegistryProperties {
  import opened Deliveries
  import opened Dispatchers

  function Empty(known: set<string>): Registry {
    Registry(known, map[])
  }

  function RegisterAll(r: Registry, cs: seq<Registration>): Registry
    decreases |cs|
  {
    if cs == [] then r else RegisterAll(Register(r, cs[0]).registry, cs[1..])
  }

  predicate WellKinded(e: ConsumerDefinition) {
    || (e.typ == BY_TYPE && e.exchange == "" && e.routingKey == "")
    || (e.typ == BY_EXCHANGE && e.exchange != "" && e.routingKey == "")
    || (e.typ == BY_ROUTING_KEY && e.exchange == "" && e.routingKey != "")
    || (e.typ == BY_EXCHANGE_ROUTING_KEY && e.exchange != "" && e.routingKey != "")
  }

  /** Among entries of one message type, all but the first are by exchange and routing key. */
  ghost predicate RepeatsAreSpecific(defs: seq<ConsumerDefinition>) {
    forall i, j :: 0 <= i < j < |defs| && defs[i].msgType == defs[j].msgType ==> defs[j].typ == BY_EXCHANGE_ROUTING_KEY
  }

  ghost predicate WellFormed(r: Registry) {
    forall q :: q in r.entries ==>
                  && q in r.known && q != "" && r.entries[q] != []
                  && (forall e :: e in r.entries[q] ==> e.queue == q && WellKinded(e))
                  && RepeatsAreSpecific(r.entries[q])
  }

  lemma RegisterKeepsWellFormed(r: Registry, c: Registration)
    requires WellFormed(r)
    ensures WellFormed(Register(r, c).registry)
  {
    var r' := Register(r, c);
    if r'.error.None? {
      var before, after := EntriesOf(r, c.queue), r'.registry.entries[c.queue];
      forall e | e in after
        ensures e.queue == c.queue && WellKinded(e)
      {
        assert e in before || e == Entry(c);
      }
      forall i, j | 0 <= i < j < |after| && after[i].msgType == after[j].msgType
        ensures after[j].typ == BY_EXCHANGE_ROUTING_KEY
      {
        if j == |before| {
          assert before[i].msgType == after[j].msgType;
        }
      }
    }
  }

  lemma {:induction false} EveryRegistryIsWellFormed(r: Registry, cs: seq<Registration>)
    requires WellFormed(r)
    ensures WellFormed(RegisterAll(r, cs))
    ensures RegisterAll(r, cs).known == r.known
    decreases |cs|
  {
    if cs != [] {
      RegisterKeepsWellFormed(r, cs[0]);
      EveryRegistryIsWellFormed(Register(r, cs[0]).registry, cs[1..]);
    }
  }

  /** A registration that fails changes nothing, and it fails exactly when a parameter is
      missing, the queue is unknown, or the message type is taken and the registration is not
      by exchange and routing key. */
  lemma RegistrationFailsExactlyWhen(r: Registry, c: Registration)
    requires WellFormed(r)
    ensures Register(r, c).error.Some? <==>
            || Malformed(c) || c.queue !in r.known
            || (!c.ByExchangeRoutingKey? && exists e :: e in EntriesOf(r, c.queue) && e.msgType == MessageType(c.msg.value))
    ensures Register(r, c).error.Some? ==> Register(r, c).registry == r
    ensures Register(r, c).error.None? ==>
              EntriesOf(Register(r, c).registry, c.queue) == EntriesOf(r, c.queue) + [Entry(c)]
  {
    if c.msg.Some? && HasType(EntriesOf(r, c.queue), MessageType(c.msg.value)) {
      var defs := EntriesOf(r, c.queue);
      var i :| 0 <= i < |defs| && defs[i].msgType == MessageType(c.msg.value);
      assert defs[i] in defs;
    }
  }

  // Choosing a handler.

  /** The handler chosen is the first matching entry; none is chosen exactly when none matches. */
  lemma {:induction false} ResolveIsFirstMatch(defs: seq<ConsumerDefinition>, m: Metadata) returns (i: nat)
    requires forall e :: e in defs ==> KnownKind(e)
    ensures i <= |defs|
    ensures forall j :: 0 <= j < i ==> !Matches(defs[j], m)
    ensures i < |defs| ==> Matches(defs[i], m)
    ensures Resolve(defs, m) == if i < |defs| then Chosen(defs[i]) else NoConsumer
  {
    if defs == [] {
      i := 0;
    } else if Matches(defs[0], m) {
      assert defs[0] in defs;
      i := 0;
    } else {
      assert defs[0] in defs;
      var k := ResolveIsFirstMatch(defs[1..], m);
      i := k + 1;
      forall j | 0 <= j < i
        ensures !Matches(defs[j], m)
      {
        if j > 0 {
          assert defs[j] == defs[1..][j - 1];
        }
      }
    }
  }

  /** The branch for an unknown kind of definition cannot be reached. */
  lemma UnknownKindIsUnreachable(known: set<string>, cs: seq<Registration>, queue: string, m: Metadata)
    ensures !Resolve(EntriesOf(RegisterAll(Empty(known), cs), queue), m).UnknownKind?
  {
    EveryRegistryIsWellFormed(Empty(known), cs);
    var i := ResolveIsFirstMatch(EntriesOf(RegisterAll(Empty(known), cs), queue), m);
  }

  lemma {:induction false} ResolveIgnoresLaterEntries(defs: seq<ConsumerDefinition>, more: seq<ConsumerDefinition>, m: Metadata)
    requires Resolve(defs, m).Chosen?
    ensures Resolve(defs + more, m) == Resolve(defs, m)
  {
    assert (defs + more)[0] == defs[0];
    if !Matches(defs[0], m) {
      assert (defs + more)[1..] == defs[1..] + more;
      ResolveIgnoresLaterEntries(defs[1..], more, m);
    }
  }

  lemma EntriesGrowByOneAtMost(r: Registry, c: Registration, queue: string) returns (more: seq<ConsumerDefinition>)
    ensures EntriesOf(Register(r, c).registry, queue) == EntriesOf(r, queue) + more
  {
    if Register(r, c).error.None? && queue == c.queue {
      more := [Entry(c)];
    } else {
      more := [];
    }
  }

  lemma {:induction false} EntriesOnlyGrow(r: Registry, cs: seq<Registration>, queue: string) returns (more: seq<ConsumerDefinition>)
    ensures EntriesOf(RegisterAll(r, cs), queue) == EntriesOf(r, queue) + more
    decreases |cs|
  {
    if cs == [] {
      more := [];
    } else {
      var first := EntriesGrowByOneAtMost(r, cs[0], queue);
      var rest := EntriesOnlyGrow(Register(r, cs[0]).registry, cs[1..], queue);
      more := first + rest;
    }
  }

  /** Once a message has a handler, no later registration gives it another. */
  lemma ResolutionIsStable(r: Registry, cs: seq<Registration>, queue: string, m: Metadata)
    requires Resolve(EntriesOf(r, queue), m).Chosen?
    ensures Resolve(EntriesOf(RegisterAll(r, cs), queue), m) == Resolve(EntriesOf(r, queue), m)
  {
    var more := EntriesOnlyGrow(r, cs, queue);
    ResolveIgnoresLaterEntries(EntriesOf(r, queue), more, m);
  }

  // Registrations by type alone, in any order.

  predicate AllSucceed(r: Registry, cs: seq<Registration>)
    decreases |cs|
  {
    cs == [] || (Register(r, cs[0]).error.None? && AllSucceed(Register(r, cs[0]).registry, cs[1..]))
  }

  predicate SameSlot(c: Registration, d: Registration) {
    c.msg.Some? && d.msg.Some? && c.queue == d.queue && MessageType(c.msg.value) == MessageType(d.msg.value)
  }

  predicate Acceptable(known: set<string>, c: Registration) {
    c.ByType? && !Malformed(c) && c.queue in known
  }

  ghost predicate Apart(known: set<string>, cs: seq<Registration>) {
    && (forall c :: c in cs ==> Acceptable(known, c))
    && (forall i, j :: 0 <= i < j < |cs| ==> !SameSlot(cs[i], cs[j]))
  }

  /** The queue already has an entry of the registration's message type. */
  predicate Holds(r: Registry, c: Registration) {
    c.msg.Some? && HasType(EntriesOf(r, c.queue), MessageType(c.msg.value))
  }

  ghost predicate Unheld(r: Registry, cs: seq<Registration>) {
    forall c :: c in cs ==> !Holds(r, c)
  }

  lemma ByTypeStep(r: Registry, cs: seq<Registration>)
    requires cs != [] && Acceptable(r.known, cs[0]) && Register(r, cs[0]).error.None?
    ensures Apart(r.known, cs) && Unheld(r, cs) <==>
            Apart(r.known, cs[1..]) && Unheld(Register(r, cs[0]).registry, cs[1..])
  {
    var c, rest, r' := cs[0], cs[1..], Register(r, cs[0]).registry;
    assert forall d :: d in cs <==> d == c || d in rest;
    forall d
      ensures Holds(r', d) <==> Holds(r, d) || SameSlot(c, d)
    {
      if d.msg.Some? {
        HoldsAfter(r, c, d);
      }
    }
    if Apart(r.known, cs) && Unheld(r, cs) {
      forall d | d in rest
        ensures !Holds(r', d)
      {
        var j :| 0 <= j < |rest| && rest[j] == d;
        assert cs[j + 1] == d;
      }
    }
    if Apart(r.known, rest) && Unheld(r', rest) {
      forall i, j | 0 <= i < j < |cs|
        ensures !SameSlot(cs[i], cs[j])
      {
        assert cs[j] == rest[j - 1] && rest[j - 1] in rest;
        if i > 0 {
          assert cs[i] == rest[i - 1];
        }
      }
    }
  }

  /** Registrations by type succeed exactly when each is acceptable and none repeats a queue
      and message type. */
  lemma {:induction false} ByTypeSucceedsExactlyWhenApart(r: Registry, cs: seq<Registration>)
    requires forall c :: c in cs ==> c.ByType?
    ensures AllSucceed(r, cs) <==> Apart(r.known, cs) && Unheld(r, cs)
    decreases |cs|
  {
    if cs != [] {
      assert cs[0] in cs;
      if Register(r, cs[0]).error.None? {
        ByTypeStep(r, cs);
        ByTypeSucceedsExactlyWhenApart(Register(r, cs[0]).registry, cs[1..]);
      }
    }
  }

  lemma {:induction false} RegisteredEntries(r: Registry, cs: seq<Registration>, queue: string, e: ConsumerDefinition)
    requires AllSucceed(r, cs)
    ensures e in EntriesOf(RegisterAll(r, cs), queue) <==>
            e in EntriesOf(r, queue) || exists c :: c in cs && c.queue == queue && c.msg.Some? && e == Entry(c)
    decreases |cs|
  {
    if cs != [] {
      var c, r' := cs[0], Register(r, cs[0]).registry;
      assert forall d :: d in cs <==> d == c || d in cs[1..];
      assert EntriesOf(r', c.queue) == EntriesOf(r, c.queue) + [Entry(c)];
      assert queue != c.queue ==> EntriesOf(r', queue) == EntriesOf(r, queue);
      RegisteredEntries(r', cs[1..], queue, e);
    }
  }

  lemma HoldsAfter(r: Registry, c: Registration, d: Registration)
    requires Register(r, c).error.None? && d.msg.Some?
    ensures Holds(Register(r, c).registry, d) <==> Holds(r, d) || SameSlot(c, d)
  {
    var before, after := EntriesOf(r, c.queue), EntriesOf(Register(r, c).registry, c.queue);
    var t := MessageType(d.msg.value);
    assert after == before + [Entry(c)];
    if d.queue == c.queue {
      if HasType(before, t) {
        var i :| 0 <= i < |before| && before[i].msgType == t;
        assert after[i].msgType == t;
      }
      if SameSlot(c, d) {
        assert after[|before|].msgType == t;
      }
    } else {
      assert EntriesOf(Register(r, c).registry, d.queue) == EntriesOf(r, d.queue);
    }
  }

  lemma TwoPlaces<T>(s: seq<T>, i: nat, j: nat)
    requires i < j < |s| && s[i] == s[j]
    ensures multiset(s)[s[i]] >= 2
  {
    assert s == s[..j] + [s[j]] + s[j + 1..];
    assert s[..j][i] == s[i];
    assert s[i] in multiset(s[..j]);
  }

  lemma TwoCopies<T>(s: seq<T>, x: T) returns (i: nat, j: nat)
    requires multiset(s)[x] >= 2
    ensures i < j < |s| && s[i] == x && s[j] == x
  {
    assert x in multiset(s);
    var k :| 0 <= k < |s| && s[k] == x;
    var rest := s[..k] + s[k + 1..];
    assert s == s[..k] + [s[k]] + s[k + 1..];
    assert multiset(s) == multiset(rest) + multiset{x};
    assert x in rest;
    var l :| 0 <= l < |rest| && rest[l] == x;
    if l < k {
      i, j := l, k;
    } else {
      i, j := k, l + 1;
    }
  }

  lemma ApartInAnyOrder(known: set<string>, cs: seq<Registration>, ds: seq<Registration>)
    requires Apart(known, cs) && multiset(cs) == multiset(ds)
    ensures Apart(known, ds)
  {
    forall d | d in ds
      ensures d in cs
    {
      assert d in multiset(ds);
    }
    forall i, j | 0 <= i < j < |ds|
      ensures !SameSlot(ds[i], ds[j])
    {
      if ds[i] == ds[j] {
        TwoPlaces(ds, i, j);
        var a, b := TwoCopies(cs, ds[i]);
        assert !SameSlot(cs[a], cs[b]);
      } else {
        assert ds[i] in cs && ds[j] in cs;
        var a :| 0 <= a < |cs| && cs[a] == ds[i];
        var b :| 0 <= b < |cs| && cs[b] == ds[j];
        assert !SameSlot(cs[if a < b then a else b], cs[if a < b then b else a]);
      }
    }
  }

  /** If registrations by type all succeed in one order, they all succeed in every order, and
      every message gets the same handler. */
  lemma ByTypeOrderDoesNotMatter(known: set<string>, cs: seq<Registration>, ds: seq<Registration>, queue: string, m: Metadata)
    requires forall c :: c in cs ==> c.ByType?
    requires multiset(cs) == multiset(ds) && AllSucceed(Empty(known), cs)
    ensures AllSucceed(Empty(known), ds)
    ensures Resolve(EntriesOf(RegisterAll(Empty(known), ds), queue), m) ==
            Resolve(EntriesOf(RegisterAll(Empty(known), cs), queue), m)
  {
    var r := Empty(known);
    forall d
      ensures d in ds <==> d in cs
    {
      assert d in ds <==> d in multiset(ds);
      assert d in cs <==> d in multiset(cs);
    }
    ByTypeSucceedsExactlyWhenApart(r, cs);
    ApartInAnyOrder(known, cs, ds);
    ByTypeSucceedsExactlyWhenApart(r, ds);
    EveryRegistryIsWellFormed(r, cs);
    EveryRegistryIsWellFormed(r, ds);
    var firsts, seconds := EntriesOf(RegisterAll(r, cs), queue), EntriesOf(RegisterAll(r, ds), queue);
    forall e
      ensures e in firsts <==> e in seconds
      ensures e in firsts ==> e.typ == BY_TYPE
    {
      RegisteredEntries(r, cs, queue, e);
      RegisteredEntries(r, ds, queue, e);
    }
    SameByTypeEntriesResolveAlike(firsts, seconds, m);
  }

  lemma SameByTypeEntriesResolveAlike(a: seq<ConsumerDefinition>, b: seq<ConsumerDefinition>, m: Metadata)
    requires forall e :: e in a <==> e in b
    requires forall e :: e in a ==> e.typ == BY_TYPE
    requires RepeatsAreSpecific(a)
    ensures Resolve(a, m) == Resolve(b, m)
  {
    var i := ResolveIsFirstMatch(a, m);
    var j := ResolveIsFirstMatch(b, m);
    if i < |a| {
      assert a[i] in b;
      var k :| 0 <= k < |b| && b[k] == a[i];
      assert j <= k;
    }
    if j < |b| {
      assert b[j] in a;
      var l :| 0 <= l < |a| && a[l] == b[j];
      assert i <= l && a[i] in a && a[l] in a;
      assert a[i].msgType == a[l].msgType;
      assert i == l;
    }
  }
}
