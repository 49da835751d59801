/** Queue definitions (queue.go): the fields, the builder calls that set them, and the
    names derived from a queue's own name. */
module Queues {

  /** The value of a queue definition. Durations are counted in nanoseconds. */
  datatype Queue = Queue(
    name: string, quorum: bool, durable: bool, autoDelete: bool, exclusive: bool,
    withTTL: bool, ttl: int, withMaxLength: bool, maxLength: int,
    withDLQ: bool, dqlName: string, withDLQMaxLength: bool, dlqMaxLength: int,
    withRetry: bool, retryTTL: int, retries: int)
  {
    function DLQName(): string {
      name + "-dlq"
    }

    function RetryName(): string {
      name + "-retry"
    }

    function QueueType(): string {
      if quorum then "quorum" else "classic"
    }

    /** The broker returns rejected messages to this queue through its retry queue. */
    predicate Cycles() {
      withRetry && withDLQ
    }

    /** What every chain of builder calls keeps: the name a dispatcher publishes dead
        letters to is the derived one when a DLQ was asked for, and empty otherwise. */
    predicate WellBuilt() {
      dqlName == if withDLQ then DLQName() else ""
    }
  }

  datatype Setting =
    | Durability(durable: bool)
    | AutoDeletion(autoDelete: bool)
    | Exclusivity(exclusive: bool)
    | MaxLength(length: int)
    | TTL(ttl: int)
    | DLQ
    | DLQMaxLength(length: int)
    | Retry(ttl: int, retries: int)
    | QuorumType

  function Blank(name: string): Queue {
    Queue(name, false, true, false, false, false, 0, false, 0, false, "", false, 0, false, 0, 0)
  }

  function Configure(q: Queue, s: Setting): Queue {
    match s
    case Durability(d) => q.(durable := d)
    case AutoDeletion(d) => q.(autoDelete := d)
    case Exclusivity(e) => q.(exclusive := e)
    case MaxLength(n) => q.(withMaxLength := true, maxLength := n)
    case TTL(d) => q.(withTTL := true, ttl := d)
    case DLQ => q.(withDLQ := true, dqlName := q.DLQName())
    case DLQMaxLength(n) => q.(withDLQMaxLength := true, dlqMaxLength := n)
    case Retry(d, n) => q.(withRetry := true, retryTTL := d, retries := n)
    case QuorumType => q.(quorum := true)
  }

  /** The definition left by a chain of builder calls, in call order. */
  function Build(name: string, settings: seq<Setting>): Queue {
    if settings == [] then Blank(name)
    else Configure(Build(name, settings[..|settings| - 1]), settings[|settings| - 1])
  }

  lemma BuildSnoc(name: string, settings: seq<Setting>, s: Setting)
    ensures Build(name, settings + [s]) == Configure(Build(name, settings), s)
  {
    assert (settings + [s])[..|settings|] == settings;
  }

  /** The definition but for its TTL. */
  function TtlFree(q: Queue): Queue {
    q.(withTTL := false, ttl := 0)
  }

  /** The two definitions differ in their TTL at most. */
  predicate AlikeButForTtl(p: Queue, q: Queue) {
    TtlFree(p) == TtlFree(q)
  }

  lemma TtlPlaysNoPart(q: Queue, s: Setting)
    ensures TtlFree(Configure(q, s)) == if s.TTL? then TtlFree(q) else TtlFree(Configure(TtlFree(q), s))
  {
  }

  lemma ConfigureKeepsAlike(p: Queue, q: Queue, s: Setting)
    requires AlikeButForTtl(p, q)
    ensures AlikeButForTtl(Configure(p, s), Configure(q, s))
  {
    hide TtlFree, Configure;
    TtlPlaysNoPart(p, s);
    TtlPlaysNoPart(q, s);
  }

  /** Asking for a TTL anywhere in a chain of builder calls changes nothing but the TTL. */
  lemma {:induction false} TtlChangesTtlAlone(name: string, before: seq<Setting>, d: int, after: seq<Setting>)
    ensures AlikeButForTtl(Build(name, before + [TTL(d)] + after), Build(name, before + after))
    decreases |after|
  {
    if after == [] {
      assert before + [TTL(d)] + [] == before + [TTL(d)] && before + [] == before;
      BuildSnoc(name, before, TTL(d));
    } else {
      hide Configure, AlikeButForTtl;
      var front, s := after[..|after| - 1], after[|after| - 1];
      TtlChangesTtlAlone(name, before, d, front);
      BuildSnoc(name, before + [TTL(d)] + front, s);
      BuildSnoc(name, before + front, s);
      assert before + [TTL(d)] + after == before + [TTL(d)] + front + [s];
      assert before + after == before + front + [s];
      ConfigureKeepsAlike(Build(name, before + [TTL(d)] + front), Build(name, before + front), s);
    }
  }

  lemma ConfigureStaysWellBuilt(q: Queue, s: Setting)
    requires q.WellBuilt()
    ensures Configure(q, s).name == q.name
    ensures Configure(q, s).WellBuilt()
    ensures Configure(q, s).withDLQ == (q.withDLQ || s.DLQ?)
  {
    match s {
      case Durability(_) | AutoDeletion(_) | Exclusivity(_) | MaxLength(_) | TTL(_) =>
      case DLQ | DLQMaxLength(_) | Retry(_, _) | QuorumType =>
    }
  }

  lemma {:induction false} EveryChainIsWellBuilt(name: string, settings: seq<Setting>)
    ensures Build(name, settings).name == name
    ensures Build(name, settings).WellBuilt()
    ensures Build(name, settings).withDLQ <==> exists i :: 0 <= i < |settings| && settings[i].DLQ?
  {
    if settings != [] {
      var n := |settings| - 1;
      EveryChainIsWellBuilt(name, settings[..n]);
      ConfigureStaysWellBuilt(Build(name, settings[..n]), settings[n]);
    }
  }

  /** The two settings are of one kind: the later one counts. */
  predicate SameKind(a: Setting, b: Setting) {
    match a
    case Durability(_) => b.Durability?
    case AutoDeletion(_) => b.AutoDeletion?
    case Exclusivity(_) => b.Exclusivity?
    case MaxLength(_) => b.MaxLength?
    case TTL(_) => b.TTL?
    case DLQ => b.DLQ?
    case DLQMaxLength(_) => b.DLQMaxLength?
    case Retry(_, _) => b.Retry?
    case QuorumType => b.QuorumType?
  }

  /** The definition has what the setting asks for. */
  predicate Has(q: Queue, s: Setting) {
    match s
    case Durability(d) => q.durable == d
    case AutoDeletion(d) => q.autoDelete == d
    case Exclusivity(e) => q.exclusive == e
    case MaxLength(n) => q.withMaxLength && q.maxLength == n
    case TTL(d) => q.withTTL && q.ttl == d
    case DLQ => q.withDLQ && q.dqlName == q.name + "-dlq"
    case DLQMaxLength(n) => q.withDLQMaxLength && q.dlqMaxLength == n
    case Retry(d, n) => q.withRetry && q.retryTTL == d && q.retries == n
    case QuorumType => q.quorum
  }

  /** A setting leaves alone what settings of other kinds ask for. */
  lemma OtherKindsKeep(q: Queue, a: Setting, b: Setting)
    requires Has(q, a) && !SameKind(a, b)
    ensures Has(Configure(q, b), a)
  {
    match b
    case Durability(_) =>
    case AutoDeletion(_) =>
    case Exclusivity(_) =>
    case MaxLength(_) =>
    case TTL(_) =>
    case DLQ =>
    case DLQMaxLength(_) =>
    case Retry(_, _) =>
    case QuorumType =>
  }

  /** In every chain of builder calls, the last call of each kind counts, with its own numbers. */
  lemma {:induction false} LastSettingCounts(name: string, settings: seq<Setting>, i: nat)
    requires i < |settings| && forall j :: i < j < |settings| ==> !SameKind(settings[i], settings[j])
    ensures Has(Build(name, settings), settings[i])
    decreases |settings|
  {
    var n := |settings| - 1;
    if i < n {
      LastSettingCounts(name, settings[..n], i);
      OtherKindsKeep(Build(name, settings[..n]), settings[i], settings[n]);
    } else {
      EveryChainIsWellBuilt(name, settings[..n]);
    }
  }

  /** Some call of the chain is of the setting's kind. */
  ghost predicate Asked(settings: seq<Setting>, s: Setting) {
    exists i :: 0 <= i < |settings| && SameKind(s, settings[i])
  }

  lemma AskedSnoc(settings: seq<Setting>, last: Setting, s: Setting)
    ensures Asked(settings + [last], s) <==> Asked(settings, s) || SameKind(s, last)
  {
    var all := settings + [last];
    if SameKind(s, last) {
      assert SameKind(s, all[|settings|]);
    }
    if i :| 0 <= i < |settings| && SameKind(s, settings[i]) {
      assert SameKind(s, all[i]);
    }
  }

  /** Durable and classic, and neither deleted nor exclusive, unless asked for. */
  ghost predicate FlagsReflect(q: Queue, settings: seq<Setting>) {
    && (!Asked(settings, Durability(true)) ==> q.durable)
    && (!Asked(settings, AutoDeletion(true)) ==> !q.autoDelete)
    && (!Asked(settings, Exclusivity(true)) ==> !q.exclusive)
    && (q.quorum <==> Asked(settings, QuorumType))
  }

  /** Limits, TTL, retry and DLQ exactly if asked for. */
  ghost predicate FeaturesReflect(q: Queue, settings: seq<Setting>) {
    && (q.withMaxLength <==> Asked(settings, MaxLength(0)))
    && (q.withTTL <==> Asked(settings, TTL(0)))
    && (q.withDLQ <==> Asked(settings, DLQ))
    && (q.withDLQMaxLength <==> Asked(settings, DLQMaxLength(0)))
    && (q.withRetry <==> Asked(settings, Retry(0, 0)))
  }

  lemma FlagsReflectSnoc(q: Queue, settings: seq<Setting>, last: Setting)
    requires FlagsReflect(q, settings)
    ensures FlagsReflect(Configure(q, last), settings + [last])
  {
    hide Asked;
    AskedSnoc(settings, last, Durability(true));
    AskedSnoc(settings, last, AutoDeletion(true));
    AskedSnoc(settings, last, Exclusivity(true));
    AskedSnoc(settings, last, QuorumType);
  }

  lemma FeaturesReflectSnoc(q: Queue, settings: seq<Setting>, last: Setting)
    requires FeaturesReflect(q, settings)
    ensures FeaturesReflect(Configure(q, last), settings + [last])
  {
    hide Asked;
    AskedSnoc(settings, last, MaxLength(0));
    AskedSnoc(settings, last, TTL(0));
    AskedSnoc(settings, last, DLQ);
    AskedSnoc(settings, last, DLQMaxLength(0));
    AskedSnoc(settings, last, Retry(0, 0));
  }

  /** What no call of a chain asks for is as in a new queue. */
  lemma {:induction false} UnsetFieldsKeepTheirDefaults(name: string, settings: seq<Setting>)
    ensures FlagsReflect(Build(name, settings), settings) && FeaturesReflect(Build(name, settings), settings)
    decreases |settings|
  {
    if settings != [] {
      hide FlagsReflect, FeaturesReflect, Configure;
      var front, last := settings[..|settings| - 1], settings[|settings| - 1];
      assert settings == front + [last];
      UnsetFieldsKeepTheirDefaults(name, front);
      BuildSnoc(name, front, last);
      FlagsReflectSnoc(Build(name, front), front, last);
      FeaturesReflectSnoc(Build(name, front), front, last);
    }
  }

  // Every queue name a definition asks the broker for.
  function DeclaredNames(q: Queue): set<string> {
    {q.name}
    + (if q.withRetry then {q.RetryName()} else {})
    + (if q.withDLQ then {q.DLQName()} else {})
  }

  /** `p` is named like a queue that `q` derives and declares. */
  predicate Shadows(p: Queue, q: Queue) {
    || (q.withRetry && p.name == q.RetryName())
    || (q.withDLQ && p.name == q.DLQName())
  }

  lemma SuffixCancels(a: string, b: string, suffix: string)
    requires a + suffix == b + suffix
    ensures a == b
  {
    assert |a| == |b|;
    assert a == (a + suffix)[..|a|];
    assert b == (b + suffix)[..|b|];
  }

  lemma DerivedNamesDiffer(a: string, b: string)
    ensures a + "-dlq" != b + "-retry"
    ensures a + "-dlq" == b + "-dlq" ==> a == b
    ensures a + "-retry" == b + "-retry" ==> a == b
    ensures a + "-dlq" != a && a + "-retry" != a
  {
    var x, y := a + "-dlq", b + "-retry";
    assert x[|x| - 1] == 'q' && y[|y| - 1] == 'y';
    if a + "-dlq" == b + "-dlq" {
      SuffixCancels(a, b, "-dlq");
    }
    if a + "-retry" == b + "-retry" {
      SuffixCancels(a, b, "-retry");
    }
    assert |a + "-dlq"| > |a| && |a + "-retry"| > |a|;
  }

  /** Two definitions compete for a queue name exactly when one is named like the other's
      retry or dead-letter queue and that feature is switched on. */
  lemma NamesMeetExactlyWhenShadowed(p: Queue, q: Queue)
    requires p.name != q.name
    ensures !(DeclaredNames(p) !! DeclaredNames(q)) <==> Shadows(p, q) || Shadows(q, p)
  {
    DerivedNamesDiffer(p.name, q.name);
    DerivedNamesDiffer(q.name, p.name);
    if Shadows(p, q) {
      assert p.name in DeclaredNames(p) && p.name in DeclaredNames(q);
    }
    if Shadows(q, p) {
      assert q.name in DeclaredNames(p) && q.name in DeclaredNames(q);
    }
  }

  /** The definition object; every builder changes its receiver in place and returns it. */
  class QueueDefinition {
    const name: string
    var quorum: bool
    var durable: bool
    var autoDelete: bool
    var exclusive: bool
    var withTTL: bool
    var ttl: int
    var withMaxLength: bool
    var maxLength: int
    var withDLQ: bool
    var dqlName: string
    var withDLQMaxLength: bool
    var dlqMaxLength: int
    var withRetry: bool
    var retryTTL: int
    var retries: int

    function Value(): Queue
      reads this
    {
      Queue(name, quorum, durable, autoDelete, exclusive, withTTL, ttl, withMaxLength, maxLength,
            withDLQ, dqlName, withDLQMaxLength, dlqMaxLength, withRetry, retryTTL, retries)
    }

    constructor (name: string)
      ensures Value() == Build(name, [])
    {
      this.name := name;
      durable, autoDelete, exclusive, quorum := true, false, false, false;
      withTTL, ttl, withMaxLength, maxLength := false, 0, false, 0;
      withDLQ, dqlName, withDLQMaxLength, dlqMaxLength := false, "", false, 0;
      withRetry, retryTTL, retries := false, 0, 0;
    }

    method Durable(d: bool) returns (q: QueueDefinition)
      modifies this
      ensures q == this && Value() == Configure(old(Value()), Durability(d))
    {
      durable := d;
      return this;
    }

    method Delete(d: bool) returns (q: QueueDefinition)
      modifies this
      ensures q == this && Value() == Configure(old(Value()), AutoDeletion(d))
    {
      autoDelete := d;
      return this;
    }

    method Exclusive(e: bool) returns (q: QueueDefinition)
      modifies this
      ensures q == this && Value() == Configure(old(Value()), Exclusivity(e))
    {
      exclusive := e;
      return this;
    }

    method WithMaxLength(length: int) returns (q: QueueDefinition)
      modifies this
      ensures q == this && Value() == Configure(old(Value()), MaxLength(length))
    {
      withMaxLength := true;
      maxLength := length;
      return this;
    }

    method WithTTL(d: int) returns (q: QueueDefinition)
      modifies this
      ensures q == this && Value() == Configure(old(Value()), TTL(d))
    {
      withTTL := true;
      ttl := d;
      return this;
    }

    method WithDLQ() returns (q: QueueDefinition)
      modifies this
      ensures q == this && Value() == Configure(old(Value()), DLQ)
    {
      withDLQ := true;
      dqlName := name + "-dlq";
      return this;
    }

    method WithDLQMaxLength(length: int) returns (q: QueueDefinition)
      modifies this
      ensures q == this && Value() == Configure(old(Value()), DLQMaxLength(length))
    {
      withDLQMaxLength := true;
      dlqMaxLength := length;
      return this;
    }

    method WithRetry(d: int, times: int) returns (q: QueueDefinition)
      modifies this
      ensures q == this && Value() == Configure(old(Value()), Retry(d, times))
    {
      withRetry := true;
      retryTTL := d;
      retries := times;
      return this;
    }

    method Quorum() returns (q: QueueDefinition)
      modifies this
      ensures q == this && Value() == Configure(old(Value()), QuorumType)
    {
      quorum := true;
      return this;
    }
  }
}
