/** Three readings of the accounts: where every message is, how often its handler may still
    run, and how many steps are left. Each is an equation or inequality kept by every step. */
module LifecycleBounds {
  import opened Common
  import opened Dispatchers
  import opened Lifecycle
  import opened LifecycleInvariant
  import opened LifecycleSteps
  import opened LifecycleAccounts
  import Q = Queues

  function Max(a: int, b: int): int {
    if a < b then b else a
  }

  predicate Rejects(v: Verdict) {
    v.Undecodable? || v.SentToRetry?
  }

  // Conservation.

  function Places(id: nat): Weights {
    Weights(One(id), One(id), One(id), One(id), One(id), One(id), Nothing(), Nothing())
  }

  /** Between the answer and the publish to the DLQ, the consumer alone holds the message. */
  ghost function Held(s: State, id: nat): int {
    if && s.consumer.Busy? && s.consumer.settled && s.consumer.next > Lead(s.consumer.v)
       && !s.consumer.v.FailedWithoutDlq? && s.consumer.d.message.id == id then 1 else 0
  }

  ghost function Count(s: State, id: nat): int {
    Total(s, Places(id)) + Held(s, id)
  }

  ghost function Expected(s: State, id: nat): int {
    (if id in s.h.published then 1 else 0) + s.h.copies[id]
  }

  lemma SumOfNothing(ds: seq<Tagged>)
    ensures Sum(ds, OnTagged(Nothing())) == 0
  {
    if ds != [] {
      SumOfNothing(ds[1..]);
    }
  }

  lemma DropConserves(s: State, id: nat)
    requires s.live
    ensures Total(Drop(s), Places(id)) == Total(s, Places(id))
  {
    DropAccount(s, Places(id));
  }

  /** What is counted keeps pace with what is expected. */
  ghost predicate Balances(s: State, s': State, id: nat) {
    Count(s', id) - Expected(s', id) == Count(s, id) - Expected(s, id)
  }

  lemma AnswerConserves(cfg: Config, s: State, ok: bool, id: nat)
    requires s.consumer.Busy? && PhaseInv(cfg, s) && TagsInv(s) && s.consumer.next == Lead(s.consumer.v)
    ensures Balances(s, Advance(Turned(cfg, s, Effect(cfg, s, ok))), id)
  {
    var d, v := s.consumer.d, s.consumer.v;
    TurnAccount(cfg, s, Effect(cfg, s, ok), Places(id));
    if s.live {
      AnswerAccount(cfg, s, d, v, Places(id));
      AnswerFrame(cfg, s, d, v);
    }
  }

  lemma RepublishConserves(cfg: Config, s: State, ok: bool, id: nat)
    requires s.consumer.Busy? && s.consumer.next > Lead(s.consumer.v) && !s.consumer.v.FailedWithoutDlq?
    requires s.consumer.next + 1 == ScriptLength(cfg.q, s.consumer.v)
    ensures Balances(s, Advance(Turned(cfg, s, Effect(cfg, s, ok))), id)
  {
    hide Total;
    var m, settled := s.consumer.d.message, s.consumer.settled;
    var t := Republished(cfg, s, m, settled, ok);
    TurnAccount(cfg, s, t, Places(id));
    RepublishAccount(cfg, s, m, settled, ok, Places(id));
  }

  lemma SecondAnswerConserves(cfg: Config, s: State, ok: bool, id: nat)
    requires s.consumer.Busy? && s.consumer.next > Lead(s.consumer.v) && s.consumer.v.FailedWithoutDlq?
    requires s.consumer.next < ScriptLength(cfg.q, s.consumer.v)
    ensures Balances(s, Advance(Turned(cfg, s, Effect(cfg, s, ok))), id)
  {
    TurnAccount(cfg, s, Effect(cfg, s, ok), Places(id));
    if s.live {
      DropConserves(s, id);
    }
  }

  lemma InvokeConserves(cfg: Config, s: State, ok: bool, id: nat)
    requires s.consumer.Busy? && PhaseInv(cfg, s) && s.consumer.next < Lead(s.consumer.v)
    ensures Balances(s, Advance(Turned(cfg, s, Effect(cfg, s, ok))), id)
  {
    TurnAccount(cfg, s, Effect(cfg, s, ok), Places(id));
  }

  lemma ActConserves(cfg: Config, s: State, ok: bool, id: nat)
    requires Valid(cfg) && Inv(cfg, s) && Next(cfg, s, Act(ok)).Some?
    ensures Balances(s, Next(cfg, s, Act(ok)).value, id)
  {
    ActStep(cfg, s, ok);
    if s.consumer.next < Lead(s.consumer.v) {
      InvokeConserves(cfg, s, ok, id);
    } else if s.consumer.next == Lead(s.consumer.v) {
      AnswerConserves(cfg, s, ok, id);
    } else if s.consumer.v.FailedWithoutDlq? {
      SecondAnswerConserves(cfg, s, ok, id);
    } else {
      RepublishConserves(cfg, s, ok, id);
    }
  }

  lemma PublishConserves(cfg: Config, s: State, m: Message, id: nat)
    requires Next(cfg, s, Publish(m)).Some?
    ensures Balances(s, Next(cfg, s, Publish(m)).value, id)
  {
    PublishAccount(cfg, s, m, Places(id));
  }

  lemma DeliverConserves(cfg: Config, s: State, id: nat)
    requires Next(cfg, s, Deliver).Some?
    ensures Balances(s, Next(cfg, s, Deliver).value, id)
  {
    DeliverAccount(cfg, s, Places(id));
  }

  lemma ReceiveConserves(cfg: Config, s: State, r: HandlerResult, id: nat)
    requires Next(cfg, s, Receive(r)).Some?
    ensures Balances(s, Next(cfg, s, Receive(r)).value, id)
  {
    ReceiveAccount(cfg, s, r, Places(id));
  }

  lemma ExpireConserves(cfg: Config, s: State, id: nat)
    requires s.retry != []
    ensures Balances(s, Expired(cfg, s), id)
  {
    ExpireAccount(cfg, s, Places(id));
  }

  lemma ResumeConserves(cfg: Config, s: State, id: nat)
    requires Next(cfg, s, Resume).Some?
    ensures Balances(s, Next(cfg, s, Resume).value, id)
  {
    ResumeAccount(cfg, s, Places(id));
    SumOfNothing(s.buffer);
  }

  lemma StepConserves(cfg: Config, s: State, step: Step, id: nat)
    requires Valid(cfg) && Inv(cfg, s) && Next(cfg, s, step).Some?
    ensures Balances(s, Next(cfg, s, step).value, id)
  {
    hide Total;
    match step
    case Publish(m) => PublishConserves(cfg, s, m, id);
    case Deliver => DeliverConserves(cfg, s, id);
    case Receive(r) => ReceiveConserves(cfg, s, r, id);
    case Act(ok) => ActConserves(cfg, s, ok, id);
    case Expire =>
      ExpireStep(cfg, s);
      ExpireConserves(cfg, s, id);
    case Lose => DropConserves(s, id);
    case Resume => ResumeConserves(cfg, s, id);
  }

  // Handler calls.

  /** How often a handler may run for one publish. */
  function Allowance(q: Q.Queue): nat {
    if q.withRetry then Max(q.retries, 0) else 1
  }

  function CallsLeft(q: Q.Queue, trips: nat): nat {
    if q.withRetry then Max(q.retries - trips, 0) else 1
  }

  function CallsLeftOf(q: Q.Queue, id: nat): Weight {
    (m: Message) => if m.id == id then CallsLeft(q, m.trips) else 0
  }

  function CallsLeftAfter(q: Q.Queue, id: nat): Weight {
    (m: Message) => if m.id == id then CallsLeft(q, m.trips + 1) else 0
  }

  function Calls(q: Q.Queue, id: nat): Weights {
    Weights(CallsLeftOf(q, id), CallsLeftOf(q, id), CallsLeftAfter(q, id), Nothing(), Nothing(), Nothing(),
            Nothing(), One(id))
  }

  /** A call made but not yet paid for by an answer, or one that a stale delivery may make. */
  ghost function CallsAtHand(s: State, id: nat): int {
    if s.consumer.Idle? || s.consumer.d.message.id != id then 0
    else if s.live then if !s.consumer.settled && s.consumer.next > 0 then -1 else 0
    else if s.consumer.next == 0 then 1 else 0
  }

  ghost function Spent(cfg: Config, s: State, id: nat): int {
    s.h.runs[id] + Total(s, Calls(cfg.q, id)) + CallsAtHand(s, id)
  }

  ghost function Earned(cfg: Config, s: State, id: nat): int {
    (if id in s.h.published then Allowance(cfg.q) else 0) + s.h.redelivered[id]
  }

  /** Met nothing so far but retries, the limit, and no redelivery. */
  ghost predicate Steady(s: State, id: nat) {
    id !in s.h.excused && id !in s.h.redelivered
  }

  /** Calls are at most what was earned, and exactly that while a message is steady. */
  ghost predicate CallsInv(cfg: Config, s: State, id: nat) {
    && Spent(cfg, s, id) <= Earned(cfg, s, id)
    && (cfg.q.Cycles() && Steady(s, id) ==> Spent(cfg, s, id) == Earned(cfg, s, id))
  }

  lemma DropKeepsCalls(cfg: Config, s: State, id: nat)
    requires s.live && s.unacked == Open(s.consumer) + s.buffer
    requires s.consumer.Busy? && s.consumer.settled ==> s.consumer.next > 0
    ensures Spent(cfg, Drop(s), id) - Earned(cfg, Drop(s), id) == Spent(cfg, s, id) - Earned(cfg, s, id)
  {
    hide Total;
    DropAccount(s, Calls(cfg.q, id));
    IdsCount(s.unacked, id);
    SumConcat(Open(s.consumer), s.buffer, OnTagged(One(id)));
    SumOfNothing(s.buffer);
    if s.consumer.Busy? && !s.consumer.settled {
      SumFirst([s.consumer.d], OnTagged(One(id)));
    }
  }

  lemma SettledCalls(cfg: Config, m: Message, v: Verdict, id: nat)
    ensures Settled(cfg, m, v, Calls(cfg.q, id)) ==
            if Rejects(v) && cfg.q.Cycles() && m.id == id then CallsLeft(cfg.q, m.trips + 1) else 0
  {
  }

  lemma AnswerKeepsCalls(cfg: Config, s: State, ok: bool, id: nat)
    requires Valid(cfg) && ConsumerInv(cfg, s) && s.consumer.Busy? && Fresh(cfg, s.consumer.d.message)
    requires s.consumer.next == Lead(s.consumer.v) && s.live && s.unacked == [s.consumer.d] + s.buffer
    requires CallsInv(cfg, s, id)
    ensures CallsInv(cfg, Advance(Turned(cfg, s, Effect(cfg, s, ok))), id)
  {
    hide Total;
    var d, v := s.consumer.d, s.consumer.v;
    TurnAccount(cfg, s, Effect(cfg, s, ok), Calls(cfg.q, id));
    VerdictFacts(cfg, s);
    AnswerAccount(cfg, s, d, v, Calls(cfg.q, id));
    AnswerFrame(cfg, s, d, v);
    SettledCalls(cfg, d.message, v, id);
  }

  lemma StaleAnswerKeepsCalls(cfg: Config, s: State, ok: bool, id: nat)
    requires s.consumer.Busy? && PhaseInv(cfg, s) && s.consumer.next == Lead(s.consumer.v) && !s.live && StaleInv(s)
    requires CallsInv(cfg, s, id)
    ensures CallsInv(cfg, Advance(Turned(cfg, s, Effect(cfg, s, ok))), id)
  {
    TurnAccount(cfg, s, s, Calls(cfg.q, id));
  }

  lemma InvokeKeepsCalls(cfg: Config, s: State, ok: bool, id: nat)
    requires s.consumer.Busy? && PhaseInv(cfg, s) && s.consumer.next < Lead(s.consumer.v)
    requires CallsInv(cfg, s, id)
    ensures CallsInv(cfg, Advance(Turned(cfg, s, Effect(cfg, s, ok))), id)
  {
    TurnAccount(cfg, s, Effect(cfg, s, ok), Calls(cfg.q, id));
  }

  lemma RepublishKeepsCalls(cfg: Config, s: State, ok: bool, id: nat)
    requires s.consumer.Busy? && PhaseInv(cfg, s) && s.consumer.next > Lead(s.consumer.v)
    requires CallsInv(cfg, s, id) && !s.consumer.v.FailedWithoutDlq?
    ensures CallsInv(cfg, Advance(Turned(cfg, s, Effect(cfg, s, ok))), id)
  {
    hide Total;
    var t := Effect(cfg, s, ok);
    TurnAccount(cfg, s, t, Calls(cfg.q, id));
    assert Moved(cfg.q, s.consumer, s.live) == Idle;
    RepublishAccount(cfg, s, s.consumer.d.message, s.consumer.settled, ok, Calls(cfg.q, id));
  }

  lemma SecondAnswerKeepsCalls(cfg: Config, s: State, ok: bool, id: nat)
    requires s.consumer.Busy? && PhaseInv(cfg, s) && TagsInv(s) && s.consumer.next > Lead(s.consumer.v)
    requires CallsInv(cfg, s, id) && s.consumer.v.FailedWithoutDlq?
    ensures CallsInv(cfg, Advance(Turned(cfg, s, Effect(cfg, s, ok))), id)
  {
    hide Total;
    TurnAccount(cfg, s, Effect(cfg, s, ok), Calls(cfg.q, id));
    assert Moved(cfg.q, s.consumer, s.live) == Idle;
    if s.live {
      DropKeepsCalls(cfg, s, id);
    }
  }

  lemma {:induction false} NoneOfId(ds: seq<Tagged>, id: nat)
    requires forall t :: t in ds ==> t.message.id != id
    ensures Sum(ds, OnTagged(One(id))) == 0
  {
    if ds != [] {
      assert ds[0] in ds;
      NoneOfId(ds[1..], id);
    }
  }

  lemma ResumeKeepsCalls(cfg: Config, s: State, id: nat)
    requires Inv(cfg, s) && Next(cfg, s, Resume).Some? && CallsInv(cfg, s, id)
    ensures CallsInv(cfg, Next(cfg, s, Resume).value, id)
  {
    ResumeAccount(cfg, s, Calls(cfg.q, id));
    SumIsNonNegative(s.buffer, OnTagged(One(id)));
    if Steady(s, id) {
      NoneOfId(s.buffer, id);
    }
  }

  lemma PublishKeepsCalls(cfg: Config, s: State, m: Message, id: nat)
    requires Next(cfg, s, Publish(m)).Some? && CallsInv(cfg, s, id)
    ensures CallsInv(cfg, Next(cfg, s, Publish(m)).value, id)
  {
    PublishAccount(cfg, s, m, Calls(cfg.q, id));
  }

  lemma DeliverKeepsCalls(cfg: Config, s: State, id: nat)
    requires Next(cfg, s, Deliver).Some? && CallsInv(cfg, s, id)
    ensures CallsInv(cfg, Next(cfg, s, Deliver).value, id)
  {
    DeliverAccount(cfg, s, Calls(cfg.q, id));
  }

  lemma ReceiveKeepsCalls(cfg: Config, s: State, r: HandlerResult, id: nat)
    requires Next(cfg, s, Receive(r)).Some? && CallsInv(cfg, s, id)
    ensures CallsInv(cfg, Next(cfg, s, Receive(r)).value, id)
  {
    hide Total;
    ReceiveAccount(cfg, s, r, Calls(cfg.q, id));
  }

  lemma ActKeepsCalls(cfg: Config, s: State, ok: bool, id: nat)
    requires Valid(cfg) && Inv(cfg, s) && Next(cfg, s, Act(ok)).Some? && CallsInv(cfg, s, id)
    ensures CallsInv(cfg, Next(cfg, s, Act(ok)).value, id)
  {
    ActStep(cfg, s, ok);
    if s.consumer.next < Lead(s.consumer.v) {
      InvokeKeepsCalls(cfg, s, ok, id);
    } else if s.consumer.next == Lead(s.consumer.v) {
      if s.live {
        AnswerKeepsCalls(cfg, s, ok, id);
      } else {
        StaleAnswerKeepsCalls(cfg, s, ok, id);
      }
    } else if s.consumer.v.FailedWithoutDlq? {
      SecondAnswerKeepsCalls(cfg, s, ok, id);
    } else {
      RepublishKeepsCalls(cfg, s, ok, id);
    }
  }

  lemma ExpireKeepsCalls(cfg: Config, s: State, id: nat)
    requires MessagesInv(cfg, s) && s.retry != [] && CallsInv(cfg, s, id)
    ensures CallsInv(cfg, Expired(cfg, s), id)
  {
    hide Total;
    assert s.retry[0] in s.retry;
    ExpireAccount(cfg, s, Calls(cfg.q, id));
  }

  lemma StepKeepsCalls(cfg: Config, s: State, step: Step, id: nat)
    requires Valid(cfg) && Inv(cfg, s) && Next(cfg, s, step).Some? && CallsInv(cfg, s, id)
    ensures CallsInv(cfg, Next(cfg, s, step).value, id)
  {
    hide Total;
    match step
    case Publish(m) => PublishKeepsCalls(cfg, s, m, id);
    case Deliver => DeliverKeepsCalls(cfg, s, id);
    case Receive(r) => ReceiveKeepsCalls(cfg, s, r, id);
    case Act(ok) => ActKeepsCalls(cfg, s, ok, id);
    case Expire =>
      ExpireStep(cfg, s);
      ExpireKeepsCalls(cfg, s, id);
    case Lose => DropKeepsCalls(cfg, s, id);
    case Resume => ResumeKeepsCalls(cfg, s, id);
  }

  // Steps left.

  function TripsLeft(q: Q.Queue, trips: nat): nat {
    Max(Limit(q) - trips, 0)
  }

  function Waiting(q: Q.Queue): Weight {
    (m: Message) => 5 * TripsLeft(q, m.trips) + 5
  }

  function Delivered(q: Q.Queue): Weight {
    (m: Message) => 5 * TripsLeft(q, m.trips)
  }

  function Delayed(q: Q.Queue): Weight {
    (m: Message) => 5 * TripsLeft(q, m.trips + 1) + 6
  }

  function Four(): Weight {
    (m: Message) => 4
  }

  function Steps(q: Q.Queue): Weights {
    Weights(Waiting(q), Delivered(q), Delayed(q), Nothing(), Nothing(), Nothing(), Four(), Four())
  }

  ghost function StepsAtHand(q: Q.Queue, c: Consumer): int {
    if c.Idle? then 0
    else ScriptLength(q, c.v) - c.next + (if Rejects(c.v) && c.next <= Lead(c.v) then 1 else 0)
  }

  ghost function Work(cfg: Config, s: State): int {
    s.h.progress + Total(s, Steps(cfg.q)) + StepsAtHand(cfg.q, s.consumer)
  }

  /** What `n` publishes pay for. */
  function Budget(q: Q.Queue, n: nat): nat {
    (5 * Limit(q) + 5) * n
  }

  ghost function Supply(cfg: Config, s: State): int {
    Budget(cfg.q, |s.h.published|) + 5 * |s.h.redelivered| + 5 * s.h.futile
  }

  ghost predicate UsesWork(cfg: Config, s: State, s': State) {
    Work(cfg, s') - Supply(cfg, s') <= Work(cfg, s) - Supply(cfg, s)
  }

  lemma {:induction false} SumShifts(ds: seq<Tagged>, q: Q.Queue)
    ensures Sum(ds, OnTagged(Waiting(q))) == Sum(ds, OnTagged(Delivered(q))) + 5 * |ds|
  {
    if ds != [] {
      SumShifts(ds[1..], q);
    }
  }

  lemma DropKeepsWork(cfg: Config, s: State)
    requires s.live
    ensures Work(cfg, Drop(s)) - Supply(cfg, Drop(s)) == Work(cfg, s) - Supply(cfg, s)
  {
    DropAccount(s, Steps(cfg.q));
    SumShifts(s.unacked, cfg.q);
    IdsSize(s.unacked);
    assert |Drop(s).h.redelivered| == |s.h.redelivered| + |s.unacked|;
  }

  lemma AnswerKeepsWork(cfg: Config, s: State, ok: bool)
    requires s.consumer.Busy? && PhaseInv(cfg, s) && TagsInv(s) && s.consumer.next == Lead(s.consumer.v)
    ensures UsesWork(cfg, s, Advance(Turned(cfg, s, Effect(cfg, s, ok))))
  {
    hide Total;
    var d, v := s.consumer.d, s.consumer.v;
    var t := Effect(cfg, s, ok);
    TurnAccount(cfg, s, t, Steps(cfg.q));
    if s.live {
      AnswerAccount(cfg, s, d, v, Steps(cfg.q));
      AnswerFrame(cfg, s, d, v);
      if Rejects(v) {
        assert t.h.futile == s.h.futile + (if cfg.q.Cycles() && d.message.trips >= Limit(cfg.q) then 1 else 0);
      }
    }
  }

  lemma LastKeepsWork(cfg: Config, s: State, ok: bool)
    requires s.consumer.Busy? && PhaseInv(cfg, s) && s.consumer.next > Lead(s.consumer.v)
    ensures UsesWork(cfg, s, Advance(Turned(cfg, s, Effect(cfg, s, ok))))
  {
    hide Total;
    TurnAccount(cfg, s, Effect(cfg, s, ok), Steps(cfg.q));
    if !s.consumer.v.FailedWithoutDlq? {
      RepublishAccount(cfg, s, s.consumer.d.message, s.consumer.settled, ok, Steps(cfg.q));
    } else if s.live {
      DropKeepsWork(cfg, s);
    }
  }

  lemma ActKeepsWork(cfg: Config, s: State, ok: bool)
    requires Valid(cfg) && Inv(cfg, s) && Next(cfg, s, Act(ok)).Some?
    ensures UsesWork(cfg, s, Next(cfg, s, Act(ok)).value)
  {
    ActStep(cfg, s, ok);
    if s.consumer.next < Lead(s.consumer.v) {
      TurnAccount(cfg, s, Effect(cfg, s, ok), Steps(cfg.q));
    } else if s.consumer.next == Lead(s.consumer.v) {
      AnswerKeepsWork(cfg, s, ok);
    } else {
      LastKeepsWork(cfg, s, ok);
    }
  }

  lemma PublishSuppliesWork(cfg: Config, s: State, m: Message)
    requires Next(cfg, s, Publish(m)).Some?
    ensures UsesWork(cfg, s, Next(cfg, s, Publish(m)).value)
  {
    PublishAccount(cfg, s, m, Steps(cfg.q));
    assert |s.h.published + {m.id}| == |s.h.published| + 1;
    var per := 5 * Limit(cfg.q) + 5;
    assert per * (|s.h.published| + 1) == per * |s.h.published| + per;
  }

  lemma DeliverKeepsWork(cfg: Config, s: State)
    requires Next(cfg, s, Deliver).Some?
    ensures UsesWork(cfg, s, Next(cfg, s, Deliver).value)
  {
    DeliverAccount(cfg, s, Steps(cfg.q));
  }

  lemma ScriptIsShort(q: Q.Queue, v: Verdict)
    ensures ScriptLength(q, v) + (if Rejects(v) then 1 else 0) <= 3
  {
  }

  lemma ReceiveKeepsWork(cfg: Config, s: State, r: HandlerResult)
    requires Next(cfg, s, Receive(r)).Some?
    ensures UsesWork(cfg, s, Next(cfg, s, Receive(r)).value)
  {
    ReceiveAccount(cfg, s, r, Steps(cfg.q));
    ScriptIsShort(cfg.q, VerdictOn(cfg, s.buffer[0].message, r));
  }

  lemma ExpireKeepsWork(cfg: Config, s: State)
    requires s.retry != []
    ensures UsesWork(cfg, s, Expired(cfg, s))
  {
    ExpireAccount(cfg, s, Steps(cfg.q));
  }

  lemma ResumeKeepsWork(cfg: Config, s: State)
    requires Next(cfg, s, Resume).Some?
    ensures UsesWork(cfg, s, Next(cfg, s, Resume).value)
  {
    ResumeAccount(cfg, s, Steps(cfg.q));
    SumIsNonNegative(s.buffer, OnTagged(Four()));
  }

  /** Every delivery, receipt, action and expiry uses up work; only publishes, redeliveries
      and futile rejections supply it. */
  lemma StepKeepsWork(cfg: Config, s: State, step: Step)
    requires Valid(cfg) && Inv(cfg, s) && Next(cfg, s, step).Some?
    ensures UsesWork(cfg, s, Next(cfg, s, step).value)
  {
    match step
    case Publish(m) => PublishSuppliesWork(cfg, s, m);
    case Deliver => DeliverKeepsWork(cfg, s);
    case Receive(r) => ReceiveKeepsWork(cfg, s, r);
    case Act(ok) => ActKeepsWork(cfg, s, ok);
    case Expire =>
      ExpireStep(cfg, s);
      ExpireKeepsWork(cfg, s);
    case Lose => DropKeepsWork(cfg, s);
    case Resume => ResumeKeepsWork(cfg, s);
  }
}
