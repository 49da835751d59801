/** One delivery from receipt to rest, on a channel that stays up: where its message is
    afterwards, by its consumer, its body, its trips and the result of its handler. */
module LifecycleOutcomes {
  import opened Common
  import opened Dispatchers
  import opened Lifecycle
  import opened LifecycleInvariant
  import opened LifecycleSteps
  import opened LifecycleTheorems
  import opened LifecycleTermination
  import D = Deliveries

  /** Where messages come to rest: the retry queue, the DLQ, done, lost. */
  datatype Rest = Rest(retry: seq<Message>, dlq: seq<Message>, done: seq<Message>, lost: seq<Lost>)

  function RestOf(s: State): Rest {
    Rest(s.retry, s.dlq, s.done, s.lost)
  }

  /** The consumer has the message in hand and has done nothing about it yet. */
  ghost predicate AtStart(s: State) {
    s.live && s.consumer.Busy? && s.consumer.next == 0 && !s.consumer.settled
  }

  lemma Call(cfg: Config, steps: seq<Step>, s: State) returns (t: State)
    requires Run(cfg, steps, s) && AtStart(s) && Invokes(s.consumer.v)
    ensures Run(cfg, steps + [Act(true)], t)
    ensures t.consumer == s.consumer.(next := 1) && RestOf(t) == RestOf(s)
    ensures t.live && t.main == s.main && t.buffer == s.buffer
    ensures t.h.runs == s.h.runs + multiset{s.consumer.d.message.id}
  {
    ReachableInv(cfg, steps);
    ActStep(cfg, s, true);
    t := Next(cfg, s, Act(true)).value;
    ReachSnoc(cfg, steps, s, Act(true));
  }

  lemma AnswerIt(cfg: Config, steps: seq<Step>, s: State) returns (t: State)
    requires Run(cfg, steps, s) && s.live && s.consumer.Busy? && !s.consumer.settled
    requires s.consumer.next == Lead(s.consumer.v)
    ensures Run(cfg, steps + [Act(true)], t)
    ensures RestOf(t) == RestOf(Answered(cfg, s, s.consumer.d, s.consumer.v)) && t.h.runs == s.h.runs
    ensures t.live && t.main == s.main && t.buffer == t.unacked == s.buffer
    ensures t.consumer == if ScriptLength(cfg.q, s.consumer.v) == s.consumer.next + 1 then Idle
                          else s.consumer.(next := s.consumer.next + 1, settled := true)
  {
    ReachableInv(cfg, steps);
    ActStep(cfg, s, true);
    AnswerFrame(cfg, s, s.consumer.d, s.consumer.v);
    t := Next(cfg, s, Act(true)).value;
    ReachSnoc(cfg, steps, s, Act(true));
  }

  lemma PublishIt(cfg: Config, steps: seq<Step>, s: State, ok: bool) returns (t: State)
    requires Run(cfg, steps, s) && s.live && s.consumer.Busy? && s.consumer.settled
    requires s.consumer.next == Lead(s.consumer.v) + 1 && Republishes(s.consumer.v)
    ensures Run(cfg, steps + [Act(ok)], t) && t.consumer == Idle
    ensures RestOf(t) == RestOf(Republished(cfg, s, s.consumer.d.message, true, ok)) && t.h.runs == s.h.runs
    ensures t.live && t.main == s.main && t.buffer == s.buffer
  {
    ReachableInv(cfg, steps);
    ActStep(cfg, s, ok);
    t := Next(cfg, s, Act(ok)).value;
    ReachSnoc(cfg, steps, s, Act(ok));
  }

  lemma AnswerAgain(cfg: Config, steps: seq<Step>, s: State, ok: bool) returns (t: State)
    requires Run(cfg, steps, s) && s.live && s.consumer.Busy? && s.consumer.settled && s.unacked == s.buffer
    requires s.consumer.next == Lead(s.consumer.v) + 1 && s.consumer.v.FailedWithoutDlq?
    ensures Run(cfg, steps + [Act(ok)], t) && t.consumer == Idle && RestOf(t) == RestOf(s)
    ensures !t.live && t.main == Messages(s.buffer) + s.main && t.buffer == s.buffer && t.h.runs == s.h.runs
  {
    ReachableInv(cfg, steps);
    ActStep(cfg, s, ok);
    t := Next(cfg, s, Act(ok)).value;
    ReachSnoc(cfg, steps, s, Act(ok));
  }

  /** What the actions of a verdict come to. */
  ghost function Ended(cfg: Config, s: State, ok: bool): Rest
    requires s.consumer.Busy?
  {
    var m, v, b := s.consumer.d.message, s.consumer.v, RestOf(s);
    var a := RestOf(Answered(cfg, s, s.consumer.d, v));
    if !Republishes(v) then a
    else if !ok then a.(lost := a.lost + [Lost(m, PublishFailed)])
    else if cfg.q.withDLQ then a.(dlq := a.dlq + [Addressed(cfg, m)])
    else a.(lost := a.lost + [Lost(Addressed(cfg, m), Unroutable)])
  }

  lemma Script(cfg: Config, steps: seq<Step>, s: State, ok: bool) returns (more: seq<Step>, t: State)
    requires Run(cfg, steps, s) && AtStart(s)
    ensures Run(cfg, steps + more, t) && t.consumer == Idle && RestOf(t) == Ended(cfg, s, ok)
    ensures forall x :: x in more ==> x.Act?
    ensures t.h.runs == s.h.runs + (if Invokes(s.consumer.v) then multiset{s.consumer.d.message.id} else multiset{})
    ensures t.live == !s.consumer.v.FailedWithoutDlq? && t.buffer == s.buffer
    ensures t.main == (if s.consumer.v.FailedWithoutDlq? then Messages(s.buffer) else []) + s.main
  {
    hide Run, Answered, Republished, Addressed;
    var s1 := s;
    more := [];
    assert steps + [] == steps;
    if Invokes(s.consumer.v) {
      s1 := Call(cfg, steps, s);
      more := [Act(true)];
      SameAnswer(cfg, s, s1);
    }
    var s2 := AnswerIt(cfg, steps + more, s1);
    assert steps + (more + [Act(true)]) == steps + more + [Act(true)];
    more := more + [Act(true)];
    RepublishedRests(cfg, s2, s.consumer.d.message, ok);
    if Republishes(s.consumer.v) {
      t := PublishIt(cfg, steps + more, s2, ok);
      assert steps + (more + [Act(ok)]) == steps + more + [Act(ok)];
      more := more + [Act(ok)];
    } else if s.consumer.v.FailedWithoutDlq? {
      t := AnswerAgain(cfg, steps + more, s2, ok);
      assert steps + (more + [Act(ok)]) == steps + more + [Act(ok)];
      more := more + [Act(ok)];
    } else {
      t := s2;
      assert [] + s.main == s.main;
    }
  }

  lemma SameAnswer(cfg: Config, s: State, t: State)
    requires s.consumer.Busy? && t.consumer.Busy? && RestOf(s) == RestOf(t)
    requires s.consumer.d == t.consumer.d && s.consumer.v == t.consumer.v
    ensures RestOf(Answered(cfg, s, s.consumer.d, s.consumer.v)) == RestOf(Answered(cfg, t, t.consumer.d, t.consumer.v))
  {
  }

  lemma RepublishedRests(cfg: Config, s: State, m: Message, ok: bool)
    ensures var b := RestOf(s);
            RestOf(Republished(cfg, s, m, true, ok)) ==
            if !ok then b.(lost := b.lost + [Lost(m, PublishFailed)])
            else if cfg.q.withDLQ then b.(dlq := b.dlq + [Addressed(cfg, m)])
            else b.(lost := b.lost + [Lost(Addressed(cfg, m), Unroutable)])
  {
  }

  /** A rejected message: delayed, dead-lettered, or dropped. */
  ghost function Rejected(cfg: Config, b: Rest, m: Message): Rest {
    if cfg.q.withRetry && cfg.q.withDLQ then b.(retry := b.retry + [Rejection(cfg, m)])
    else if cfg.q.withDLQ then b.(dlq := b.dlq + [Rejection(cfg, m)])
    else b.(lost := b.lost + [Lost(m, NoDeadLetterTarget)])
  }

  /** A message acknowledged and published to the DLQ by the dispatcher. */
  ghost function Forwarded(cfg: Config, b: Rest, m: Message, ok: bool): Rest {
    if !ok then b.(lost := b.lost + [Lost(m, PublishFailed)])
    else if cfg.q.withDLQ then b.(dlq := b.dlq + [Addressed(cfg, m)])
    else b.(lost := b.lost + [Lost(Addressed(cfg, m), Unroutable)])
  }

  lemma TakeFirst(cfg: Config, steps: seq<Step>, s: State, r: HandlerResult) returns (t: State)
    requires Run(cfg, steps, s) && s.live && s.consumer.Idle? && s.buffer != []
    ensures Run(cfg, steps + [Receive(r)], t) && AtStart(t)
    ensures Fresh(cfg, s.buffer[0].message) && D.Extract(Seen(s.buffer[0].message)).Extracted?
    ensures t.consumer == Busy(s.buffer[0], r, VerdictOn(cfg, s.buffer[0].message, r), 0, false)
    ensures t.buffer == s.buffer[1..] && t.main == s.main && RestOf(t) == RestOf(s) && t.h.runs == s.h.runs
  {
    ReachableInv(cfg, steps);
    assert s.buffer[0] in s.buffer;
    FreshMetadata(cfg, s.buffer[0].message);
    t := Next(cfg, s, Receive(r)).value;
    ReachSnoc(cfg, steps, s, Receive(r));
  }

  /** Where a delivery ends if its connection holds. Its handler is called at most once, and
      exactly if it has a consumer, its body unmarshals and its trips are within the retries.
      `ok` says whether a publish to the DLQ works. */
  lemma DeliveryEndsByOutcome(cfg: Config, steps: seq<Step>, s: State, r: HandlerResult, ok: bool)
    returns (more: seq<Step>, t: State)
    requires Run(cfg, steps, s) && s.live && s.consumer.Idle? && s.buffer != []
    ensures Run(cfg, steps + [Receive(r)] + more, t) && t.consumer.Idle? && forall x :: x in more ==> x.Act?
    ensures var m, b := s.buffer[0].message, RestOf(s);
            var chosen := Resolve(cfg.defs, FirstMetadata(m));
            var called := && chosen.Chosen? && chosen.def.msgType in m.decodesAs
                          && !(cfg.q.withRetry && m.trips >= cfg.q.retries);
            && (t.h.runs == if called then s.h.runs + multiset{m.id} else s.h.runs)
            && RestOf(t) ==
               (if !chosen.Chosen? then b.(lost := b.lost + [Lost(m, NoConsumerFor)])
                else if chosen.def.msgType !in m.decodesAs then Rejected(cfg, b, m)
                else if !called then Forwarded(cfg, b, m, ok)
                else if r == Success then b.(done := b.done + [m])
                else if r == RetryableError && cfg.q.withRetry then Rejected(cfg, b, m)
                else if cfg.q.withDLQ then Forwarded(cfg, b, m, ok)
                else b.(lost := b.lost + [Lost(m, FailureWithoutDlq)]))
            && (t.live <==> !(called && r != Success && !(r == RetryableError && cfg.q.withRetry) && !cfg.q.withDLQ))
  {
    var m := s.buffer[0].message;
    var s1 := TakeFirst(cfg, steps, s, r);
    more, t := Script(cfg, steps + [Receive(r)], s1, ok);
    FreshConsumer(cfg, m);
    FreshMetadata(cfg, m);
    EndedByVerdict(cfg, s1, ok);
  }

  lemma EndedByVerdict(cfg: Config, s: State, ok: bool)
    requires s.consumer.Busy?
    ensures var m, v, b := s.consumer.d.message, s.consumer.v, RestOf(s);
            Ended(cfg, s, ok) ==
            match v
            case Unmatched => b.(lost := b.lost + [Lost(m, NoConsumerFor)])
            case Undecodable | SentToRetry => Rejected(cfg, b, m)
            case Succeeded => b.(done := b.done + [m])
            case LimitReached | Failed => Forwarded(cfg, b, m, ok)
            case FailedWithoutDlq => b.(lost := b.lost + [Lost(m, FailureWithoutDlq)])
  {
  }
}
