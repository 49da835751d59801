/** The life cycle's invariant holds in every reachable state. */
module LifecycleSteps {
  import opened Dispatchers
  import opened Lifecycle
  import opened LifecycleInvariant

  lemma IdsHoldEveryId(ds: seq<Tagged>, t: Tagged)
    requires t in ds
    ensures t.message.id in Ids(ds)
  {
    var ids := seq(|ds|, i requires 0 <= i < |ds| => ds[i].message.id);
    var i :| 0 <= i < |ds| && ds[i] == t;
    assert ids[i] in ids;
  }

  lemma AdvanceKeepsInv(cfg: Config, s: State)
    requires Inv(cfg, s)
    ensures Inv(cfg, Advance(s))
  {
  }

  lemma PublishKeepsInv(cfg: Config, s: State, m: Message)
    requires Inv(cfg, s) && Next(cfg, s, Publish(m)).Some?
    ensures Inv(cfg, Next(cfg, s, Publish(m)).value)
  {
  }

  lemma DeliverKeepsInv(cfg: Config, s: State)
    requires Inv(cfg, s) && Next(cfg, s, Deliver).Some?
    ensures Inv(cfg, Next(cfg, s, Deliver).value)
  {
    var s' := Next(cfg, s, Deliver).value;
    assert s.main[0] in s.main;
    assert s'.unacked == Open(s'.consumer) + s'.buffer;
    assert MessagesInv(cfg, s');
  }

  lemma TakingKeepsTags(s: State, r: HandlerResult, v: Verdict)
    requires TagsInv(s) && s.consumer.Idle? && s.buffer != []
    ensures TagsInv(s.(buffer := s.buffer[1..], consumer := Busy(s.buffer[0], r, v, 0, false)))
  {
    assert s.buffer == [s.buffer[0]] + s.buffer[1..];
  }

  lemma ReceiveKeepsInv(cfg: Config, s: State, r: HandlerResult)
    requires Inv(cfg, s) && Next(cfg, s, Receive(r)).Some?
    ensures Inv(cfg, Next(cfg, s, Receive(r)).value)
  {
    var d := s.buffer[0];
    var v := VerdictOn(cfg, d.message, r);
    var t := s.(buffer := s.buffer[1..], consumer := Busy(d, r, v, 0, false));
    assert d in s.buffer && forall x :: x in s.buffer[1..] ==> x in s.buffer;
    TakingKeepsTags(s, r, v);
    assert Inv(cfg, t);
    AdvanceKeepsInv(cfg, t);
  }

  lemma ExpireKeepsInv(cfg: Config, s: State)
    requires Valid(cfg) && Inv(cfg, s) && Next(cfg, s, Expire).Some?
    ensures Inv(cfg, Next(cfg, s, Expire).value)
  {
    ExpireStep(cfg, s);
    assert s.retry[0] in s.retry;
    ExpiryIsFresh(cfg, s.retry[0]);
  }

  lemma DropKeepsInv(cfg: Config, s: State)
    requires Inv(cfg, s) && s.live
    ensures Inv(cfg, Drop(s))
  {
    var s' := Drop(s);
    forall m | m in s'.main
      ensures Fresh(cfg, m)
    {
      if m in Messages(s.unacked) {
        var i :| 0 <= i < |s.unacked| && Messages(s.unacked)[i] == m;
        assert s.unacked[i] in s.unacked;
      }
    }
    forall t | t in s.unacked
      ensures t.message.id in s'.h.redelivered
    {
      IdsHoldEveryId(s.unacked, t);
    }
    assert forall t :: t in s.buffer ==> t in s.unacked;
    if s.consumer.Busy? && !s.consumer.settled {
      assert s.unacked[0] == s.consumer.d;
    }
  }

  lemma ResumeKeepsInv(cfg: Config, s: State)
    requires Inv(cfg, s) && Next(cfg, s, Resume).Some?
    ensures Inv(cfg, Next(cfg, s, Resume).value)
  {
    assert Upto(0) == [];
  }

  // The consumer's actions.

  /** What a verdict says about the queue and about the message's trips. */
  lemma VerdictFacts(cfg: Config, s: State)
    requires ConsumerInv(cfg, s) && s.consumer.Busy? && Fresh(cfg, s.consumer.d.message)
    ensures var v, q, trips := s.consumer.v, cfg.q, s.consumer.d.message.trips;
            && (v.FailedWithoutDlq? ==> !q.withDLQ)
            && (v.Failed? ==> q.withDLQ)
            && (v.SentToRetry? || v.LimitReached? ==> q.withRetry)
            && (v.LimitReached? ==> trips >= q.retries)
            && (Invokes(v) && q.withRetry ==> trips < q.retries)
  {
    FreshMetadata(cfg, s.consumer.d.message);
  }

  lemma AnswerKeepsMessages(cfg: Config, s: State, d: Tagged, v: Verdict)
    requires Valid(cfg) && MessagesInv(cfg, s) && Fresh(cfg, d.message)
    ensures MessagesInv(cfg, Answered(cfg, s, d, v).(unacked := []))
  {
    if cfg.q.Cycles() {
      RejectionRests(cfg, d.message);
    }
  }

  lemma AnswerKeepsLosses(cfg: Config, s: State, d: Tagged, v: Verdict)
    requires LossesInv(cfg, s) && (v.FailedWithoutDlq? ==> !cfg.q.withDLQ)
    ensures LossesInv(cfg, Answered(cfg, s, d, v))
  {
  }

  lemma AnswerFrame(cfg: Config, s: State, d: Tagged, v: Verdict)
    ensures var t := Answered(cfg, s, d, v);
            && t.unacked == t.buffer == s.buffer && t.live == s.live && t.nextTag == s.nextTag
            && t.settledTags == s.settledTags + [d.tag] && t.consumer == s.consumer && t.main == s.main
            && t.h == s.h.(futile := t.h.futile)
  {
  }

  lemma AnswerKeepsTags(s: State, d: Tagged, t: State)
    requires TagsInv(s) && s.live && s.unacked == [d] + s.buffer
    requires t.live && t.unacked == t.buffer == s.buffer && t.nextTag == s.nextTag
    requires t.settledTags == s.settledTags + [d.tag]
    requires t.consumer.Busy? ==> t.consumer.d == d && t.consumer.settled
    ensures TagsInv(t)
  {
    BufferComesAfter(s, d);
    UptoSnoc(s.nextTag - |s.buffer| - 2);
    forall i | 0 <= i < |t.unacked|
      ensures t.unacked[i].tag == t.nextTag - |t.unacked| + i
    {
      assert t.unacked[i] == s.unacked[i + 1];
    }
    assert t.unacked == Open(t.consumer) + t.buffer;
  }

  lemma MovedKeepsPhase(cfg: Config, s: State, live: bool)
    requires s.consumer.Busy? && PhaseInv(cfg, s) && (live ==> s.live)
    ensures var t := s.(consumer := Moved(cfg.q, s.consumer, s.live), live := live);
            t.consumer.Busy? ==>
              && PhaseInv(cfg, t) && t.consumer.d == s.consumer.d && t.consumer.v == s.consumer.v
              && t.consumer.r == s.consumer.r
              && (t.consumer.settled <==> s.consumer.settled || (s.live && s.consumer.next == Lead(s.consumer.v)))
  {
  }

  lemma InvokeKeepsInv(cfg: Config, s: State, ok: bool)
    requires Valid(cfg) && Inv(cfg, s) && s.consumer.Busy? && s.consumer.next < Lead(s.consumer.v)
    ensures Inv(cfg, Turned(cfg, s, Effect(cfg, s, ok)))
  {
    MovedKeepsPhase(cfg, s, s.live);
    var t := Turned(cfg, s, Effect(cfg, s, ok));
    assert s.live ==> t.unacked == Open(t.consumer) + t.buffer;
  }

  lemma AnswerKeepsInv(cfg: Config, s: State, ok: bool)
    requires Valid(cfg) && Inv(cfg, s) && s.consumer.Busy? && s.consumer.next == Lead(s.consumer.v)
    ensures Inv(cfg, Turned(cfg, s, Effect(cfg, s, ok)))
  {
    var d, v := s.consumer.d, s.consumer.v;
    var t := Turned(cfg, s, Effect(cfg, s, ok));
    MovedKeepsPhase(cfg, s, s.live);
    if s.live {
      VerdictFacts(cfg, s);
      AnswerFrame(cfg, s, d, v);
      AnswerKeepsMessages(cfg, s, d, v);
      AnswerKeepsLosses(cfg, s, d, v);
      AnswerKeepsTags(s, d, t);
      assert MessagesInv(cfg, t);
    }
  }

  lemma RepublishKeepsInv(cfg: Config, s: State, ok: bool)
    requires Inv(cfg, s) && s.consumer.Busy? && s.consumer.next > Lead(s.consumer.v)
    ensures Inv(cfg, Republished(cfg, s, s.consumer.d.message, s.consumer.settled, ok))
  {
    var m, settled := s.consumer.d.message, s.consumer.settled;
    var t := Republished(cfg, s, m, settled, ok);
    assert LossesInv(cfg, t);
    assert !settled ==> !s.live && m.id in s.h.redelivered;
    assert StaleInv(t);
  }

  lemma RetiringKeepsInv(cfg: Config, s: State)
    requires Inv(cfg, s)
    requires s.consumer.Busy? && s.live ==> s.consumer.settled
    ensures Inv(cfg, s.(consumer := Idle))
  {
    var t := s.(consumer := Idle);
    assert s.live ==> t.unacked == Open(t.consumer) + t.buffer;
  }

  lemma LastKeepsInv(cfg: Config, s: State, ok: bool)
    requires Valid(cfg) && Inv(cfg, s) && s.consumer.Busy? && s.consumer.next > Lead(s.consumer.v)
    ensures Inv(cfg, Turned(cfg, s, Effect(cfg, s, ok)))
  {
    hide MessagesInv, TagsInv, LossesInv, StaleInv;
    var t := Effect(cfg, s, ok);
    assert Moved(cfg.q, s.consumer, s.live) == Idle;
    if !s.consumer.v.FailedWithoutDlq? {
      RepublishKeepsInv(cfg, s, ok);
    } else if s.live {
      DropKeepsInv(cfg, s);
    }
    RetiringKeepsInv(cfg, t);
    ExcusingKeepsInv(cfg, t.(consumer := Idle), Excused(t.h, s.consumer));
  }

  lemma ExcusingKeepsInv(cfg: Config, s: State, ids: set<nat>)
    requires Inv(cfg, s)
    ensures Inv(cfg, s.(h := s.h.(excused := ids)))
  {
  }

  lemma TurnKeepsInv(cfg: Config, s: State, ok: bool)
    requires Valid(cfg) && Inv(cfg, s) && s.consumer.Busy?
    ensures Inv(cfg, Turned(cfg, s, Effect(cfg, s, ok)))
  {
    if s.consumer.next < Lead(s.consumer.v) {
      InvokeKeepsInv(cfg, s, ok);
    } else if s.consumer.next == Lead(s.consumer.v) {
      AnswerKeepsInv(cfg, s, ok);
    } else {
      LastKeepsInv(cfg, s, ok);
    }
  }

  lemma ActKeepsInv(cfg: Config, s: State, ok: bool)
    requires Valid(cfg) && Inv(cfg, s) && Next(cfg, s, Act(ok)).Some?
    ensures Inv(cfg, Next(cfg, s, Act(ok)).value)
  {
    TurnKeepsInv(cfg, s, ok);
    ActStep(cfg, s, ok);
    AdvanceKeepsInv(cfg, Turned(cfg, s, Effect(cfg, s, ok)));
  }

  lemma StepKeepsInv(cfg: Config, s: State, step: Step)
    requires Valid(cfg) && Inv(cfg, s) && Next(cfg, s, step).Some?
    ensures Inv(cfg, Next(cfg, s, step).value)
  {
    match step
    case Publish(m) => PublishKeepsInv(cfg, s, m);
    case Deliver => DeliverKeepsInv(cfg, s);
    case Receive(r) => ReceiveKeepsInv(cfg, s, r);
    case Act(ok) => ActKeepsInv(cfg, s, ok);
    case Expire => ExpireKeepsInv(cfg, s);
    case Lose => DropKeepsInv(cfg, s);
    case Resume => ResumeKeepsInv(cfg, s);
  }

  /** The invariant of every run: any interleaving of publishes, deliveries, handler results,
      expiries, connection losses and failed publishes. */
  lemma {:induction false} ReachableInv(cfg: Config, steps: seq<Step>)
    requires Valid(cfg) && Reach(cfg, steps).Some?
    ensures Inv(cfg, Reach(cfg, steps).value)
  {
    if steps == [] {
      assert Upto(0) == [];
    } else {
      var n := |steps| - 1;
      ReachableInv(cfg, steps[..n]);
      StepKeepsInv(cfg, Reach(cfg, steps[..n]).value, steps[n]);
    }
  }
}
