/** What the events of a run bring about, and that it lasts: the converse of DispatchCauses. */
module DispatchEffects {
  import opened Wrappers
  import opened Dispatch
  import opened DispatchInvariant
  import opened DispatchLock
  import opened DispatchCauses

  // ---- errors ----

  lemma CauseTells(s: State, e: Event, o: OpId, err: Error)
    requires Inv(s) && Enabled(s, e) && Cause(s, e, o, err)
    ensures Reports(Apply(s, e), o, err)
  {
    if e.Answer? {
      assert WaitInv(s, e.msg.id);
    } else if e.ReadErr? || e.Close? || e.Reconnect? {
      CancelTells(s, e, o, err);
    }
  }

  lemma CancelTells(s: State, e: Event, o: OpId, err: Error)
    requires Inv(s) && Enabled(s, e) && (e.ReadErr? || e.Close? || e.Reconnect?) && Cause(s, e, o, err)
    ensures Reports(Apply(s, e), o, err)
  {
    var id :| id in s.respWait && s.respWait[id] == o;
    assert WaitInv(s, id);
    if e.Reconnect? {
      ReconnectOps(s, e.op);
    }
  }

  /** A closed channel stays closed, for the reason it was closed. */
  lemma ClosedStays(s: State, e: Event, o: OpId)
    requires Inv(s) && Enabled(s, e) && o in s.ops && s.ops[o].closed
    ensures o in Apply(s, e).ops && Apply(s, e).ops[o].closed && Apply(s, e).ops[o].err == s.ops[o].err
    ensures Apply(s, e).ops[o].sub == s.ops[o].sub
  {
    if SendEvent(e) {
      assert Apply(s, e) == ApplySend(s, e);
    } else if WaitEvent(e) {
    } else {
      ClosedStaysInDispatch(s, e, o);
    }
  }

  lemma NotAVictim(s: State, o: OpId)
    requires Inv(s) && o in s.ops && s.ops[o].closed
    ensures o !in s.respWait.Values
  {
    forall id | id in s.respWait ensures s.respWait[id] != o {
      assert WaitInv(s, id);
    }
  }

  lemma ClosedStaysInDispatch(s: State, e: Event, o: OpId)
    requires Inv(s) && Enabled(s, e) && !CallerEvent(e) && o in s.ops && s.ops[o].closed
    ensures var t := Apply(s, e);
            o in t.ops && t.ops[o].closed && t.ops[o].err == s.ops[o].err && t.ops[o].sub == s.ops[o].sub
  {
    NotAVictim(s, o);
    match e
    case Call(_, _, _) =>
    case ReadFails(_) =>
    case ReqInit(_) =>
    case Reconnect(p) => ReconnectOps(s, p);
    case ReqSentTaken =>
    case TimeOutTaken(_) =>
    case Answer(_, msg) => assert msg.id in s.respWait ==> s.respWait[msg.id] in s.respWait.Values;
    case ReadErr(_) =>
    case DrainErr(_) =>
    case Close =>
  }

  /** A goroutine that returns an error, or is about to, goes on returning it. */
  lemma ReturningStays(s: State, e: Event, o: OpId, err: Error)
    requires Enabled(s, e) && o in s.ops && (s.ops[o].pc == Finishing(Some(err)) || s.ops[o].pc == Returned(Some(err)))
    ensures o in Apply(s, e).ops
    ensures var pc := Apply(s, e).ops[o].pc; pc == Finishing(Some(err)) || pc == Returned(Some(err))
  {
    if !CallerEvent(e) {
      DispatchKeepsPc(s, e, o);
    }
  }

  /** Dispatch moves only those that come to it. */
  lemma DispatchKeepsPc(s: State, e: Event, o: OpId)
    requires Enabled(s, e) && !CallerEvent(e) && o in s.ops
    requires e != ReqInit(o) && e != Reconnect(o) && e != TimeOutTaken(o)
    ensures o in Apply(s, e).ops && Apply(s, e).ops[o].pc == s.ops[o].pc
  {
    match e
    case Call(_, _, _) =>
    case ReadFails(_) =>
    case ReqInit(_) =>
    case Reconnect(p) => ReconnectOps(s, p);
    case ReqSentTaken =>
    case TimeOutTaken(_) =>
    case Answer(_, _) =>
    case ReadErr(_) =>
    case DrainErr(_) =>
    case Close =>
  }

  lemma ReportStays(s: State, e: Event, o: OpId, err: Error)
    requires Inv(s) && Enabled(s, e) && Reports(s, o, err)
    ensures Reports(Apply(s, e), o, err)
  {
    if s.ops[o].err == Some(err) {
      assert LocalInv(s.ops[o]);
      ClosedStays(s, e, o);
    } else {
      ReturningStays(s, e, o, err);
    }
  }

  lemma {:induction false} ReportRun(s: State, es: seq<Event>, o: OpId, err: Error)
    requires Inv(s) && Possible(s, es) && HonestRun(s, es) && (Reports(s, o, err) || Happened(s, es, o, err))
    ensures Reports(Run(s, es), o, err)
    decreases |es|
  {
    if es != [] {
      StepKeepsInv(s, es[0]);
      if Reports(s, o, err) {
        ReportStays(s, es[0], o, err);
      } else if Cause(s, es[0], o, err) {
        CauseTells(s, es[0], o, err);
      }
      ReportRun(Apply(s, es[0]), es[1..], o, err);
    }
  }

  /** An op has failed with an error, or its goroutine returns it, exactly if what causes that error has happened. */
  lemma ErrorIffItsCause(es: seq<Event>, o: OpId, err: Error)
    requires Possible(INIT, es) && HonestRun(INIT, es)
    ensures Reports(Run(INIT, es), o, err) <==> Happened(INIT, es, o, err)
  {
    if Reports(Run(INIT, es), o, err) {
      ErrorsHappen(INIT, es, o, err);
    }
    if Happened(INIT, es, o, err) {
      ReportRun(INIT, es, o, err);
    }
  }

  // ---- subscriptions and responses ----

  lemma AcceptanceTells(s: State, e: Event, o: OpId)
    requires Inv(s) && Enabled(s, e) && e.Answer? && Settles(s, e.msg, o) && e.msg.ok
    ensures IsAccepted(Apply(s, e), o)
  {
    assert WaitInv(s, e.msg.id);
  }

  lemma {:induction false} AcceptanceRun(s: State, es: seq<Event>, o: OpId)
    requires Inv(s) && Possible(s, es) && HonestRun(s, es) && (IsAccepted(s, o) || AnsweredWith(s, es, o, true))
    ensures IsAccepted(Run(s, es), o)
    decreases |es|
  {
    if es != [] {
      StepKeepsInv(s, es[0]);
      if IsAccepted(s, o) {
        ClosedStays(s, es[0], o);
      } else if es[0].Answer? && Settles(s, es[0].msg, o) && es[0].msg.ok {
        AcceptanceTells(s, es[0], o);
      }
      AcceptanceRun(Apply(s, es[0]), es[1..], o);
    }
  }

  /** A subscription counts as accepted exactly if the server's answer to it said so. */
  lemma AcceptedIffAnswered(es: seq<Event>, o: OpId)
    requires Possible(INIT, es) && HonestRun(INIT, es)
    ensures IsAccepted(Run(INIT, es), o) <==> AnsweredWith(INIT, es, o, true)
  {
    if IsAccepted(Run(INIT, es), o) {
      AcceptedWasAnswered(INIT, es, o);
    }
    if AnsweredWith(INIT, es, o, true) {
      AcceptanceRun(INIT, es, o);
    }
  }

  lemma ResponseTells(s: State, e: Event, o: OpId)
    requires Inv(s) && Enabled(s, e) && e.Answer? && Feeds(s, e.msg, o)
    ensures Has(Apply(s, e), o, e.msg)
  {
    assert WaitInv(s, e.msg.id);
    AnswerHasRoom(s, e.msg);
  }

  lemma HeldStays(s: State, e: Event, o: OpId, msg: Message)
    requires Enabled(s, e) && Has(s, o, msg)
    ensures Has(Apply(s, e), o, msg)
  {
    if SendEvent(e) {
      assert Apply(s, e) == ApplySend(s, e);
    } else if WaitEvent(e) {
      WaitKeepsHeld(s, e, o, msg);
    } else {
      DispatchKeepsHeld(s, e, o, msg);
    }
  }

  lemma WaitKeepsHeld(s: State, e: Event, o: OpId, msg: Message)
    requires Enabled(s, e) && WaitEvent(e) && Has(s, o, msg)
    ensures Has(Apply(s, e), o, msg)
  {
    if e == Receive(o) {
      assert s.ops[o].buf == [s.ops[o].buf[0]] + s.ops[o].buf[1..];
    }
  }

  lemma DispatchKeepsHeld(s: State, e: Event, o: OpId, msg: Message)
    requires Enabled(s, e) && !CallerEvent(e) && Has(s, o, msg)
    ensures Has(Apply(s, e), o, msg)
  {
    match e
    case Call(_, _, _) =>
    case ReadFails(_) =>
    case ReqInit(_) =>
    case Reconnect(p) => ReconnectOps(s, p);
    case ReqSentTaken =>
    case TimeOutTaken(_) =>
    case Answer(_, _) =>
    case ReadErr(_) =>
    case DrainErr(_) =>
    case Close =>
  }

  lemma {:induction false} HeldRun(s: State, es: seq<Event>, o: OpId, msg: Message)
    requires Inv(s) && Possible(s, es) && HonestRun(s, es) && (Has(s, o, msg) || Arrived(s, es, o, msg))
    ensures Has(Run(s, es), o, msg)
    decreases |es|
  {
    if es != [] {
      StepKeepsInv(s, es[0]);
      if Has(s, o, msg) {
        HeldStays(s, es[0], o, msg);
      } else if es[0].Answer? && es[0].msg == msg && Feeds(s, msg, o) {
        ResponseTells(s, es[0], o);
      }
      HeldRun(Apply(s, es[0]), es[1..], o, msg);
    }
  }

  /** A call has a response, read or waiting to be read, exactly if it arrived while the call was registered for it. */
  lemma HeldIffArrived(es: seq<Event>, o: OpId, msg: Message)
    requires Possible(INIT, es) && HonestRun(INIT, es)
    ensures Has(Run(INIT, es), o, msg) <==> Arrived(INIT, es, o, msg)
  {
    if Has(Run(INIT, es), o, msg) {
      HeldHasArrived(INIT, es, o, msg);
    }
    if Arrived(INIT, es, o, msg) {
      HeldRun(INIT, es, o, msg);
    }
  }

  // ---- how wait returns ----

  /** Where the last steps of wait leave the caller. */
  ghost predicate Lasting(s: State, e: Event) {
    match e
    case Complete(o) => o in s.ops && s.ops[o].pc == Returned(None)
    case ReceiveClosed(o) => o in s.ops && s.ops[o].closed && s.ops[o].pc == Returned(s.ops[o].err)
    case TimeOut(o) => o in s.ops && (s.ops[o].pc.TimingOut? || s.ops[o].pc.TimedOut?)
    case TimeOutTaken(o) => o in s.ops && s.ops[o].pc.TimedOut?
    case TimeOutClosing(o) => o in s.ops && s.ops[o].pc.TimedOut?
    case _ => true
  }

  predicate EndsWait(e: Event) {
    e.Complete? || e.ReceiveClosed? || e.TimeOut? || e.TimeOutTaken? || e.TimeOutClosing?
  }

  lemma LastingNow(s: State, e: Event)
    requires Enabled(s, e) && EndsWait(e)
    ensures Lasting(Apply(s, e), e)
  {
  }

  /** A goroutine that has left wait is not moved any more, but for a timeout that is reported. */
  lemma OutStays(s: State, e: Event, o: OpId)
    requires Enabled(s, e) && o in s.ops && (s.ops[o].pc.Returned? || s.ops[o].pc.TimingOut? || s.ops[o].pc.TimedOut?)
    ensures o in Apply(s, e).ops
    ensures var pc := Apply(s, e).ops[o].pc; pc == s.ops[o].pc || (s.ops[o].pc.TimingOut? && pc.TimedOut?)
  {
    if !CallerEvent(e) && e != TimeOutTaken(o) {
      DispatchKeepsPc(s, e, o);
    }
  }

  lemma LastingStays(s: State, e: Event, f: Event)
    requires Inv(s) && Enabled(s, f) && EndsWait(e) && Lasting(s, e)
    ensures Lasting(Apply(s, f), e)
  {
    OutStays(s, f, e.op);
    if e.ReceiveClosed? {
      ClosedStays(s, f, e.op);
    }
  }

  lemma {:induction false} LastingRun(s: State, es: seq<Event>, e: Event)
    requires Inv(s) && Possible(s, es) && HonestRun(s, es) && EndsWait(e) && (Lasting(s, e) || e in es)
    ensures Lasting(Run(s, es), e)
    decreases |es|
  {
    if es != [] {
      StepKeepsInv(s, es[0]);
      if Lasting(s, e) {
        LastingStays(s, e, es[0]);
      } else if es[0] == e {
        LastingNow(s, e);
      }
      LastingRun(Apply(s, es[0]), es[1..], e);
    }
  }

  /** A wait that completes returns nil, one that finds the channel closed returns its error, a timeout stays one, for good. */
  lemma WaitReturnsForGood(es: seq<Event>, e: Event)
    requires Possible(INIT, es) && HonestRun(INIT, es) && EndsWait(e) && e in es
    ensures Lasting(Run(INIT, es), e)
  {
    LastingRun(INIT, es, e);
  }

  /** o took a message from its channel although its op had failed. */
  predicate ReceivedFailed(s: State, es: seq<Event>, o: OpId)
    requires Possible(s, es)
    decreases |es|
  {
    es != [] && ((es[0] == Receive(o) && s.ops[o].err.Some?) || ReceivedFailed(Apply(s, es[0]), es[1..], o))
  }

  ghost predicate ReturnsItsError(s: State, o: OpId) {
    o in s.ops && s.ops[o].err.Some? && s.ops[o].closed && s.ops[o].pc == Returned(s.ops[o].err)
  }

  lemma {:induction false} ReturnsItsErrorRun(s: State, es: seq<Event>, o: OpId)
    requires Inv(s) && Possible(s, es) && HonestRun(s, es) && (ReturnsItsError(s, o) || ReceivedFailed(s, es, o))
    ensures ReturnsItsError(Run(s, es), o)
    decreases |es|
  {
    if es != [] {
      StepKeepsInv(s, es[0]);
      if ReturnsItsError(s, o) {
        OutStays(s, es[0], o);
        ClosedStays(s, es[0], o);
      } else if es[0] == Receive(o) && s.ops[o].err.Some? {
        assert LocalInv(s.ops[o]);
      }
      ReturnsItsErrorRun(Apply(s, es[0]), es[1..], o);
    }
  }

  /** An op that has failed is returned as failed, even if a response was left to read. */
  lemma FailureBeatsResponse(es: seq<Event>, o: OpId)
    requires Possible(INIT, es) && HonestRun(INIT, es) && ReceivedFailed(INIT, es, o)
    ensures ReturnsItsError(Run(INIT, es), o)
  {
    ReturnsItsErrorRun(INIT, es, o);
  }
}
