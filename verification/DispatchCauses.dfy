/** What callers are told, traced back to the events of the run. */
module DispatchCauses {
  import opened Wrappers
  import opened Dispatch
  import opened DispatchInvariant
  import opened DispatchLock
  import opened DispatchResults

  // ---- errors ----

  /** The op has failed with err, or its goroutine is returning it. */
  predicate Reports(s: State, o: OpId, err: Error) {
    o in s.ops &&
    (s.ops[o].err == Some(err) || s.ops[o].pc == Finishing(Some(err)) || s.ops[o].pc == Returned(Some(err)))
  }

  /** The response is for subscription op o. */
  predicate Settles(s: State, msg: Message, o: OpId) {
    Registered(s, msg.id, o) && o in s.ops && s.ops[o].sub
  }

  /** The one kind of step that can be behind an error. */
  predicate Cause(s: State, e: Event, o: OpId, err: Error) {
    match err
    case ServerError => e.Answer? && Settles(s, e.msg, o) && !e.msg.ok
    case ReadError => e.ReadErr? && o in s.respWait.Values && s.lastOp != Some(o)
    case ClientReconnected => e.Reconnect? && s.reading && o in s.respWait.Values && s.lastOp != Some(o)
    case ClientQuit => (e.Close? && s.reading && o in s.respWait.Values) || e == ReconnectRefused(o) || e == GiveUp(o, ClientQuit)
    case Dead => e == DialFails(o)
    case WriteError => e == WriteEnd(o) && o in s.ops && s.ops[o].pc == Writing(true, false)
    case ContextDone => e == GiveUp(o, ContextDone)
  }

  predicate Happened(s: State, es: seq<Event>, o: OpId, err: Error)
    requires Possible(s, es)
    decreases |es|
  {
    es != [] && (Cause(s, es[0], o, err) || Happened(Apply(s, es[0]), es[1..], o, err))
  }

  lemma SendCauses(s: State, e: Event, o: OpId, err: Error)
    requires Enabled(s, e) && SendEvent(e) && Reports(Apply(s, e), o, err)
    ensures Reports(s, o, err) || Cause(s, e, o, err)
  {
    assert Apply(s, e) == ApplySend(s, e);
    var pc := Apply(s, e).ops[o].pc;
    if e.op == o && (pc == Finishing(Some(err)) || pc == Returned(Some(err))) {
      OwnSendCauses(s, e, err, pc);
    }
  }

  /** What the sender's next place says about the step. */
  lemma OwnSendCauses(s: State, e: Event, err: Error, pc: Pc)
    requires Enabled(s, e) && SendEvent(e) && pc == Apply(s, e).ops[e.op].pc
    requires pc == Finishing(Some(err)) || pc == Returned(Some(err))
    ensures Cause(s, e, e.op, err)
  {
    match e
    case GiveUp(_, _) =>
    case DialFails(_) =>
    case DialOk(_) =>
    case ReconnectRefused(_) =>
    case WriteStart(_, _) =>
    case WriteEnd(_) =>
  }

  lemma WaitCauses(s: State, e: Event, o: OpId, err: Error)
    requires Enabled(s, e) && WaitEvent(e) && Reports(Apply(s, e), o, err)
    ensures Reports(s, o, err)
  {
  }

  /** cancelAllRequests gives its error to the victims, and to nobody else. */
  lemma CancelCauses(s: State, why: Error, inflight: Option<OpId>, o: OpId, err: Error)
    requires Reports(CancelAll(s, why, inflight), o, err)
    ensures Reports(s, o, err) || (err == why && o in s.respWait.Values && Some(o) != inflight)
  {
  }

  lemma AnswerCauses(s: State, msg: Message, o: OpId, err: Error)
    requires Reports(HandleResponse(s, msg), o, err)
    ensures Reports(s, o, err) || (err.ServerError? && Settles(s, msg, o) && !msg.ok)
  {
  }

  /** The state a reconnecting caller leaves, before dispatch turns to the old connection. */
  function Taken(s: State, p: OpId): State
    requires Enabled(s, Reconnect(p))
  {
    SetPc(s, p, Locked(s.ops[p].pc.retry)).(writeConn := Some(s.ops[p].pc.codec))
  }

  lemma ReconnectOps(s: State, p: OpId)
    requires Enabled(s, Reconnect(p))
    ensures Apply(s, Reconnect(p)).ops ==
            if s.reading then CancelAll(Taken(s, p), ClientReconnected, s.lastOp).ops else Taken(s, p).ops
  {
  }

  lemma ReconnectCauses(s: State, p: OpId, o: OpId, err: Error)
    requires Enabled(s, Reconnect(p)) && Reports(Apply(s, Reconnect(p)), o, err)
    ensures Reports(s, o, err) || Cause(s, Reconnect(p), o, err)
  {
    ReconnectOps(s, p);
    assert Reports(Taken(s, p), o, err) ==> Reports(s, o, err);
    if s.reading {
      CancelCauses(Taken(s, p), ClientReconnected, s.lastOp, o, err);
    }
  }

  lemma DispatchCausesOnly(s: State, e: Event, o: OpId, err: Error)
    requires Enabled(s, e) && !CallerEvent(e) && Reports(Apply(s, e), o, err)
    ensures Reports(s, o, err) || Cause(s, e, o, err)
  {
    match e
    case Call(_, _, _) =>
    case ReadFails(_) =>
    case ReqInit(_) =>
    case Reconnect(p) => ReconnectCauses(s, p, o, err);
    case ReqSentTaken =>
    case TimeOutTaken(_) =>
    case Answer(_, msg) => AnswerCauses(s, msg, o, err);
    case ReadErr(_) => CancelCauses(s, ReadError, s.lastOp, o, err);
    case DrainErr(_) =>
    case Close => if s.reading { CancelCauses(s, ClientQuit, None, o, err); }
  }

  lemma {:induction false} ErrorsHappen(s: State, es: seq<Event>, o: OpId, err: Error)
    requires Possible(s, es) && Reports(Run(s, es), o, err)
    ensures Reports(s, o, err) || Happened(s, es, o, err)
    decreases |es|
  {
    if es != [] {
      var t := Apply(s, es[0]);
      ErrorsHappen(t, es[1..], o, err);
      if Reports(t, o, err) {
        if SendEvent(es[0]) {
          SendCauses(s, es[0], o, err);
        } else if WaitEvent(es[0]) {
          WaitCauses(s, es[0], o, err);
        } else {
          DispatchCausesOnly(s, es[0], o, err);
        }
      }
    }
  }

  /** In any run, an error that a caller gets is the one that fits what has happened to its request. */
  lemma EveryErrorHasItsCause(es: seq<Event>, o: OpId, err: Error)
    requires Possible(INIT, es) && o in Run(INIT, es).ops && Run(INIT, es).ops[o].pc == Returned(Some(err))
    ensures Happened(INIT, es, o, err)
  {
    ErrorsHappen(INIT, es, o, err);
  }

  // ---- subscriptions ----

  /** Such a response arrived, and ok says which. */
  predicate AnsweredWith(s: State, es: seq<Event>, o: OpId, ok: bool)
    requires Possible(s, es)
    decreases |es|
  {
    es != [] &&
    ((es[0].Answer? && Settles(s, es[0].msg, o) && es[0].msg.ok == ok) || AnsweredWith(Apply(s, es[0]), es[1..], o, ok))
  }

  predicate IsAccepted(s: State, o: OpId) {
    o in s.ops && s.ops[o].sub && s.ops[o].closed && s.ops[o].err.None?
  }

  lemma CallerAcceptsNone(s: State, e: Event, o: OpId)
    requires Enabled(s, e) && CallerEvent(e) && IsAccepted(Apply(s, e), o)
    ensures IsAccepted(s, o)
  {
    if SendEvent(e) {
      assert Apply(s, e) == ApplySend(s, e);
    }
  }

  lemma CancelAcceptsNone(s: State, why: Error, inflight: Option<OpId>, o: OpId)
    requires IsAccepted(CancelAll(s, why, inflight), o)
    ensures IsAccepted(s, o)
  {
  }

  lemma AnswerAccepts(s: State, msg: Message, o: OpId)
    requires IsAccepted(HandleResponse(s, msg), o)
    ensures IsAccepted(s, o) || (Settles(s, msg, o) && msg.ok)
  {
  }

  lemma ReconnectAcceptsNone(s: State, p: OpId, o: OpId)
    requires Enabled(s, Reconnect(p)) && IsAccepted(Apply(s, Reconnect(p)), o)
    ensures IsAccepted(s, o)
  {
    ReconnectOps(s, p);
    assert IsAccepted(Taken(s, p), o) ==> IsAccepted(s, o);
    if s.reading {
      CancelAcceptsNone(Taken(s, p), ClientReconnected, s.lastOp, o);
    }
  }

  lemma DispatchAccepts(s: State, e: Event, o: OpId)
    requires Enabled(s, e) && !CallerEvent(e) && IsAccepted(Apply(s, e), o)
    ensures IsAccepted(s, o) || (e.Answer? && Settles(s, e.msg, o) && e.msg.ok)
  {
    match e
    case Call(_, _, _) =>
    case ReadFails(_) =>
    case ReqInit(_) =>
    case Reconnect(p) => ReconnectAcceptsNone(s, p, o);
    case ReqSentTaken =>
    case TimeOutTaken(_) =>
    case Answer(_, msg) => AnswerAccepts(s, msg, o);
    case ReadErr(_) => CancelAcceptsNone(s, ReadError, s.lastOp, o);
    case DrainErr(_) =>
    case Close => if s.reading { CancelAcceptsNone(s, ClientQuit, None, o); }
  }

  lemma {:induction false} AcceptedWasAnswered(s: State, es: seq<Event>, o: OpId)
    requires Possible(s, es) && IsAccepted(Run(s, es), o)
    ensures IsAccepted(s, o) || AnsweredWith(s, es, o, true)
    decreases |es|
  {
    if es != [] {
      var t := Apply(s, es[0]);
      AcceptedWasAnswered(t, es[1..], o);
      if IsAccepted(t, o) {
        if CallerEvent(es[0]) { CallerAcceptsNone(s, es[0], o); } else { DispatchAccepts(s, es[0], o); }
      }
    }
  }

  lemma {:induction false} RefusedWasAnswered(s: State, es: seq<Event>, o: OpId)
    requires Possible(s, es) && Happened(s, es, o, ServerError)
    ensures AnsweredWith(s, es, o, false)
    decreases |es|
  {
    if !Cause(s, es[0], o, ServerError) {
      RefusedWasAnswered(Apply(s, es[0]), es[1..], o);
    }
  }

  /** A subscriber gets nil only if the server accepted the subscription, and the server's error only if it refused. */
  lemma SubscriberIsToldTheAnswer(es: seq<Event>, o: OpId)
    requires Possible(INIT, es) && HonestRun(INIT, es) && o in Run(INIT, es).ops && Run(INIT, es).ops[o].sub
    ensures Run(INIT, es).ops[o].pc == Returned(None) ==> AnsweredWith(INIT, es, o, true)
    ensures Run(INIT, es).ops[o].pc == Returned(Some(ServerError)) ==> AnsweredWith(INIT, es, o, false)
  {
    var pc := Run(INIT, es).ops[o].pc;
    if pc == Returned(None) {
      NilMeansAnswered(es, o);
      AcceptedWasAnswered(INIT, es, o);
    } else if pc == Returned(Some(ServerError)) {
      EveryErrorHasItsCause(es, o, ServerError);
      RefusedWasAnswered(INIT, es, o);
    }
  }

  // ---- responses ----

  predicate Has(s: State, o: OpId, msg: Message) {
    o in s.ops && (msg in s.ops[o].got || msg in s.ops[o].buf)
  }

  /** The response is for call op o. */
  predicate Feeds(s: State, msg: Message, o: OpId) {
    Registered(s, msg.id, o) && o in s.ops && !s.ops[o].sub
  }

  /** This very message arrived while o was registered for its id. */
  predicate Arrived(s: State, es: seq<Event>, o: OpId, msg: Message)
    requires Possible(s, es)
    decreases |es|
  {
    es != [] &&
    ((es[0].Answer? && es[0].msg == msg && Feeds(s, msg, o)) || Arrived(Apply(s, es[0]), es[1..], o, msg))
  }

  lemma CallerReceivesOwn(s: State, e: Event, o: OpId, msg: Message)
    requires Enabled(s, e) && CallerEvent(e) && Has(Apply(s, e), o, msg)
    ensures Has(s, o, msg)
  {
    if SendEvent(e) {
      assert Apply(s, e) == ApplySend(s, e);
    } else if e.Receive? {
      assert s.ops[e.op].buf[0] in s.ops[e.op].buf;
    }
  }

  lemma AnswerIsForwarded(s: State, answer: Message, o: OpId, msg: Message)
    requires Has(HandleResponse(s, answer), o, msg)
    ensures Has(s, o, msg) || (answer == msg && Feeds(s, msg, o))
  {
  }

  lemma DispatchForwards(s: State, e: Event, o: OpId, msg: Message)
    requires Enabled(s, e) && !CallerEvent(e) && Has(Apply(s, e), o, msg)
    ensures Has(s, o, msg) || (e.Answer? && e.msg == msg && Feeds(s, msg, o))
  {
    match e
    case Call(_, _, _) =>
    case ReadFails(_) =>
    case ReqInit(_) =>
    case Reconnect(_) =>
    case ReqSentTaken =>
    case TimeOutTaken(_) =>
    case Answer(_, answer) => AnswerIsForwarded(s, answer, o, msg);
    case ReadErr(_) =>
    case DrainErr(_) =>
    case Close =>
  }

  lemma {:induction false} HeldHasArrived(s: State, es: seq<Event>, o: OpId, msg: Message)
    requires Possible(s, es) && Has(Run(s, es), o, msg)
    ensures Has(s, o, msg) || Arrived(s, es, o, msg)
    decreases |es|
  {
    if es != [] {
      var t := Apply(s, es[0]);
      HeldHasArrived(t, es[1..], o, msg);
      if Has(t, o, msg) {
        if CallerEvent(es[0]) { CallerReceivesOwn(s, es[0], o, msg); } else { DispatchForwards(s, es[0], o, msg); }
      }
    }
  }

  /** In any run, a response that a caller has read arrived as it is, while the caller's op was registered for its id. */
  lemma ReadWasSent(es: seq<Event>, o: OpId, msg: Message)
    requires Possible(INIT, es) && o in Run(INIT, es).ops && msg in Run(INIT, es).ops[o].got
    ensures Arrived(INIT, es, o, msg)
  {
    HeldHasArrived(INIT, es, o, msg);
  }
}
