/** What send and wait report to their callers. */
module DispatchResults {
  import opened Wrappers
  import opened Dispatch
  import opened DispatchInvariant
  import opened DispatchTheorems
  import opened DispatchLock

  /** A nil error means what it says: all responses read, or the subscription accepted. */
  predicate Truthful(op: Op) {
    op.pc == Returned(None) ==> if op.sub then op.closed && op.err.None? else |op.got| == |op.ids|
  }

  lemma CallerIsTruthful(s: State, e: Event, o: OpId)
    requires Enabled(s, e) && CallerEvent(e) && o in s.ops && LocalInv(s.ops[o]) && Truthful(s.ops[o])
    ensures o in Apply(s, e).ops && Truthful(Apply(s, e).ops[o])
  {
    if e.op != o {
    } else if e.Receive? || e.ReceiveClosed? || e.Complete? {
      WaitIsTruthful(s, e);
    } else {
      StillOnTheWay(s, e);
    }
  }

  lemma WaitIsTruthful(s: State, e: Event)
    requires Enabled(s, e) && (e.Receive? || e.ReceiveClosed? || e.Complete?) && LocalInv(s.ops[e.op])
    ensures e.op in Apply(s, e).ops && Truthful(Apply(s, e).ops[e.op])
  {
  }

  lemma StillOnTheWay(s: State, e: Event)
    requires Enabled(s, e) && (SendEvent(e) || e.SendDone? || e.TimeOut? || e.TimeOutClosing?)
    ensures e.op in Apply(s, e).ops && Apply(s, e).ops[e.op].pc != Returned(None)
  {
    if SendEvent(e) {
      StillSending(s, e);
    }
  }

  lemma StillSending(s: State, e: Event)
    requires Enabled(s, e) && SendEvent(e)
    ensures e.op in Apply(s, e).ops && Apply(s, e).ops[e.op].pc != Returned(None)
  {
    match e
    case GiveUp(_, _) =>
    case DialFails(_) =>
    case DialOk(_) =>
    case ReconnectRefused(_) =>
    case WriteStart(_, _) =>
    case WriteEnd(_) =>
  }

  lemma CancelIsTruthful(s: State, err: Error, inflight: Option<OpId>, o: OpId)
    requires Inv(s) && o in s.ops && Truthful(s.ops[o])
    ensures var t := CancelAll(s, err, inflight); o in t.ops && Truthful(t.ops[o])
  {
    if o in Victims(s.respWait, inflight) {
      var id :| id in s.respWait && s.respWait[id] == o;
      assert WaitInv(s, id);
    }
  }

  lemma DispatchIsTruthful(s: State, e: Event, o: OpId)
    requires Inv(s) && Enabled(s, e) && !CallerEvent(e) && o in s.ops && Truthful(s.ops[o])
    ensures o in Apply(s, e).ops && Truthful(Apply(s, e).ops[o])
  {
    match e
    case ReadErr(_) => CancelIsTruthful(s, ReadError, s.lastOp, o);
    case Close => CancelIsTruthful(s, ClientQuit, None, o);
    case Reconnect(p) => ReconnectIsTruthful(s, p, o);
    case Answer(_, msg) => assert msg.id in s.respWait ==> WaitInv(s, msg.id);
    case _ =>
  }

  lemma ReconnectIsTruthful(s: State, p: OpId, o: OpId)
    requires Inv(s) && Enabled(s, Reconnect(p)) && o in s.ops && Truthful(s.ops[o])
    ensures o in Apply(s, Reconnect(p)).ops && Truthful(Apply(s, Reconnect(p)).ops[o])
  {
    if s.reading {
      CancelIsTruthful(s, ClientReconnected, s.lastOp, o);
    }
  }

  lemma {:induction false} RunIsTruthful(s: State, es: seq<Event>, o: OpId)
    requires Inv(s) && Possible(s, es) && HonestRun(s, es)
    requires o in s.ops ==> Truthful(s.ops[o])
    requires o in Run(s, es).ops
    ensures Truthful(Run(s, es).ops[o])
    decreases |es|
  {
    if es != [] {
      StepKeepsInv(s, es[0]);
      if o in s.ops {
        if CallerEvent(es[0]) { assert LocalInv(s.ops[o]); CallerIsTruthful(s, es[0], o); } else { DispatchIsTruthful(s, es[0], o); }
      } else if o in Apply(s, es[0]).ops {
        NewOpStarts(s, es[0], o);
      }
      RunIsTruthful(Apply(s, es[0]), es[1..], o);
    }
  }

  /**
    A caller that got a nil error has read exactly one response to each of its ids; a subscriber that
    got one has been accepted by the server.
   */
  lemma NilMeansAnswered(es: seq<Event>, o: OpId)
    requires Possible(INIT, es) && HonestRun(INIT, es)
    requires o in Run(INIT, es).ops && Run(INIT, es).ops[o].pc == Returned(None)
    ensures var op := Run(INIT, es).ops[o];
            if op.sub then op.closed && op.err.None?
            else Distinct(IdsOf(op.got)) && |op.got| == |op.ids| && forall id :: id in op.ids <==> id in IdsOf(op.got)
  {
    RunKeepsInv(INIT, es);
    RunIsTruthful(INIT, es, o);
    var op := Run(INIT, es).ops[o];
    assert LocalInv(op);
    if !op.sub {
      SelectionSize(Answered(op), op.ids);
      assert op.got + op.buf == op.got;
      forall id | id in op.ids ensures id in IdsOf(op.got) {
        FullSelection(IdsOf(op.got), op.ids, id);
      }
    }
  }

  /** Nothing left to read and every answer had: wait's loop is over. */
  lemma AnsweredIsComplete(op: Op)
    requires LocalInv(op) && op.buf == [] && AllAnswered(op)
    ensures !op.sub && |op.got| == |op.ids|
  {
    assert op.got + op.buf == op.got;
    SelectionSize(op.ids, Answered(op));
    SelectionSize(Answered(op), op.ids);
  }

  /**
    After the exit, a waiting caller with nothing left to read can return, with its answers or with
    the reason why there are none, exactly if no read error overtook its write.
   */
  lemma WaiterReturns(es: seq<Event>, o: OpId)
    requires Possible(INIT, es) && HonestRun(INIT, es)
    requires Run(INIT, es).phase.Exited? && o in Run(INIT, es).ops
    requires Run(INIT, es).ops[o].pc.Waiting? && Run(INIT, es).ops[o].buf == []
    ensures var s := Run(INIT, es);
            Enabled(s, ReceiveClosed(o)) || Enabled(s, Complete(o)) <==> !OvertakenIn(INIT, es, o)
  {
    RunKeepsInv(INIT, es);
    NoWaiterLost(es, o);
    StrandedIffOvertaken(INIT, es, o);
    var s := Run(INIT, es);
    assert LocalInv(s.ops[o]);
    if o in s.stranded {
      HangingIsIncomplete(s, o);
    } else if !s.ops[o].closed {
      AnsweredIsComplete(s.ops[o]);
    }
  }

  // ---- what send leaves behind ----

  /** How many times o's request is written in a run. */
  function Writes(es: seq<Event>, o: OpId): nat {
    if es == [] then 0 else (if es[0].WriteStart? && es[0].op == o then 1 else 0) + Writes(es[1..], o)
  }

  /** How many writes an op may still see. */
  function WritesLeft(s: State, o: OpId): nat {
    if o !in s.ops then 2 else WritesAt(s.ops[o].pc)
  }

  function WritesAt(pc: Pc): nat {
    match pc
    case Start => 2
    case Locked(retry) => if retry then 1 else 2
    case Dialed(retry, _) => if retry then 1 else 2
    case Writing(retry, ok) => if retry || ok then 0 else 1
    case _ => 0
  }

  lemma OwnWrites(s: State, e: Event)
    requires Enabled(s, e) && SendEvent(e)
    ensures WritesAt(Apply(s, e).ops[e.op].pc) + (if e.WriteStart? then 1 else 0) <= WritesAt(s.ops[e.op].pc)
  {
    if e.WriteStart? || e.WriteEnd? {
      WriteCounts(s, e);
    }
  }

  lemma WriteCounts(s: State, e: Event)
    requires Enabled(s, e) && (e.WriteStart? || e.WriteEnd?)
    ensures WritesAt(Apply(s, e).ops[e.op].pc) + (if e.WriteStart? then 1 else 0) <= WritesAt(s.ops[e.op].pc)
  {
  }

  lemma WaitWrites(s: State, e: Event)
    requires Enabled(s, e) && WaitEvent(e)
    ensures e.op in Apply(s, e).ops && WritesAt(Apply(s, e).ops[e.op].pc) == 0
  {
  }

  lemma DispatchWrites(s: State, e: Event, o: OpId)
    requires Enabled(s, e) && !CallerEvent(e) && o in s.ops
    ensures o in Apply(s, e).ops && WritesAt(Apply(s, e).ops[o].pc) <= WritesAt(s.ops[o].pc)
  {
    match e
    case Call(_, _, _) =>
    case ReadFails(_) =>
    case ReqInit(_) =>
    case Reconnect(p) => ReconnectWrites(s, p, o);
    case ReqSentTaken =>
    case TimeOutTaken(_) =>
    case Answer(_, _) =>
    case ReadErr(_) =>
    case DrainErr(_) =>
    case Close =>
  }

  lemma ReconnectWrites(s: State, p: OpId, o: OpId)
    requires Enabled(s, Reconnect(p)) && o in s.ops
    ensures o in Apply(s, Reconnect(p)).ops && WritesAt(Apply(s, Reconnect(p)).ops[o].pc) == WritesAt(s.ops[o].pc)
  {
  }

  lemma WritesStep(s: State, e: Event, o: OpId)
    requires Enabled(s, e)
    ensures WritesLeft(Apply(s, e), o) + (if e.WriteStart? && e.op == o then 1 else 0) <= WritesLeft(s, o)
  {
    if CallerEvent(e) {
      if e.op != o {
      } else if SendEvent(e) {
        OwnWrites(s, e);
      } else {
        WaitWrites(s, e);
      }
    } else if o in s.ops {
      DispatchWrites(s, e, o);
    } else if o in Apply(s, e).ops {
      NewOpStarts(s, e, o);
    }
  }

  lemma {:induction false} WritesBound(s: State, es: seq<Event>, o: OpId)
    requires Possible(s, es)
    ensures WritesLeft(Run(s, es), o) + Writes(es, o) <= WritesLeft(s, o)
    decreases |es|
  {
    if es != [] {
      WritesStep(s, es[0], o);
      WritesBound(Apply(s, es[0]), es[1..], o);
    }
  }

  /** In any run whatsoever a request is written at most twice, and not again once a write succeeds. */
  lemma AtMostTwoWrites(es: seq<Event>, more: seq<Event>, o: OpId)
    requires Possible(INIT, es) && Possible(Run(INIT, es), more)
    ensures Writes(es, o) <= 2
    ensures var s := Run(INIT, es);
            o in s.ops && ((s.ops[o].pc.Writing? && s.ops[o].pc.ok) || s.ops[o].pc == Finishing(None)) ==> Writes(more, o) == 0
  {
    WritesBound(INIT, es, o);
    WritesBound(Run(INIT, es), more, o);
  }

  /** Once dispatch has taken the report of a failed send, nothing is registered for the op any more. */
  lemma FailedSendLeavesNothing(es: seq<Event>, o: OpId)
    requires Possible(INIT, es) && HonestRun(INIT, es) && o in Run(INIT, es).ops
    ensures var s := Run(INIT, es);
            s.ops[o].sent.Some? && s.ops[o].sent.value.Some? && s.lastOp != Some(o) ==> o !in s.respWait.Values
  {
    RunKeepsInv(INIT, es);
    var s := Run(INIT, es);
    if o in s.respWait.Values {
      var id :| id in s.respWait && s.respWait[id] == o;
      assert WaitInv(s, id) && LocalInv(s.ops[o]);
    }
  }
}
