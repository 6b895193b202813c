/** The write lock, in every run whatsoever: nothing is assumed of peers, connections or request ids. */
module DispatchLock {
  import opened Wrappers
  import opened Dispatch
  import opened DispatchInvariant

  /** One op at most holds the lock, or has its report in reqSent; lastOp is that op. */
  ghost predicate LockInv(s: State) {
    && (s.lastOp.Some? ==> s.lastOp.value in s.ops && (Holds(s.ops[s.lastOp.value]) || s.reqSent != []))
    && (s.locked <==> s.lastOp.Some?)
    && |s.reqSent| <= 1
    && (s.lastOp.None? ==> s.reqSent == [])
    && (s.phase.Draining? ==> s.lastOp.Some? && s.respWait == map[])
    && (forall o | o in s.ops && Holds(s.ops[o]) :: s.lastOp == Some(o) && s.reqSent == [])
  }

  /** Who holds the lock is dispatch's business only when it lets an op in. */
  lemma DispatchLeavesHolders(s: State, e: Event, o: OpId)
    requires Enabled(s, e) && !CallerEvent(e) && o in s.ops
    ensures o in Apply(s, e).ops
    ensures Holds(Apply(s, e).ops[o]) <==> Holds(s.ops[o]) || e == ReqInit(o)
  {
    match e
    case Call(_, _, _) =>
    case ReadFails(_) =>
    case ReqInit(_) =>
    case Reconnect(p) => ReconnectLeavesHolders(s, p, o);
    case ReqSentTaken =>
    case TimeOutTaken(_) =>
    case Answer(_, _) =>
    case ReadErr(_) =>
    case DrainErr(_) =>
    case Close =>
  }

  lemma ReconnectLeavesHolders(s: State, p: OpId, o: OpId)
    requires Enabled(s, Reconnect(p)) && o in s.ops
    ensures o in Apply(s, Reconnect(p)).ops
    ensures Holds(Apply(s, Reconnect(p)).ops[o]) <==> Holds(s.ops[o])
  {
  }

  /** Dispatch's variables after a step of its own. */
  lemma DispatchMovesLock(s: State, e: Event)
    requires LockInv(s) && Enabled(s, e) && !CallerEvent(e)
    ensures var t := Apply(s, e);
            && (t.locked <==> t.lastOp.Some?)
            && (t.phase.Draining? ==> t.lastOp.Some? && t.respWait == map[])
            && (if e.ReqInit? then t.lastOp == Some(e.op) && t.reqSent == s.reqSent == []
                else if e.ReqSentTaken? then t.lastOp.None? && t.reqSent == []
                else t.lastOp == s.lastOp && t.reqSent == s.reqSent)
  {
    match e
    case Call(_, _, _) =>
    case ReadFails(_) =>
    case ReqInit(_) =>
    case Reconnect(o) => assert Holds(s.ops[o]);
    case ReqSentTaken =>
    case TimeOutTaken(_) =>
    case Answer(_, _) =>
    case ReadErr(_) =>
    case DrainErr(_) =>
    case Close =>
  }

  lemma NewOpStarts(s: State, e: Event, o: OpId)
    requires Enabled(s, e) && !CallerEvent(e) && o !in s.ops && o in Apply(s, e).ops
    ensures e.Call? && e.op == o && Apply(s, e).ops[o].pc.Start?
  {
  }

  lemma DispatchKeepsLock(s: State, e: Event, t: State)
    requires LockInv(s) && Enabled(s, e) && !CallerEvent(e) && t == Apply(s, e)
    ensures LockInv(t)
  {
    DispatchMovesLock(s, e);
    forall o | o in t.ops && Holds(t.ops[o]) ensures t.lastOp == Some(o) && t.reqSent == [] {
      if o in s.ops {
        DispatchLeavesHolders(s, e, o);
      } else {
        NewOpStarts(s, e, o);
      }
    }
    if t.lastOp.Some? {
      DispatchLeavesHolders(s, e, t.lastOp.value);
    }
  }

  /** The channel is as before, or a message has been received from it. */
  ghost predicate SameChannel(x: Op, y: Op) {
    && y.ids == x.ids && y.sub == x.sub && y.closed == x.closed && !y.pc.Start?
    && (y.buf == x.buf || (x.buf != [] && y.buf == x.buf[1..]))
  }

  lemma OwnOpSending(s: State, e: Event)
    requires Enabled(s, e) && SendEvent(e)
    ensures var t := Apply(s, e);
            && SameChannel(s.ops[e.op], t.ops[e.op])
            && (Holds(t.ops[e.op]) <==> Holds(s.ops[e.op]))
            && t.reqSent == s.reqSent
  {
    assert Apply(s, e) == ApplySend(s, e);
  }

  lemma OwnOpWaiting(s: State, e: Event)
    requires Enabled(s, e) && WaitEvent(e)
    ensures var t := Apply(s, e);
            && SameChannel(s.ops[e.op], t.ops[e.op])
            && !Holds(t.ops[e.op]) && (Holds(s.ops[e.op]) <==> e.SendDone?)
            && (if e.SendDone? then |t.reqSent| == 1 else t.reqSent == s.reqSent)
  {
    match e
    case SendDone(_) =>
    case Receive(_) =>
    case ReceiveClosed(_) =>
    case Complete(_) =>
    case TimeOut(_) =>
    case TimeOutClosing(_) =>
  }

  lemma CallerKeepsLock(s: State, e: Event, t: State)
    requires LockInv(s) && Enabled(s, e) && CallerEvent(e) && t == Apply(s, e)
    ensures LockInv(t)
  {
    if SendEvent(e) { OwnOpSending(s, e); } else { OwnOpWaiting(s, e); }
  }

  lemma {:induction false} RunKeepsLock(s: State, es: seq<Event>)
    requires LockInv(s) && Possible(s, es)
    ensures LockInv(Run(s, es))
    decreases |es|
  {
    if es != [] {
      var t := Apply(s, es[0]);
      if CallerEvent(es[0]) { CallerKeepsLock(s, es[0], t); } else { DispatchKeepsLock(s, es[0], t); }
      RunKeepsLock(t, es[1..]);
    }
  }

  /** The goroutines between `reqInit <- op` and `reqSent <- err`. */
  function Holders(s: State): set<OpId> {
    set o | o in s.ops && Holds(s.ops[o])
  }

  lemma OneHolder(s: State)
    requires LockInv(s)
    ensures |Holders(s)| + |s.reqSent| == (if s.lastOp.Some? then 1 else 0)
  {
    if s.lastOp.Some? && s.reqSent == [] {
      assert Holders(s) == {s.lastOp.value};
    } else {
      assert Holders(s) == {};
    }
  }

  /**
    The write lock: holders plus the item in reqSent's buffer make one exactly while an op is in
    flight, so a holder about to send on reqSent always finds the buffer empty, after the dispatch
    loop has gone as well, and a re-registration never meets a nil lastOp.
   */
  lemma WriteLock(es: seq<Event>)
    requires Possible(INIT, es)
    ensures var s := Run(INIT, es);
            && |Holders(s)| + |s.reqSent| == (if s.lastOp.Some? then 1 else 0)
            && (s.locked <==> s.lastOp.Some?)
            && (forall o | o in s.ops && s.ops[o].pc.Finishing? :: Enabled(s, SendDone(o)))
            && (s.phase.Draining? || (exists o | o in s.ops :: s.ops[o].pc.Dialed?) ==> s.lastOp.Some?)
  {
    RunKeepsLock(INIT, es);
    OneHolder(Run(INIT, es));
  }
}
