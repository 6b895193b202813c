/**
  When a response can block dispatch or bring it down: exactly when a new connection registers an op
  again whose channel has been used already.  Nothing is assumed here but fresh request ids.
 */
module DispatchFaults {
  import opened Wrappers
  import opened Dispatch
  import opened DispatchInvariant
  import opened DispatchTheorems
  import opened DispatchLock

  predicate FreshRun(s: State, es: seq<Event>)
    requires Possible(s, es)
    decreases |es|
  {
    es == [] || ((es[0].Call? ==> FreshIds(s, es[0].ids)) && FreshRun(Apply(s, es[0]), es[1..]))
  }

  /** A new connection takes over, and the op in flight is registered on it. */
  predicate Installs(s: State, e: Event) {
    (e.Reconnect? && !s.reading) || (e.DrainErr? && s.phase.Draining?)
  }

  /** Holding a response, or closed by one. */
  predicate Used(op: Op) {
    op.buf != [] || op.closed
  }

  predicate Reopens(s: State, e: Event) {
    Installs(s, e) && s.lastOp.Some? && s.lastOp.value in s.ops && Used(s.ops[s.lastOp.value])
  }

  /** No used op is registered again. */
  predicate Clean(s: State, es: seq<Event>)
    requires Possible(s, es)
    decreases |es|
  {
    es == [] || (!Reopens(s, es[0]) && Clean(Apply(s, es[0]), es[1..]))
  }

  // ---- the results ----

  predicate AnswersOnly(es: seq<Event>) {
    forall i :: 0 <= i < |es| ==> es[i].Answer?
  }

  /** No sequence of responses makes dispatch panic or block. */
  ghost predicate Steadfast(s: State) {
    forall answers :: AnswersOnly(answers) && Possible(s, answers) ==> Run(s, answers).fault.NoFault?
  }

  /** After no step of the run can responses make dispatch panic or block. */
  ghost predicate AlwaysSteadfast(s: State, es: seq<Event>)
    requires Possible(s, es)
    decreases |es|
  {
    Steadfast(s) && (es != [] ==> AlwaysSteadfast(Apply(s, es[0]), es[1..]))
  }

  /**
    Whatever writes, dials and peers do, responses can never make dispatch panic or block in a run
    exactly if no new connection registers an op whose channel has been used already.
   */
  lemma CleanIffSteadfast(es: seq<Event>)
    requires Possible(INIT, es) && FreshRun(INIT, es)
    ensures Clean(INIT, es) <==> AlwaysSteadfast(INIT, es)
    ensures Clean(INIT, es) ==> Run(INIT, es).fault.NoFault?
  {
    CleanIffSteadfastFrom(INIT, es);
    if Clean(INIT, es) {
      RunKeepsSafe(INIT, es);
    }
  }

  /** The assumptions on the surroundings make a run clean. */
  lemma {:induction false} HonestIsClean(s: State, es: seq<Event>)
    requires Inv(s) && Possible(s, es) && HonestRun(s, es)
    ensures FreshRun(s, es) && Clean(s, es)
    decreases |es|
  {
    if es != [] {
      if Installs(s, es[0]) {
        InFlightIsUnused(s, es[0]);
      }
      StepKeepsInv(s, es[0]);
      HonestIsClean(Apply(s, es[0]), es[1..]);
    }
  }

  /** Dispatch, about to forward a response to id, would find o's channel full. */
  ghost predicate Blocked(s: State, o: OpId, id: Id) {
    && s.phase.Running? && Registered(s, id, o)
    && o in s.ops && !s.ops[o].sub && !s.ops[o].closed && |s.ops[o].buf| >= |s.ops[o].ids| > 0
  }

  /** What the rest of the client does while dispatch stands still. */
  predicate OthersOnly(es: seq<Event>) {
    forall i :: 0 <= i < |es| ==> CallerEvent(es[i]) || es[i].Call? || es[i].ReadFails?
  }

  /** The caller is in wait, or gets there without the help of dispatch. */
  predicate WillRead(s: State, o: OpId)
    requires o in s.ops
  {
    var pc := s.ops[o].pc;
    pc.Waiting? || pc == Finishing(None) || (pc.Writing? && pc.ok) || (pc.Locked? && s.writeConn.Some?)
  }

  /** These steps of the others make room in o's channel. */
  ghost predicate Frees(s: State, es: seq<Event>, o: OpId)
    requires o in s.ops
  {
    OthersOnly(es) && Possible(s, es) && o in Run(s, es).ops && |Run(s, es).ops[o].buf| < |s.ops[o].buf|
  }

  /**
    A blocked dispatch gets on again exactly if the caller is in wait, or on its way there without
    needing dispatch; otherwise it is blocked for good, whatever the other goroutines do.
   */
  lemma BlockedForGood(es: seq<Event>, o: OpId, id: Id)
    requires Possible(INIT, es) && Blocked(Run(INIT, es), o, id)
    ensures var s := Run(INIT, es);
            (exists more :: Frees(s, more, o)) <==> WillRead(s, o)
  {
    RunKeepsLock(INIT, es);
    var s := Run(INIT, es);
    if WillRead(s, o) {
      var more := ReaderFrees(s, o);
    } else {
      forall more ensures !Frees(s, more, o) {
        if OthersOnly(more) && Possible(s, more) {
          NobodyEverReads(s, more, o);
        }
      }
    }
  }

  /** The write fails, yet the peer answers the request. */
  function Failing(o: OpId, id: Id): seq<Event> {
    [WriteStart(o, false), Answer(0, Message(id, true)), WriteEnd(o)]
  }

  /** A new connection is dialled and takes over, with the op registered again. */
  function Redialling(o: OpId): seq<Event> {
    [DialOk(o), ReadFails(0)] + [Reconnect(o), DrainErr(0)]
  }

  /** Up to the retry's write, which is going to be reported failed as well. */
  function BlockingRun(o: OpId, id: Id): seq<Event> {
    Opening(o, id) + (Failing(o, id) + (Redialling(o) + [WriteStart(o, false)]))
  }

  /**
    Both writes are reported failed and both are answered: the second answer finds the channel full,
    and as the caller is going to return without reading, dispatch is blocked for good.
   */
  lemma FailedTwiceBlocksForGood(o: OpId, id: Id)
    ensures Possible(INIT, BlockingRun(o, id))
    ensures var s := Run(INIT, BlockingRun(o, id));
            var answer := Answer(1, Message(id, true));
            && Enabled(s, answer) && Apply(s, answer).fault.SendBlocks?
            && Blocked(s, o, id) && o in s.ops && forall more :: !Frees(s, more, o)
  {
    RetryingRun(o, id);
    BlockedForGood(BlockingRun(o, id), o, id);
  }

  // ---- what clean runs keep ----

  ghost predicate ChannelSafe(op: Op) {
    && Distinct(op.ids)
    && (op.sub ==> |op.ids| == 1 && op.buf == [])
    && Distinct(IdsOf(op.buf))
    && (forall id :: id in IdsOf(op.buf) ==> id in op.ids)
    && (op.pc.Start? ==> !Used(op))
  }

  /** Dispatch closes the op in flight only when it shuts down, or to settle a subscription. */
  ghost predicate FlightSafe(s: State, o: OpId)
    requires o in s.ops
  {
    s.lastOp == Some(o) ==>
      !s.ops[o].pc.Start? && ((s.phase.Running? || s.phase.Draining?) && s.ops[o].closed ==> s.ops[o].sub)
  }

  ghost predicate WaitSafe(s: State, id: Id) {
    id in s.respWait ==>
      var o := s.respWait[id];
      Owns(s, o, id) && !s.ops[o].closed && !s.ops[o].pc.Start? && id !in IdsOf(s.ops[o].buf)
  }

  ghost predicate Safe(s: State) {
    && LockInv(s)
    && s.fault.NoFault?
    && IdsDisjoint(s)
    && (forall o {:trigger ChannelSafe(s.ops[o])} | o in s.ops :: ChannelSafe(s.ops[o]))
    && (forall o {:trigger FlightSafe(s, o)} | o in s.ops :: FlightSafe(s, o))
    && (forall id {:trigger WaitSafe(s, id)} | id in s.respWait :: WaitSafe(s, id))
  }

  lemma ReceiveKeepsChannel(x: Op, y: Op)
    requires ChannelSafe(x) && SameChannel(x, y)
    ensures ChannelSafe(y)
    ensures forall id :: id in IdsOf(y.buf) ==> id in IdsOf(x.buf)
  {
    if y.buf != x.buf {
      assert IdsOf(y.buf) == IdsOf(x.buf)[1..];
    }
  }

  lemma CallerKeepsSafe(s: State, e: Event, t: State)
    requires Safe(s) && Enabled(s, e) && CallerEvent(e) && t == Apply(s, e)
    ensures Safe(t)
  {
    CallerKeepsLock(s, e, t);
    if SendEvent(e) { OwnOpSending(s, e); } else { OwnOpWaiting(s, e); }
    OneChannelKeepsSafe(s, t, e.op);
  }

  lemma OneChannelKeepsSafe(s: State, t: State, o: OpId)
    requires Safe(s) && LockInv(t) && t.ops.Keys == s.ops.Keys && o in s.ops && SameChannel(s.ops[o], t.ops[o])
    requires forall p | p in t.ops && p != o :: t.ops[p] == s.ops[p]
    requires t.respWait == s.respWait && t.phase == s.phase && t.lastOp == s.lastOp && t.fault == s.fault
    ensures Safe(t)
  {
    assert ChannelSafe(s.ops[o]);
    ReceiveKeepsChannel(s.ops[o], t.ops[o]);
    SameIds(s, t);
    forall p | p in t.ops ensures ChannelSafe(t.ops[p]) && FlightSafe(t, p) {
      assert ChannelSafe(s.ops[p]) && FlightSafe(s, p);
    }
    forall id | id in t.respWait ensures WaitSafe(t, id) {
      assert WaitSafe(s, id);
    }
  }

  lemma CallKeepsSafe(s: State, e: Event, t: State)
    requires Safe(s) && Enabled(s, e) && e.Call? && FreshIds(s, e.ids) && t == Apply(s, e)
    ensures Safe(t)
  {
    DispatchKeepsLock(s, e, t);
    assert t == s.(ops := s.ops[e.op := Op(e.ids, e.sub, Start, None, [], [], false, None)]);
    forall o, p, id | Owns(t, o, id) && Owns(t, p, id) ensures o == p {
      assert o != e.op ==> Owns(s, o, id);
      assert p != e.op ==> Owns(s, p, id);
    }
    forall p | p in t.ops ensures ChannelSafe(t.ops[p]) && FlightSafe(t, p) {
      assert p != e.op ==> ChannelSafe(s.ops[p]) && FlightSafe(s, p);
    }
    forall id | id in t.respWait ensures WaitSafe(t, id) {
      assert WaitSafe(s, id);
    }
  }

  /** Steps that leave channels alone and take entries out of respWait at most. */
  lemma FewerEntriesKeepSafe(s: State, t: State)
    requires Safe(s) && LockInv(t) && t.fault == s.fault
    requires t.ops.Keys == s.ops.Keys && forall p | p in s.ops :: SameButPc(s.ops[p], t.ops[p])
    requires forall id | id in t.respWait :: id in s.respWait && t.respWait[id] == s.respWait[id]
    requires (t.lastOp == s.lastOp || t.lastOp.None?) && (t.phase == s.phase || t.phase.Exited?)
    ensures Safe(t)
  {
    SameIds(s, t);
    forall p | p in t.ops ensures ChannelSafe(t.ops[p]) && FlightSafe(t, p) {
      assert ChannelSafe(s.ops[p]) && FlightSafe(s, p);
    }
    forall id | id in t.respWait ensures WaitSafe(t, id) {
      assert WaitSafe(s, id);
    }
  }

  lemma QuietKeepsSafe(s: State, e: Event, t: State)
    requires Safe(s) && Enabled(s, e) && t == Apply(s, e)
    requires e.ReadFails? || e.ReqSentTaken? || e.TimeOutTaken? || (e.DrainErr? && s.phase.ExitDraining?) || (e.Close? && !s.reading)
    ensures Safe(t)
  {
    DispatchKeepsLock(s, e, t);
    if e.ReqSentTaken? {
      RemoveIdsAt(s.respWait, s.ops[s.lastOp.value].ids);
    } else if e.TimeOutTaken? {
      RemoveIdsAt(s.respWait, s.ops[e.op].ids);
    }
    FewerEntriesKeepSafe(s, t);
  }

  lemma ReqInitKeepsSafe(s: State, e: Event, t: State)
    requires Safe(s) && Enabled(s, e) && e.ReqInit? && t == Apply(s, e)
    ensures Safe(t)
  {
    DispatchKeepsLock(s, e, t);
    AddIdsAt(s.respWait, s.ops[e.op].ids, e.op);
    SameIds(s, t);
    assert ChannelSafe(s.ops[e.op]);
    forall p | p in t.ops ensures ChannelSafe(t.ops[p]) && FlightSafe(t, p) {
      assert ChannelSafe(s.ops[p]) && FlightSafe(s, p);
    }
    forall id | id in t.respWait ensures WaitSafe(t, id) {
      assert id in s.respWait ==> WaitSafe(s, id);
    }
  }

  lemma AnswerKeepsSafe(s: State, e: Event, t: State)
    requires Safe(s) && Enabled(s, e) && e.Answer? && t == Apply(s, e)
    ensures Safe(t)
  {
    if e.msg.id in s.respWait {
      var o := s.respWait[e.msg.id];
      assert WaitSafe(s, e.msg.id) && ChannelSafe(s.ops[o]);
      DispatchKeepsLock(s, e, t);
      RoomForOne(IdsOf(s.ops[o].buf), s.ops[o].ids, e.msg.id);
      AnsweredOp(s, e.msg, t);
      AnsweredKeepsSafe(s, e.msg.id, t);
    }
  }

  /** A response settles a subscription or goes into a channel that has room for it. */
  lemma AnsweredOp(s: State, msg: Message, t: State)
    requires msg.id in s.respWait && s.respWait[msg.id] in s.ops && t == HandleResponse(s, msg)
    requires var op := s.ops[s.respWait[msg.id]]; !op.closed && (!op.sub ==> |op.buf| < |op.ids|)
    ensures var o := s.respWait[msg.id];
            && t == s.(ops := t.ops, respWait := s.respWait - {msg.id})
            && o in t.ops && t.ops == s.ops[o := t.ops[o]]
            && (if s.ops[o].sub then t.ops[o] == s.ops[o].(closed := true, err := t.ops[o].err)
                else t.ops[o] == s.ops[o].(buf := s.ops[o].buf + [msg]) && IdsOf(t.ops[o].buf) == IdsOf(s.ops[o].buf) + [msg.id])
  {
  }

  lemma AnsweredKeepsSafe(s: State, id: Id, t: State)
    requires Safe(s) && id in s.respWait && LockInv(t)
    requires var o := s.respWait[id];
             && t == s.(ops := t.ops, respWait := s.respWait - {id})
             && o in s.ops && o in t.ops && t.ops == s.ops[o := t.ops[o]]
             && (if s.ops[o].sub then t.ops[o] == s.ops[o].(closed := true, err := t.ops[o].err)
                 else t.ops[o] == s.ops[o].(buf := t.ops[o].buf) && IdsOf(t.ops[o].buf) == IdsOf(s.ops[o].buf) + [id])
    ensures Safe(t)
  {
    var o := s.respWait[id];
    assert WaitSafe(s, id) && ChannelSafe(s.ops[o]);
    SameIds(s, t);
    forall p | p in t.ops ensures ChannelSafe(t.ops[p]) && FlightSafe(t, p) {
      assert ChannelSafe(s.ops[p]) && FlightSafe(s, p);
    }
    forall k | k in t.respWait ensures WaitSafe(t, k) {
      assert WaitSafe(s, k);
    }
  }

  /** cancelAllRequests meets no closed channel. */
  lemma VictimsAreOpen(s: State, inflight: Option<OpId>)
    requires Safe(s)
    ensures forall o :: o in Victims(s.respWait, inflight) ==> o in s.ops && !s.ops[o].closed && !s.ops[o].pc.Start?
  {
    forall o | o in Victims(s.respWait, inflight) ensures o in s.ops && !s.ops[o].closed && !s.ops[o].pc.Start? {
      var id :| id in s.respWait && s.respWait[id] == o;
      assert WaitSafe(s, id);
    }
  }

  predicate SameButPc(x: Op, y: Op) {
    y == x.(pc := y.pc) && (y.pc.Start? ==> x.pc.Start?)
  }

  /** t is s after cancelAllRequests, and perhaps a change of phase or of op pcs that do not matter here. */
  lemma CancelKeepsSafe(s: State, err: Error, inflight: Option<OpId>, t: State)
    requires Safe(s) && LockInv(t) && (inflight == s.lastOp || t.phase.ExitDraining?)
    requires t.respWait == map[] && t.fault == CancelAll(s, err, inflight).fault && t.lastOp == s.lastOp
    requires t.ops.Keys == s.ops.Keys && s.phase.Running?
    requires forall p | p in s.ops :: SameButPc(CancelAll(s, err, inflight).ops[p], t.ops[p])
    ensures Safe(t)
  {
    VictimsAreOpen(s, inflight);
    forall p | p in s.ops ensures t.ops[p].ids == s.ops[p].ids && ChannelSafe(t.ops[p]) && FlightSafe(t, p) {
      assert SameButPc(CancelAll(s, err, inflight).ops[p], t.ops[p]);
      assert ChannelSafe(s.ops[p]) && FlightSafe(s, p);
    }
    SameIds(s, t);
  }

  lemma ReadErrKeepsSafe(s: State, c: ConnId, t: State)
    requires Safe(s) && Enabled(s, ReadErr(c)) && t == Apply(s, ReadErr(c)) && LockInv(t)
    ensures Safe(t)
  {
    CancelKeepsSafe(s, ReadError, s.lastOp, t);
  }

  lemma CloseKeepsSafe(s: State, t: State)
    requires Safe(s) && Enabled(s, Close) && s.reading && t == Apply(s, Close) && LockInv(t)
    ensures Safe(t)
  {
    CancelKeepsSafe(s, ClientQuit, None, t);
  }

  lemma ReconnectKeepsSafe(s: State, o: OpId, t: State)
    requires Safe(s) && Enabled(s, Reconnect(o)) && s.reading && t == Apply(s, Reconnect(o)) && LockInv(t)
    ensures Safe(t)
  {
    var c := CancelAll(s, ClientReconnected, s.lastOp);
    assert Holds(s.ops[o]) && c.ops[o] == s.ops[o];
    assert t.ops == c.ops[o := c.ops[o].(pc := Locked(s.ops[o].pc.retry))];
    CancelKeepsSafe(s, ClientReconnected, s.lastOp, t);
  }

  /** Dispatch's state after an install, but for who holds the lock. */
  lemma InstalledState(s: State, e: Event, t: State)
    requires LockInv(s) && Enabled(s, e) && Installs(s, e) && t == Apply(s, e)
    ensures s.lastOp.Some? && s.lastOp.value in s.ops
    ensures t.phase.Running? && t.lastOp == s.lastOp && t.fault == s.fault
    ensures t.respWait == AddIds(map[], s.ops[s.lastOp.value].ids, s.lastOp.value)
    ensures t.conn in t.readers && t.readers[t.conn].Reading?
    ensures t.ops.Keys == s.ops.Keys && forall p | p in s.ops :: SameButPc(s.ops[p], t.ops[p])
  {
    if e.Reconnect? {
      assert Holds(s.ops[e.op]);
      ReconnectInstalled(s, e.op);
    } else {
      assert t == Install(s.(readers := s.readers - {e.conn}), s.phase.next);
    }
  }

  lemma ReconnectInstalled(s: State, o: OpId)
    requires Enabled(s, Reconnect(o)) && !s.reading && s.lastOp == Some(o)
    ensures var c := s.ops[o].pc.codec;
            Apply(s, Reconnect(o)) ==
            s.(ops := s.ops[o := s.ops[o].(pc := Locked(s.ops[o].pc.retry))], writeConn := Some(c), readers := s.readers[c := Reading],
               reading := true, conn := c, respWait := AddIds(map[], s.ops[o].ids, o), phase := Running)
  {
  }

  lemma InstallKeepsSafe(s: State, e: Event, t: State)
    requires Safe(s) && Enabled(s, e) && Installs(s, e) && !Reopens(s, e) && t == Apply(s, e)
    ensures Safe(t)
  {
    DispatchKeepsLock(s, e, t);
    InstalledState(s, e, t);
    var last := s.lastOp.value;
    AddIdsAt(map[], s.ops[last].ids, last);
    assert FlightSafe(s, last);
    InstalledIsSafe(s, t, last);
  }

  lemma InstalledIsSafe(s: State, t: State, last: OpId)
    requires Safe(s) && LockInv(t) && s.lastOp == t.lastOp == Some(last) && last in s.ops && !Used(s.ops[last])
    requires t.phase.Running? && t.fault == s.fault && (s.phase.Running? || s.phase.Draining?)
    requires t.respWait.Keys == Elements(s.ops[last].ids) && forall id | id in t.respWait :: t.respWait[id] == last
    requires t.ops.Keys == s.ops.Keys && forall p | p in s.ops :: SameButPc(s.ops[p], t.ops[p])
    ensures Safe(t)
  {
    SameIds(s, t);
    forall p | p in t.ops ensures ChannelSafe(t.ops[p]) && FlightSafe(t, p) {
      assert ChannelSafe(s.ops[p]) && FlightSafe(s, p);
    }
    forall id | id in t.respWait ensures WaitSafe(t, id) {
    }
  }

  lemma StepKeepsSafe(s: State, e: Event, t: State)
    requires Safe(s) && Enabled(s, e) && t == Apply(s, e)
    requires e.Call? ==> FreshIds(s, e.ids)
    requires !Reopens(s, e)
    ensures Safe(t)
  {
    if CallerEvent(e) {
      CallerKeepsSafe(s, e, t);
    } else if Installs(s, e) {
      InstallKeepsSafe(s, e, t);
    } else {
      DispatchKeepsLock(s, e, t);
      match e
      case Call(_, _, _) => CallKeepsSafe(s, e, t);
      case ReqInit(_) => ReqInitKeepsSafe(s, e, t);
      case Answer(_, _) => AnswerKeepsSafe(s, e, t);
      case ReadErr(c) => ReadErrKeepsSafe(s, c, t);
      case Reconnect(o) => ReconnectKeepsSafe(s, o, t);
      case Close => if s.reading { CloseKeepsSafe(s, t); } else { QuietKeepsSafe(s, e, t); }
      case _ => QuietKeepsSafe(s, e, t);
    }
  }

  lemma {:induction false} RunKeepsSafe(s: State, es: seq<Event>)
    requires Safe(s) && Possible(s, es) && FreshRun(s, es) && Clean(s, es)
    ensures Safe(Run(s, es))
    decreases |es|
  {
    if es != [] {
      var t := Apply(s, es[0]);
      StepKeepsSafe(s, es[0], t);
      RunKeepsSafe(t, es[1..]);
    }
  }

  // ---- what goes wrong otherwise ----

  lemma {:induction false} AnswersAreClean(s: State, answers: seq<Event>)
    requires AnswersOnly(answers) && Possible(s, answers)
    ensures FreshRun(s, answers) && Clean(s, answers)
    decreases |answers|
  {
    if answers != [] {
      AnswersAreClean(Apply(s, answers[0]), answers[1..]);
    }
  }

  lemma SafeIsSteadfast(s: State)
    requires Safe(s)
    ensures Steadfast(s)
  {
    forall answers | AnswersOnly(answers) && Possible(s, answers) ensures Run(s, answers).fault.NoFault? {
      AnswersAreClean(s, answers);
      RunKeepsSafe(s, answers);
    }
  }

  /** Op o is registered for the ids in rest, and its channel cannot take that many responses. */
  ghost predicate Overfull(s: State, c: ConnId, o: OpId, rest: seq<Id>) {
    && s.phase.Running? && c in s.readers && s.readers[c].Reading?
    && o in s.ops && !s.ops[o].sub && !s.ops[o].closed && |s.ops[o].buf| <= |s.ops[o].ids| < |s.ops[o].buf| + |rest|
    && Distinct(rest) && forall id :: id in rest ==> Registered(s, id, o)
  }

  lemma OverfullStep(s: State, c: ConnId, o: OpId, rest: seq<Id>, t: State)
    requires Overfull(s, c, o, rest) && |s.ops[o].buf| < |s.ops[o].ids|
    requires t == Apply(s, Answer(c, Message(rest[0], true)))
    ensures Overfull(t, c, o, rest[1..])
  {
    assert Registered(s, rest[0], o);
    forall id | id in rest[1..] ensures Registered(t, id, o) {
      assert id in rest && id != rest[0] && Registered(s, id, o);
    }
  }

  /** Responses to those ids, one after another, until one finds the channel full. */
  lemma {:induction false} Overflow(s: State, c: ConnId, o: OpId, rest: seq<Id>) returns (answers: seq<Event>)
    requires Overfull(s, c, o, rest)
    ensures AnswersOnly(answers) && Possible(s, answers) && Run(s, answers).fault.SendBlocks?
    decreases |rest|
  {
    var e := Answer(c, Message(rest[0], true));
    assert Registered(s, rest[0], o);
    if |s.ops[o].buf| < |s.ops[o].ids| {
      OverfullStep(s, c, o, rest, Apply(s, e));
      var more := Overflow(Apply(s, e), c, o, rest[1..]);
      Prepend(s, e, more);
      answers := [e] + more;
    } else {
      Prepend(s, e, []);
      answers := [e];
    }
  }

  /** A used op, registered with all its ids while dispatch runs. */
  ghost predicate Reopened(t: State, o: OpId) {
    && t.phase.Running? && t.conn in t.readers && t.readers[t.conn].Reading?
    && o in t.ops && ChannelSafe(t.ops[o]) && Used(t.ops[o]) && (t.ops[o].closed ==> t.ops[o].sub)
    && forall id :: id in t.ops[o].ids ==> Registered(t, id, o)
  }

  lemma InstallReopens(s: State, e: Event, t: State)
    requires Safe(s) && Enabled(s, e) && Reopens(s, e) && t == Apply(s, e)
    ensures Reopened(t, s.lastOp.value)
  {
    InstalledState(s, e, t);
    UsedInFlight(s, s.lastOp.value);
    RegisteredIsReopened(s.ops[s.lastOp.value], t, s.lastOp.value);
  }

  lemma RegisteredIsReopened(was: Op, t: State, o: OpId)
    requires t.phase.Running? && t.conn in t.readers && t.readers[t.conn].Reading?
    requires o in t.ops && SameButPc(was, t.ops[o]) && t.respWait == AddIds(map[], was.ids, o)
    requires ChannelSafe(was) && !was.pc.Start? && Used(was) && (was.closed ==> was.sub)
    ensures Reopened(t, o)
  {
    AddIdsAt(map[], was.ids, o);
  }

  lemma UsedInFlight(s: State, o: OpId)
    requires Safe(s) && s.lastOp == Some(o) && (s.phase.Running? || s.phase.Draining?)
    ensures o in s.ops && ChannelSafe(s.ops[o]) && !s.ops[o].pc.Start? && (s.ops[o].closed ==> s.ops[o].sub)
  {
    assert FlightSafe(s, o);
  }

  /** Registering a used op again lets the peer block dispatch, or make it close a channel twice. */
  lemma ReopenedIsFatal(t: State, o: OpId)
    requires Reopened(t, o)
    ensures !Steadfast(t)
  {
    var ids := t.ops[o].ids;
    if t.ops[o].sub {
      assert ids[0] in ids;
      SettledAgain(t, t.conn, o, ids[0]);
    } else {
      SelectionSize(IdsOf(t.ops[o].buf), ids);
      OverfullIsFatal(t, t.conn, o, ids);
    }
  }

  lemma OverfullIsFatal(t: State, c: ConnId, o: OpId, ids: seq<Id>)
    requires Overfull(t, c, o, ids)
    ensures !Steadfast(t)
  {
    var answers := Overflow(t, c, o, ids);
  }

  /** The second response to a subscription closes its channel for the second time. */
  lemma SettledAgain(t: State, c: ConnId, o: OpId, id: Id)
    requires t.phase.Running? && c in t.readers && t.readers[c].Reading?
    requires o in t.ops && t.ops[o].sub && t.ops[o].closed && Registered(t, id, o)
    ensures !Steadfast(t)
  {
    var answer := Answer(c, Message(id, true));
    Prepend(t, answer, []);
    assert AnswersOnly([answer]) && Possible(t, [answer]) && Run(t, [answer]).fault.CloseOfClosed?;
  }

  lemma {:induction false} CleanIffSteadfastFrom(s: State, es: seq<Event>)
    requires Safe(s) && Possible(s, es) && FreshRun(s, es)
    ensures Clean(s, es) <==> AlwaysSteadfast(s, es)
    decreases |es|
  {
    SafeIsSteadfast(s);
    if es != [] {
      var t := Apply(s, es[0]);
      if Reopens(s, es[0]) {
        InstallReopens(s, es[0], t);
        ReopenedIsFatal(t, s.lastOp.value);
        assert !AlwaysSteadfast(t, es[1..]);
      } else {
        StepKeepsSafe(s, es[0], t);
        CleanIffSteadfastFrom(t, es[1..]);
      }
    }
  }

  lemma InFlightIsUnused(s: State, e: Event)
    requires Inv(s) && Enabled(s, e) && Installs(s, e)
    ensures !Reopens(s, e)
  {
    if e.Reconnect? {
      assert LocalInv(s.ops[e.op]) && OpInv(s, e.op);
    } else {
      assert OpInv(s, s.lastOp.value);
    }
  }

  // ---- how long a blocked dispatch stays blocked ----

  lemma NobodyReads(s: State, e: Event, o: OpId, t: State)
    requires o in s.ops && s.phase.Running? && !WillRead(s, o)
    requires OthersOnly([e]) && Enabled(s, e) && t == Apply(s, e)
    ensures o in t.ops && t.phase.Running? && !WillRead(t, o) && t.ops[o].buf == s.ops[o].buf
  {
    assert [e][0] == e;
    if CallerEvent(e) {
      WriteConnStays(s, e, t);
      if e.op == o {
        StillNotReading(s, e, t);
      }
    }
  }

  /** Only dispatch's taking it brings a new connection into use. */
  lemma WriteConnStays(s: State, e: Event, t: State)
    requires Enabled(s, e) && CallerEvent(e) && t == Apply(s, e)
    ensures t.writeConn == s.writeConn || t.writeConn.None?
  {
  }

  lemma StillNotReading(s: State, e: Event, t: State)
    requires Enabled(s, e) && CallerEvent(e) && s.phase.Running? && !WillRead(s, e.op) && t == Apply(s, e)
    ensures e.op in t.ops && !WillRead(t, e.op) && t.ops[e.op].buf == s.ops[e.op].buf
  {
  }

  lemma {:induction false} NobodyEverReads(s: State, es: seq<Event>, o: OpId)
    requires o in s.ops && s.phase.Running? && !WillRead(s, o)
    requires OthersOnly(es) && Possible(s, es)
    ensures o in Run(s, es).ops && Run(s, es).ops[o].buf == s.ops[o].buf
    decreases |es|
  {
    if es != [] {
      var t := Apply(s, es[0]);
      assert OthersOnly([es[0]]);
      NobodyReads(s, es[0], o, t);
      NobodyEverReads(t, es[1..], o);
    }
  }

  /** How many steps the caller is away from reading. */
  function Distance(pc: Pc): nat {
    if pc.Locked? then 3 else if pc.Writing? then 2 else if pc.Finishing? then 1 else 0
  }

  /** What the caller does next on a way that leads to wait. */
  lemma ReaderMoves(s: State, o: OpId) returns (e: Event, t: State)
    requires LockInv(s) && o in s.ops && WillRead(s, o) && !s.ops[o].pc.Waiting?
    ensures CallerEvent(e) && Enabled(s, e) && t == Apply(s, e) && LockInv(t)
    ensures o in t.ops && WillRead(t, o) && t.ops[o].buf == s.ops[o].buf && Distance(t.ops[o].pc) < Distance(s.ops[o].pc)
  {
    var pc := s.ops[o].pc;
    e := if pc.Locked? then WriteStart(o, true) else if pc.Writing? then WriteEnd(o) else SendDone(o);
    assert Holds(s.ops[o]);
    t := Apply(s, e);
    CallerKeepsLock(s, e, t);
  }

  lemma FreesLater(s: State, e: Event, t: State, more: seq<Event>, o: OpId)
    requires CallerEvent(e) && Enabled(s, e) && t == Apply(s, e)
    requires o in s.ops && o in t.ops && t.ops[o].buf == s.ops[o].buf && Frees(t, more, o)
    ensures Frees(s, [e] + more, o)
  {
    Prepend(s, e, more);
  }

  lemma {:induction false} ReaderFrees(s: State, o: OpId) returns (es: seq<Event>)
    requires LockInv(s) && o in s.ops && WillRead(s, o) && s.ops[o].buf != []
    ensures Frees(s, es, o)
    decreases Distance(s.ops[o].pc)
  {
    if s.ops[o].pc.Waiting? {
      Prepend(s, Receive(o), []);
      es := [Receive(o)];
    } else {
      var e, t := ReaderMoves(s, o);
      var more := ReaderFrees(t, o);
      FreesLater(s, e, t, more, o);
      es := [e] + more;
    }
  }

  // ---- the concrete run ----

  function FailedState(o: OpId, id: Id): State {
    OpenState(o, id).(ops := map[o := OpenOp(id).(pc := Locked(true), buf := [Message(id, true)])], respWait := map[], writeConn := None)
  }

  function DialledState(o: OpId, id: Id): State {
    FailedState(o, id).(ops := map[o := OpenOp(id).(pc := Dialed(true, 1), buf := [Message(id, true)])], dialed := 2, readers := map[0 := Failed])
  }

  function RetryState(o: OpId, id: Id): State {
    FailedState(o, id).(dialed := 2, writeConn := Some(1), closedConns := {0}, readers := map[1 := Reading], conn := 1, respWait := map[id := o])
  }

  lemma FailingRun(o: OpId, id: Id)
    ensures var s := OpenState(o, id); Possible(s, Failing(o, id)) && Run(s, Failing(o, id)) == FailedState(o, id)
  {
    var s := OpenState(o, id);
    var s1 := Apply(s, WriteStart(o, false));
    var s2 := Apply(s1, Answer(0, Message(id, true)));
    assert s2.ops[o].buf == [Message(id, true)];
    assert Apply(s2, WriteEnd(o)) == FailedState(o, id);
    Prepend(s2, WriteEnd(o), []);
    Prepend(s1, Answer(0, Message(id, true)), [WriteEnd(o)]);
    Prepend(s, WriteStart(o, false), [Answer(0, Message(id, true)), WriteEnd(o)]);
  }

  lemma DiallingRun(o: OpId, id: Id)
    ensures var s := FailedState(o, id); var es := [DialOk(o), ReadFails(0)];
            Possible(s, es) && Run(s, es) == DialledState(o, id)
  {
    var s := FailedState(o, id);
    var s1 := Apply(s, DialOk(o));
    assert Apply(s1, ReadFails(0)) == DialledState(o, id);
    Prepend(s1, ReadFails(0), []);
    Prepend(s, DialOk(o), [ReadFails(0)]);
  }

  lemma TakeoverRun(o: OpId, id: Id)
    ensures var s := DialledState(o, id); var es := [Reconnect(o), DrainErr(0)];
            Possible(s, es) && Run(s, es) == RetryState(o, id)
  {
    var s := DialledState(o, id);
    var s1 := Apply(s, Reconnect(o));
    AddIdsAt(map[], [id], o);
    assert AddIds(map[], [id], o) == map[id := o];
    assert Apply(s1, DrainErr(0)) == RetryState(o, id);
    Prepend(s1, DrainErr(0), []);
    Prepend(s, Reconnect(o), [DrainErr(0)]);
  }

  lemma RetryingRun(o: OpId, id: Id)
    ensures var es := BlockingRun(o, id);
            Possible(INIT, es) && Run(INIT, es) == SetPc(RetryState(o, id), o, Writing(true, false))
  {
    OpeningRun(o, id);
    FailingRun(o, id);
    DiallingRun(o, id);
    TakeoverRun(o, id);
    Join(FailedState(o, id), [DialOk(o), ReadFails(0)], [Reconnect(o), DrainErr(0)]);
    Prepend(RetryState(o, id), WriteStart(o, false), []);
    JoinThree(OpenState(o, id), Failing(o, id), Redialling(o), [WriteStart(o, false)]);
    Join(INIT, Opening(o, id), Failing(o, id) + (Redialling(o) + [WriteStart(o, false)]));
  }

}
