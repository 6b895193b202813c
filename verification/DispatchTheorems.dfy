/** What the invariant means for callers of the client. */
module DispatchTheorems {
  import opened Wrappers
  import opened Dispatch
  import opened DispatchInvariant

  /** While dispatch is alive exactly the connection in use has a live reader, or none after a read error; at exit none is left. */
  lemma SingleReader(es: seq<Event>)
    requires Possible(INIT, es) && HonestRun(INIT, es)
    ensures var s := Run(INIT, es);
            && |s.readers| == (if s.reading && !s.phase.Exited? then 1 else 0)
            && s.readers.Keys <= {s.conn}
  {
    RunKeepsInv(INIT, es);
    var s := Run(INIT, es);
    assert |s.readers| == |s.readers.Keys|;
  }

  /**
    The response channel of every op: nothing is ever closed twice, sent on after close, sent
    without room or registered through a nil pointer; what was sent are answers to the op's own
    ids, each at most once, never more than the capacity.
   */
  lemma ChannelDiscipline(es: seq<Event>, o: OpId)
    requires Possible(INIT, es) && HonestRun(INIT, es)
    requires o in Run(INIT, es).ops
    ensures var s := Run(INIT, es);
            var op := s.ops[o];
            && s.fault.NoFault?
            && Distinct(Answered(op))
            && (forall id :: id in Answered(op) ==> id in op.ids)
            && |op.got| + |op.buf| <= |op.ids|
            && (op.sub ==> op.got == [] && op.buf == [])
            && (op.closed && !op.sub ==> op.err.Some?)
            && (forall id :: Registered(s, id, o) ==> !op.closed && id in op.ids && id !in Answered(op))
  {
    RunKeepsInv(INIT, es);
    var s := Run(INIT, es);
    assert LocalInv(s.ops[o]);
    SelectionSize(Answered(s.ops[o]), s.ops[o].ids);
    forall id | Registered(s, id, o) ensures !s.ops[o].closed && id in s.ops[o].ids && id !in Answered(s.ops[o]) {
      assert WaitInv(s, id);
    }
  }

  /** `op.resp <- msg` never blocks dispatch: whatever arrives next, no fault and no full channel. */
  lemma NextAnswerNeverBlocks(es: seq<Event>, conn: ConnId, msg: Message)
    requires Possible(INIT, es) && HonestRun(INIT, es)
    requires var s := Run(INIT, es); Enabled(s, Answer(conn, msg)) && Honest(s, Answer(conn, msg))
    ensures var s := Run(INIT, es);
            var t := Apply(s, Answer(conn, msg));
            && t.fault.NoFault?
            && (msg.id in s.respWait ==>
                  var o := s.respWait[msg.id];
                  && o in s.ops && msg.id in s.ops[o].ids
                  && msg.id !in t.respWait
                  && if s.ops[o].sub then t.ops[o].closed
                     else t.ops[o].buf == s.ops[o].buf + [msg] && |t.ops[o].buf| <= |s.ops[o].ids|)
            && (msg.id !in s.respWait ==> t == s)
  {
    RunKeepsInv(INIT, es);
    var s := Run(INIT, es);
    if msg.id in s.respWait {
      AnswerHasRoom(s, msg);
      assert WaitInv(s, msg.id);
    }
  }

  // ---- no waiter is lost, except ... ----

  /** Every id of op has been answered. */
  ghost predicate AllAnswered(op: Op) {
    forall id :: id in op.ids ==> id in Answered(op)
  }

  /** Blocked in wait with nothing to read, nothing to come and nobody to close the channel. */
  ghost predicate Hangs(s: State, o: OpId)
    requires o in s.ops
  {
    var op := s.ops[o];
    && op.pc.Waiting? && op.buf == [] && !op.closed
    && (exists id :: id in op.ids && id !in Answered(op))
    && (forall id :: id in op.ids ==> !Registered(s, id, o))
    && !(s.phase.Draining? && s.lastOp == Some(o))
  }

  /**
    Once dispatch has exited, a caller whose send returned nil and that still waits has its answers,
    or a closed channel with an error, unless a read error was consumed between its successful write
    and the release of the write lock; in that case, and only then, it hangs.
   */
  lemma NoWaiterLost(es: seq<Event>, o: OpId)
    requires Possible(INIT, es) && HonestRun(INIT, es)
    requires Run(INIT, es).phase.Exited? && o in Run(INIT, es).ops
    requires Run(INIT, es).ops[o].pc.Waiting?
    ensures var s := Run(INIT, es);
            var op := s.ops[o];
            && (o !in s.stranded ==> AllAnswered(op) || (op.closed && (op.err.Some? || op.sub)))
            && (op.buf == [] ==> (Hangs(s, o) <==> o in s.stranded))
  {
    RunKeepsInv(INIT, es);
    var s := Run(INIT, es);
    assert LocalInv(s.ops[o]) && OpInv(s, o);
    forall id | id in s.ops[o].ids ensures !Registered(s, id, o) {
      assert id in s.respWait ==> WaitInv(s, id);
    }
  }

  /** Which ops a run strands is decided at its read errors. */
  ghost predicate OvertakenIn(s: State, es: seq<Event>, o: OpId)
    requires Possible(s, es)
    decreases |es|
  {
    es != [] &&
    ((es[0].ReadErr? && s.lastOp == Some(o) && o in s.ops && Committed(s.ops[o]) && o in s.respWait.Values) ||
     OvertakenIn(Apply(s, es[0]), es[1..], o))
  }

  lemma {:induction false} StrandedIffOvertaken(s: State, es: seq<Event>, o: OpId)
    requires Possible(s, es)
    ensures o in Run(s, es).stranded <==> o in s.stranded || OvertakenIn(s, es, o)
    decreases |es|
  {
    if es != [] {
      StrandedIffOvertaken(Apply(s, es[0]), es[1..], o);
      StrandedStep(s, es[0]);
    }
  }

  lemma StrandedStep(s: State, e: Event)
    requires Enabled(s, e)
    ensures Apply(s, e).stranded == if e.ReadErr? then s.stranded + Overtaken(s) else s.stranded
  {
    if !CallerEvent(e) && !e.ReadErr? {
      DispatchStrandsNobody(s, e);
    }
  }

  lemma DispatchStrandsNobody(s: State, e: Event)
    requires Enabled(s, e) && !CallerEvent(e) && !e.ReadErr?
    ensures Apply(s, e).stranded == s.stranded
  {
    if e.Answer? {
      assert HandleResponse(s, e.msg).stranded == s.stranded;
    }
  }

  /** A run that never consumes a read error over a successful write in flight loses nobody. */
  lemma {:induction false} QuietRunLosesNobody(es: seq<Event>, o: OpId)
    requires Possible(INIT, es) && HonestRun(INIT, es)
    requires Run(INIT, es).phase.Exited? && o in Run(INIT, es).ops && Run(INIT, es).ops[o].pc.Waiting?
    requires !OvertakenIn(INIT, es, o)
    ensures var op := Run(INIT, es).ops[o];
            AllAnswered(op) || (op.closed && (op.err.Some? || op.sub))
  {
    StrandedIffOvertaken(INIT, es, o);
    NoWaiterLost(es, o);
  }

  /** Nothing but its own timeout ever wakes a caller that hangs. */
  lemma {:induction false} HangsForever(s: State, es: seq<Event>, o: OpId)
    requires Inv(s) && o in s.ops && Hangs(s, o)
    requires Possible(s, es) && HonestRun(s, es)
    requires TimeOut(o) !in es
    ensures o in Run(s, es).ops && Hangs(Run(s, es), o)
    decreases |es|
  {
    if es != [] {
      HangsStep(s, es[0], o);
      StepKeepsInv(s, es[0]);
      HangsForever(Apply(s, es[0]), es[1..], o);
    }
  }

  lemma HangsStep(s: State, e: Event, o: OpId)
    requires Inv(s) && o in s.ops && Hangs(s, o)
    requires Enabled(s, e) && Honest(s, e) && e != TimeOut(o)
    ensures o in Apply(s, e).ops && Hangs(Apply(s, e), o)
  {
    assert LocalInv(s.ops[o]) && OpInv(s, o);
    if CallerEvent(e) {
      HangsCaller(s, e, o);
    } else if e.ReadErr? || e.Close? || e.Reconnect? || e.DrainErr? {
      HangsCancel(s, e, o);
    } else {
      HangsDispatch(s, e, o);
    }
    var id :| id in s.ops[o].ids && id !in Answered(s.ops[o]);
    assert id in Apply(s, e).ops[o].ids && id !in Answered(Apply(s, e).ops[o]);
  }

  lemma HangsCaller(s: State, e: Event, o: OpId)
    requires Inv(s) && o in s.ops && Hangs(s, o)
    requires Enabled(s, e) && CallerEvent(e) && e != TimeOut(o)
    ensures var t := Apply(s, e);
            o in t.ops && t.ops[o] == s.ops[o] && t.respWait == s.respWait && t.phase == s.phase && t.lastOp == s.lastOp
  {
    HangingIsIncomplete(s, o);
    assert e.op != o;
  }

  lemma HangingIsIncomplete(s: State, o: OpId)
    requires Inv(s) && o in s.ops && Hangs(s, o)
    ensures |s.ops[o].got| < |s.ops[o].ids|
  {
    assert LocalInv(s.ops[o]);
    var id :| id in s.ops[o].ids && id !in Answered(s.ops[o]);
    RoomForOne(Answered(s.ops[o]), s.ops[o].ids, id);
  }

  lemma HangsDispatch(s: State, e: Event, o: OpId)
    requires Inv(s) && o in s.ops && Hangs(s, o)
    requires Enabled(s, e) && Honest(s, e)
    requires e.Call? || e.ReadFails? || e.ReqInit? || e.ReqSentTaken? || e.TimeOutTaken? || e.Answer?
    ensures var t := Apply(s, e);
            && o in t.ops && t.ops[o] == s.ops[o] && !(t.phase.Draining? && t.lastOp == Some(o))
            && (forall id :: id in s.ops[o].ids ==> !Registered(t, id, o))
  {
    match e
    case ReqInit(p) => HangsReqInit(s, p, o);
    case ReqSentTaken => RemoveIdsAt(s.respWait, s.ops[s.lastOp.value].ids);
    case TimeOutTaken(p) => RemoveIdsAt(s.respWait, s.ops[p].ids);
    case Answer(_, msg) => assert msg.id in s.respWait ==> WaitInv(s, msg.id);
    case _ =>
  }

  lemma HangsReqInit(s: State, p: OpId, o: OpId)
    requires Inv(s) && o in s.ops && Hangs(s, o) && Enabled(s, ReqInit(p))
    ensures var t := Apply(s, ReqInit(p));
            && o in t.ops && t.ops[o] == s.ops[o] && !t.phase.Draining?
            && (forall id :: id in s.ops[o].ids ==> !Registered(t, id, o))
  {
    AddIdsAt(s.respWait, s.ops[p].ids, p);
    forall id | id in s.ops[o].ids ensures id !in s.ops[p].ids {
      assert Owns(s, o, id) && (id in s.ops[p].ids ==> Owns(s, p, id));
    }
  }

  lemma HangsCancel(s: State, e: Event, o: OpId)
    requires Inv(s) && o in s.ops && Hangs(s, o)
    requires Enabled(s, e) && (e.ReadErr? || e.Close? || e.Reconnect? || e.DrainErr?)
    ensures var t := Apply(s, e);
            && o in t.ops && t.ops[o] == s.ops[o] && !(t.phase.Draining? && t.lastOp == Some(o))
            && (forall id :: id in s.ops[o].ids ==> !Registered(t, id, o))
  {
    NotRegistered(s, o);
    if e.Reconnect? {
      HangsReconnect(s, e.op, o);
    } else if e.DrainErr? && s.lastOp.Some? {
      AddIdsAt(map[], s.ops[s.lastOp.value].ids, s.lastOp.value);
    }
  }

  lemma NotRegistered(s: State, o: OpId)
    requires Inv(s) && o in s.ops && Hangs(s, o)
    ensures o !in s.respWait.Values
  {
    forall id | id in s.respWait ensures s.respWait[id] != o {
      assert WaitInv(s, id);
      assert id in s.ops[o].ids ==> !Registered(s, id, o);
    }
  }

  lemma HangsReconnect(s: State, p: OpId, o: OpId)
    requires Inv(s) && o in s.ops && Hangs(s, o) && Enabled(s, Reconnect(p))
    ensures var t := Apply(s, Reconnect(p));
            && o in t.ops && t.ops[o] == s.ops[o] && !(t.phase.Draining? && t.lastOp == Some(o))
            && (forall id :: id in s.ops[o].ids ==> !Registered(t, id, o))
  {
    NotRegistered(s, o);
    assert OpInv(s, p) && OpInv(s, o);
    AddIdsAt(map[], s.ops[p].ids, p);
  }

  // ---- a concrete run ----

  /** Putting an event in front of a run. */
  lemma Prepend(s: State, e: Event, es: seq<Event>)
    requires Enabled(s, e) && Possible(Apply(s, e), es)
    ensures Possible(s, [e] + es) && Run(s, [e] + es) == Run(Apply(s, e), es)
    ensures HonestRun(s, [e] + es) <==> Honest(s, e) && HonestRun(Apply(s, e), es)
  {
    assert ([e] + es)[1..] == es;
  }

  lemma {:induction false} Join(s: State, es: seq<Event>, fs: seq<Event>)
    requires Possible(s, es) && Possible(Run(s, es), fs)
    ensures Possible(s, es + fs) && Run(s, es + fs) == Run(Run(s, es), fs)
    ensures HonestRun(s, es + fs) <==> HonestRun(s, es) && HonestRun(Run(s, es), fs)
    decreases |es|
  {
    if es == [] {
      assert es + fs == fs;
    } else {
      assert (es + fs)[0] == es[0] && (es + fs)[1..] == es[1..] + fs;
      Join(Apply(s, es[0]), es[1..], fs);
    }
  }

  lemma JoinThree(s: State, es: seq<Event>, fs: seq<Event>, gs: seq<Event>)
    requires Possible(s, es) && Possible(Run(s, es), fs) && Possible(Run(Run(s, es), fs), gs)
    ensures Possible(s, es + (fs + gs)) && Run(s, es + (fs + gs)) == Run(Run(Run(s, es), fs), gs)
    ensures HonestRun(s, es + (fs + gs)) <==>
            HonestRun(s, es) && HonestRun(Run(s, es), fs) && HonestRun(Run(Run(s, es), fs), gs)
  {
    Join(Run(s, es), fs, gs);
    Join(s, es, fs + gs);
  }

  /** A call takes the write lock and is registered. */
  function Opening(o: OpId, id: Id): seq<Event> {
    [Call(o, [id], false), ReqInit(o)]
  }

  /** Its write succeeds. */
  function Sending(o: OpId): seq<Event> {
    [WriteStart(o, true), WriteEnd(o), SendDone(o)]
  }

  /** The connection breaks: dispatch sees the read error first, then the report of the write, then Close. */
  function Breaking(): seq<Event> {
    [ReadFails(0), ReadErr(0)] + [ReqSentTaken, Close]
  }

  function OpenOp(id: Id): Op {
    Op([id], false, Locked(false), None, [], [], false, None)
  }

  function SentOp(id: Id): Op {
    OpenOp(id).(pc := Waiting, sent := Some(None))
  }

  function OpenState(o: OpId, id: Id): State {
    INIT.(ops := map[o := OpenOp(id)], respWait := map[id := o], lastOp := Some(o), locked := true)
  }

  function SentState(o: OpId, id: Id): State {
    OpenState(o, id).(ops := map[o := SentOp(id)], reqSent := [None])
  }

  function BrokenState(o: OpId, id: Id): State {
    SentState(o, id).(respWait := map[], reading := false, readers := map[], closedConns := {0}, stranded := {o})
  }

  lemma OpeningRun(o: OpId, id: Id)
    ensures Possible(INIT, Opening(o, id)) && HonestRun(INIT, Opening(o, id)) && Run(INIT, Opening(o, id)) == OpenState(o, id)
  {
    var s1 := Apply(INIT, Call(o, [id], false));
    AddIdsAt(map[], [id], o);
    assert Apply(s1, ReqInit(o)) == OpenState(o, id);
    Prepend(s1, ReqInit(o), []);
    Prepend(INIT, Call(o, [id], false), [ReqInit(o)]);
  }

  lemma SendingRun(o: OpId, id: Id)
    ensures var s := OpenState(o, id);
            Possible(s, Sending(o)) && HonestRun(s, Sending(o)) && Run(s, Sending(o)) == SentState(o, id)
  {
    var s := OpenState(o, id);
    var s1 := Apply(s, WriteStart(o, true));
    var s2 := Apply(s1, WriteEnd(o));
    assert Apply(s2, SendDone(o)) == SentState(o, id);
    Prepend(s2, SendDone(o), []);
    Prepend(s1, WriteEnd(o), [SendDone(o)]);
    Prepend(s, WriteStart(o, true), [WriteEnd(o), SendDone(o)]);
  }

  lemma ReadErrorRun(o: OpId, id: Id)
    ensures var s := SentState(o, id); var es := [ReadFails(0), ReadErr(0)];
            Possible(s, es) && HonestRun(s, es) && Run(s, es) == BrokenState(o, id)
  {
    var s := SentState(o, id);
    var s1 := Apply(s, ReadFails(0));
    assert o in s1.respWait.Values by { assert s1.respWait[id] == o; }
    assert Apply(s1, ReadErr(0)) == BrokenState(o, id);
    Prepend(s1, ReadErr(0), []);
    Prepend(s, ReadFails(0), [ReadErr(0)]);
  }

  lemma ExitRun(o: OpId, id: Id)
    ensures var s := BrokenState(o, id); var es := [ReqSentTaken, Close];
            && Possible(s, es) && HonestRun(s, es)
            && Run(s, es) == s.(phase := Exited, locked := false, lastOp := None, reqSent := [])
  {
    var s := BrokenState(o, id);
    var s1 := Apply(s, ReqSentTaken);
    Prepend(s1, Close, []);
    Prepend(s, ReqSentTaken, [Close]);
  }

  lemma OvertakenRun(o: OpId, id: Id)
    ensures var es := Opening(o, id) + (Sending(o) + Breaking());
            && Possible(INIT, es) && HonestRun(INIT, es)
            && Run(INIT, es) == BrokenState(o, id).(phase := Exited, locked := false, lastOp := None, reqSent := [])
  {
    OpeningRun(o, id);
    SendingRun(o, id);
    ReadErrorRun(o, id);
    ExitRun(o, id);
    Join(SentState(o, id), [ReadFails(0), ReadErr(0)], [ReqSentTaken, Close]);
    JoinThree(INIT, Opening(o, id), Sending(o), Breaking());
  }

  /** The request is on the wire and send returned nil, but its caller is left hanging after Close. */
  lemma OvertakenCallerHangs(o: OpId, id: Id)
    ensures var es := Opening(o, id) + (Sending(o) + Breaking());
            && Possible(INIT, es) && HonestRun(INIT, es)
            && var s := Run(INIT, es);
            s.phase.Exited? && o in s.ops && s.ops[o].sent == Some(None) && Hangs(s, o)
  {
    OvertakenRun(o, id);
    assert id in SentOp(id).ids && id !in Answered(SentOp(id));
  }
}
