/** The invariant of the dispatch protocol and the proof that every honest step keeps it. */
module DispatchInvariant {
  import opened Wrappers
  import opened Dispatch

  lemma {:induction false} AddIdsAt(w: map<Id, OpId>, ids: seq<Id>, o: OpId)
    ensures AddIds(w, ids, o).Keys == w.Keys + Elements(ids)
    ensures forall id :: id in AddIds(w, ids, o) ==> AddIds(w, ids, o)[id] == if id in ids then o else w[id]
  {
    if ids == [] {
    } else {
      AddIdsAt(w, ids[..|ids| - 1], o);
      assert ids == ids[..|ids| - 1] + [ids[|ids| - 1]];
    }
  }

  lemma {:induction false} RemoveIdsAt(w: map<Id, OpId>, ids: seq<Id>)
    ensures RemoveIds(w, ids) == w - Elements(ids)
  {
    if ids == [] {
    } else {
      RemoveIdsAt(w, ids[..|ids| - 1]);
      assert ids == ids[..|ids| - 1] + [ids[|ids| - 1]];
      assert Elements(ids) == Elements(ids[..|ids| - 1]) + {ids[|ids| - 1]};
    }
  }

  function IdsOf(msgs: seq<Message>): (ids: seq<Id>)
    ensures |ids| == |msgs|
  {
    seq(|msgs|, i requires 0 <= i < |msgs| => msgs[i].id)
  }

  /** The ids that have been answered on op's channel, read or still buffered. */
  function Answered(op: Op): seq<Id> {
    IdsOf(op.got + op.buf)
  }

  ghost predicate Owns(s: State, o: OpId, id: Id) {
    o in s.ops && id in s.ops[o].ids
  }

  ghost predicate IdsDisjoint(s: State) {
    forall o, p, id :: Owns(s, o, id) && Owns(s, p, id) ==> o == p
  }

  ghost predicate ConnInv(s: State) {
    && (s.lastOp.Some? ==> s.lastOp.value in s.ops)
    && (s.locked <==> s.lastOp.Some?)
    && |s.reqSent| <= 1
    && (s.lastOp.None? ==> s.reqSent == [])
    && s.fault.NoFault?
    && (match s.phase
        case Running => s.readers.Keys == if s.reading then {s.conn} else {}
        case Draining(n) => s.readers.Keys == {s.conn} && s.reading && s.lastOp.Some? && s.respWait == map[]
        case ExitDraining => s.readers.Keys == {s.conn} && s.reading && s.respWait == map[]
        case Exited => s.readers == map[])
    && (s.writeConn.Some? ==> s.writeConn.value == if s.phase.Draining? then s.phase.next else s.conn)
    && (!s.phase.Draining? && !(s.phase.Running? && s.reading) ==> s.conn in s.closedConns)
    && (s.phase.Exited? && s.reading ==> s.respWait == map[])
  }

  /** What holds of one entry of respWait. */
  ghost predicate WaitInv(s: State, id: Id) {
    id in s.respWait ==>
      var o := s.respWait[id];
      && Owns(s, o, id)
      && var op := s.ops[o];
      && !op.closed
      && !op.pc.Start?
      && id !in Answered(op)
      && (!Committed(op) ==> s.lastOp == Some(o))
      && ((s.phase.Running? && !s.reading) || s.phase.Exited? ==> !Committed(op))
  }

  /** What holds of one operation by itself. */
  ghost predicate LocalInv(op: Op) {
    && Distinct(op.ids)
    && (op.sub ==> |op.ids| == 1 && op.buf == [] && op.got == [])
    && Distinct(Answered(op))
    && (forall id :: id in Answered(op) ==> id in op.ids)
    && (Holds(op) || op.pc.Start? ==> op.sent.None?)
    && (op.pc.Start? ==> !op.closed)
    && (op.pc.Waiting? || op.pc.TimingOut? || op.pc.TimedOut? ==> op.sent == Some(None))
    && (!Committed(op) ==> op.buf == [] && op.got == [])
    && (op.closed && !op.sub ==> op.err.Some?)
    && (op.err.Some? ==> op.closed)
  }

  /** What holds of one operation in relation to dispatch. */
  ghost predicate OpInv(s: State, o: OpId)
    requires o in s.ops
  {
    var op := s.ops[o];
    && (Holds(op) ==> s.lastOp == Some(o) && s.reqSent == [])
    && (s.lastOp == Some(o) ==>
          && !op.pc.Start?
          && (!Holds(op) ==> op.sent.Some? && s.reqSent == [op.sent.value])
          && (s.phase.Running? || s.phase.Draining? ==> !Committed(op) ==> !op.closed)
          && (s.phase.Draining? ==> !op.closed && op.buf == [] && op.got == []))
    && (s.lastOp == Some(o) && !Committed(op) && s.phase.Running? && s.reading ==>
          forall id :: id in op.ids ==> Registered(s, id, o))
    && (Committed(op) && !op.pc.TimedOut? ==> Tracked(s, o))
    && (o in s.stranded ==> IsStranded(s, o))
  }

  ghost predicate Tracked(s: State, o: OpId)
    requires o in s.ops
  {
    var op := s.ops[o];
    op.closed || o in s.stranded || (s.phase.Draining? && s.lastOp == Some(o)) ||
    forall id :: id in op.ids ==> id in Answered(op) || Registered(s, id, o)
  }

  /** Committed, not answered in full, and no longer known to dispatch. */
  ghost predicate IsStranded(s: State, o: OpId)
    requires o in s.ops
  {
    var op := s.ops[o];
    && Committed(op) && !op.closed && !op.pc.Start?
    && (forall id :: id in op.ids ==> !Registered(s, id, o))
    && (exists id :: id in op.ids && id !in Answered(op))
    && !(s.phase.Draining? && s.lastOp == Some(o))
  }

  ghost predicate Inv(s: State) {
    && ConnInv(s)
    && IdsDisjoint(s)
    && (forall o {:trigger LocalInv(s.ops[o])} | o in s.ops :: LocalInv(s.ops[o]))
    && (forall o {:trigger OpInv(s, o)} | o in s.ops :: OpInv(s, o))
    && (forall id {:trigger WaitInv(s, id)} | id in s.respWait :: WaitInv(s, id))
    && s.stranded <= s.ops.Keys
  }

  lemma InitInv()
    ensures Inv(INIT)
  {
  }

  lemma SameIds(s: State, t: State)
    requires IdsDisjoint(s)
    requires t.ops.Keys == s.ops.Keys
    requires forall o | o in s.ops :: t.ops[o].ids == s.ops[o].ids
    ensures IdsDisjoint(t)
  {
    forall o, p, id | Owns(t, o, id) && Owns(t, p, id)
      ensures o == p
    {
      assert Owns(s, o, id) && Owns(s, p, id);
    }
  }


  // ---- steps of a caller's goroutine: only its own op changes ----

  /** t is s but for op o, the caller's side of the connection and a growing set of closed codecs. */
  ghost predicate OnlyOp(s: State, t: State, o: OpId) {
    && o in s.ops && o in t.ops && t.ops == s.ops[o := t.ops[o]]
    && t.ops[o].ids == s.ops[o].ids && t.ops[o].closed == s.ops[o].closed
    && Answered(t.ops[o]) == Answered(s.ops[o])
    && t == s.(ops := t.ops, writeConn := t.writeConn, dialed := t.dialed,
               closedConns := t.closedConns, reqSent := t.reqSent)
    && s.closedConns <= t.closedConns
    && (t.reqSent == s.reqSent || s.lastOp == Some(o))
    && (t.ops[o].pc.Start? ==> s.ops[o].pc.Start?)
    && (Committed(t.ops[o]) && !Committed(s.ops[o]) ==> !((s.phase.Running? && !s.reading) || s.phase.Exited?))
    && (!Committed(t.ops[o]) ==> !Committed(s.ops[o]))
  }

  lemma OnlyOpKeepsInv(s: State, t: State, o: OpId)
    requires Inv(s) && OnlyOp(s, t, o)
    requires ConnInv(t) && LocalInv(t.ops[o]) && OpInv(t, o)
    ensures Inv(t)
  {
    SameIds(s, t);
    forall p | p in t.ops ensures LocalInv(t.ops[p]) {
      assert LocalInv(s.ops[p]);
    }
    forall p | p in t.ops ensures OpInv(t, p) {
      assert OpInv(s, p);
    }
    forall id | id in t.respWait ensures WaitInv(t, id) {
      assert WaitInv(s, id);
    }
  }

  lemma CallerKeepsInv(s: State, e: Event)
    requires Inv(s) && Enabled(s, e)
    requires e.GiveUp? || e.DialFails? || e.DialOk? || e.ReconnectRefused?
    ensures Inv(Apply(s, e))
  {
    assert LocalInv(s.ops[e.op]) && OpInv(s, e.op);
    OnlyOpKeepsInv(s, Apply(s, e), e.op);
  }

  lemma WriteStartKeepsInv(s: State, e: Event)
    requires Inv(s) && Enabled(s, e) && Honest(s, e) && e.WriteStart?
    ensures Inv(Apply(s, e))
  {
    assert LocalInv(s.ops[e.op]) && OpInv(s, e.op);
    OnlyOpKeepsInv(s, Apply(s, e), e.op);
  }

  lemma WriteSucceedsKeepsInv(s: State, e: Event)
    requires Inv(s) && Enabled(s, e) && e.WriteEnd? && s.ops[e.op].pc.ok
    ensures Inv(Apply(s, e))
  {
    assert LocalInv(s.ops[e.op]) && OpInv(s, e.op);
    OnlyOpKeepsInv(s, Apply(s, e), e.op);
  }

  lemma WriteFailsKeepsInv(s: State, e: Event)
    requires Inv(s) && Enabled(s, e) && e.WriteEnd? && !s.ops[e.op].pc.ok
    ensures Inv(Apply(s, e))
  {
    assert LocalInv(s.ops[e.op]) && OpInv(s, e.op);
    OnlyOpKeepsInv(s, Apply(s, e), e.op);
  }

  lemma SendDoneKeepsInv(s: State, e: Event)
    requires Inv(s) && Enabled(s, e) && e.SendDone?
    ensures Inv(Apply(s, e))
  {
    assert LocalInv(s.ops[e.op]) && OpInv(s, e.op);
    OnlyOpKeepsInv(s, Apply(s, e), e.op);
  }

  lemma ReceiveKeepsInv(s: State, e: Event)
    requires Inv(s) && Enabled(s, e) && e.Receive?
    ensures Inv(Apply(s, e))
  {
    var t := Apply(s, e);
    var op := s.ops[e.op];
    assert LocalInv(op) && OpInv(s, e.op);
    assert op.got + [op.buf[0]] + op.buf[1..] == op.got + op.buf;
    assert Answered(t.ops[e.op]) == Answered(op);
    OnlyOpKeepsInv(s, t, e.op);
  }

  lemma WaiterKeepsInv(s: State, e: Event)
    requires Inv(s) && Enabled(s, e)
    requires e.ReceiveClosed? || e.Complete?
    ensures Inv(Apply(s, e))
  {
    assert LocalInv(s.ops[e.op]) && OpInv(s, e.op);
    OnlyOpKeepsInv(s, Apply(s, e), e.op);
  }

  lemma TimeOutKeepsInv(s: State, e: Event)
    requires Inv(s) && Enabled(s, e) && (e.TimeOut? || e.TimeOutClosing?)
    ensures Inv(Apply(s, e))
  {
    assert LocalInv(s.ops[e.op]) && OpInv(s, e.op);
    OnlyOpKeepsInv(s, Apply(s, e), e.op);
  }

  lemma CallKeepsInv(s: State, e: Event)
    requires Inv(s) && e.Call? && Enabled(s, e) && Honest(s, e)
    ensures Inv(Apply(s, e))
  {
    var t := Apply(s, e);
    forall o, p, id | Owns(t, o, id) && Owns(t, p, id)
      ensures o == p
    {
      assert o != e.op ==> Owns(s, o, id);
      assert p != e.op ==> Owns(s, p, id);
    }
    forall p | p in t.ops ensures LocalInv(t.ops[p]) {
      assert p != e.op ==> LocalInv(s.ops[p]);
    }
    forall p | p in t.ops ensures OpInv(t, p) {
      assert p != e.op ==> OpInv(s, p);
    }
    forall id | id in t.respWait ensures WaitInv(t, id) {
      assert WaitInv(s, id);
    }
  }

  lemma ReadFailsKeepsInv(s: State, e: Event)
    requires Inv(s) && Enabled(s, e) && e.ReadFails?
    ensures Inv(Apply(s, e))
  {
    var t := Apply(s, e);
    SameIds(s, t);
    forall p | p in t.ops ensures LocalInv(t.ops[p]) && OpInv(t, p) {
      assert LocalInv(s.ops[p]) && OpInv(s, p);
    }
    forall id | id in t.respWait ensures WaitInv(t, id) {
      assert WaitInv(s, id);
    }
  }

  // ---- steps of the dispatch goroutine ----

  lemma ReqInitKeepsInv(s: State, e: Event)
    requires Inv(s) && Enabled(s, e) && e.ReqInit?
    ensures Inv(Apply(s, e))
  {
    var t := Apply(s, e);
    AddIdsAt(s.respWait, s.ops[e.op].ids, e.op);
    SameIds(s, t);
    assert LocalInv(s.ops[e.op]) && OpInv(s, e.op);
    forall p | p in t.ops ensures LocalInv(t.ops[p]) {
      assert LocalInv(s.ops[p]);
    }
    forall id | id in t.respWait ensures WaitInv(t, id) {
      ReqInitWait(s, e, id);
    }
    forall p | p in t.ops ensures OpInv(t, p) {
      ReqInitOp(s, e, p);
    }
  }

  lemma ReqInitWait(s: State, e: Event, id: Id)
    requires Inv(s) && Enabled(s, e) && e.ReqInit? && id in Apply(s, e).respWait
    ensures WaitInv(Apply(s, e), id)
  {
    AddIdsAt(s.respWait, s.ops[e.op].ids, e.op);
    assert LocalInv(s.ops[e.op]);
    assert id in s.respWait ==> WaitInv(s, id);
  }

  lemma ReqInitOp(s: State, e: Event, p: OpId)
    requires Inv(s) && Enabled(s, e) && e.ReqInit? && p in s.ops
    ensures OpInv(Apply(s, e), p)
  {
    var t := Apply(s, e);
    AddIdsAt(s.respWait, s.ops[e.op].ids, e.op);
    assert LocalInv(s.ops[p]) && OpInv(s, p);
    forall id | id in s.ops[p].ids && p != e.op && Registered(s, id, p) ensures Registered(t, id, p) {
      assert Owns(s, p, id) && (id in s.ops[e.op].ids ==> Owns(s, e.op, id));
    }
    forall id | id in s.ops[p].ids && p != e.op && Registered(t, id, p) ensures Registered(s, id, p) {
    }
  }

  lemma ReqSentTakenKeepsInv(s: State, e: Event)
    requires Inv(s) && Enabled(s, e) && e.ReqSentTaken?
    ensures Inv(Apply(s, e))
  {
    var t := Apply(s, e);
    var last := s.lastOp.value;
    RemoveIdsAt(s.respWait, s.ops[last].ids);
    SameIds(s, t);
    assert LocalInv(s.ops[last]) && OpInv(s, last);
    forall p | p in t.ops ensures LocalInv(t.ops[p]) {
      assert LocalInv(s.ops[p]);
    }
    forall id | id in t.respWait ensures WaitInv(t, id) {
      assert WaitInv(s, id);
    }
    forall p | p in t.ops ensures OpInv(t, p) {
      ReqSentTakenOp(s, e, p);
    }
  }

  lemma ReqSentTakenOp(s: State, e: Event, p: OpId)
    requires Inv(s) && Enabled(s, e) && e.ReqSentTaken? && p in s.ops
    ensures OpInv(Apply(s, e), p)
  {
    var t := Apply(s, e);
    var last := s.lastOp.value;
    RemoveIdsAt(s.respWait, s.ops[last].ids);
    assert LocalInv(s.ops[last]) && OpInv(s, last) && OpInv(s, p);
    forall id | id in s.ops[p].ids && p != last && Registered(s, id, p) ensures Registered(t, id, p) {
      assert Owns(s, p, id) && (id in s.ops[last].ids ==> Owns(s, last, id));
    }
  }

  lemma TimeOutTakenKeepsInv(s: State, e: Event)
    requires Inv(s) && Enabled(s, e) && e.TimeOutTaken?
    ensures Inv(Apply(s, e))
  {
    var t := Apply(s, e);
    RemoveIdsAt(s.respWait, s.ops[e.op].ids);
    SameIds(s, t);
    assert LocalInv(s.ops[e.op]) && OpInv(s, e.op);
    forall p | p in t.ops ensures LocalInv(t.ops[p]) {
      assert LocalInv(s.ops[p]);
    }
    forall id | id in t.respWait ensures WaitInv(t, id) {
      assert WaitInv(s, id);
    }
    forall p | p in t.ops ensures OpInv(t, p) {
      TimeOutTakenOp(s, e, p);
    }
  }

  lemma TimeOutTakenOp(s: State, e: Event, p: OpId)
    requires Inv(s) && Enabled(s, e) && e.TimeOutTaken? && p in s.ops
    ensures OpInv(Apply(s, e), p)
  {
    var t := Apply(s, e);
    RemoveIdsAt(s.respWait, s.ops[e.op].ids);
    assert LocalInv(s.ops[e.op]) && OpInv(s, p);
    forall id | id in s.ops[p].ids && p != e.op && Registered(s, id, p) ensures Registered(t, id, p) {
      assert Owns(s, p, id) && (id in s.ops[e.op].ids ==> Owns(s, e.op, id));
    }
  }

  /** An accepted answer finds room in an open channel. */
  lemma AnswerHasRoom(s: State, msg: Message)
    requires Inv(s) && msg.id in s.respWait
    ensures s.respWait[msg.id] in s.ops
    ensures var op := s.ops[s.respWait[msg.id]];
            !op.closed && (!op.sub ==> |op.got| + |op.buf| < |op.ids|)
  {
    assert WaitInv(s, msg.id);
    var op := s.ops[s.respWait[msg.id]];
    assert LocalInv(op);
    RoomForOne(Answered(op), op.ids, msg.id);
  }

  lemma AnswerKeepsInv(s: State, e: Event)
    requires Inv(s) && Enabled(s, e) && Honest(s, e) && e.Answer?
    ensures Inv(Apply(s, e))
  {
    if e.msg.id in s.respWait {
      var t := Apply(s, e);
      var o := s.respWait[e.msg.id];
      AnswerHasRoom(s, e.msg);
      AnswerLocal(s, e);
      assert t.ops == s.ops[o := t.ops[o]];
      SameIds(s, t);
      forall p | p in t.ops ensures LocalInv(t.ops[p]) {
        assert LocalInv(s.ops[p]);
      }
      forall id | id in t.respWait ensures WaitInv(t, id) {
        AnswerWait(s, e, id);
      }
      forall p | p in t.ops ensures OpInv(t, p) {
        AnswerOp(s, e, p);
      }
    }
  }

  lemma AnswerLocal(s: State, e: Event)
    requires Inv(s) && Enabled(s, e) && Honest(s, e) && e.Answer? && e.msg.id in s.respWait
    ensures var t := Apply(s, e); var o := s.respWait[e.msg.id];
            && o in s.ops && o in t.ops && LocalInv(t.ops[o])
            && Answered(t.ops[o]) == Answered(s.ops[o]) + (if s.ops[o].sub then [] else [e.msg.id])
  {
    var t := Apply(s, e);
    AnswerHasRoom(s, e.msg);
    assert WaitInv(s, e.msg.id);
    var o := s.respWait[e.msg.id];
    var op := s.ops[o];
    assert LocalInv(op);
    if !op.sub {
      assert op.got + (op.buf + [e.msg]) == (op.got + op.buf) + [e.msg];
      assert Answered(t.ops[o]) == Answered(op) + [e.msg.id];
    }
  }

  lemma AnswerWait(s: State, e: Event, id: Id)
    requires Inv(s) && Enabled(s, e) && Honest(s, e) && e.Answer? && e.msg.id in s.respWait
    requires id in Apply(s, e).respWait
    ensures WaitInv(Apply(s, e), id)
  {
    AnswerHasRoom(s, e.msg);
    AnswerLocal(s, e);
    assert WaitInv(s, id) && WaitInv(s, e.msg.id);
    assert LocalInv(s.ops[s.respWait[e.msg.id]]);
  }

  lemma AnswerOp(s: State, e: Event, p: OpId)
    requires Inv(s) && Enabled(s, e) && Honest(s, e) && e.Answer? && e.msg.id in s.respWait && p in s.ops
    ensures OpInv(Apply(s, e), p)
  {
    AnswerHasRoom(s, e.msg);
    AnswerLocal(s, e);
    assert OpInv(s, p) && WaitInv(s, e.msg.id);
    assert LocalInv(s.ops[p]);
  }

  /** What cancelAllRequests leaves of op p. */
  lemma CancelledOp(s: State, err: Error, inflight: Option<OpId>, p: OpId)
    requires Inv(s) && p in s.ops
    ensures CancelAll(s, err, inflight).fault.NoFault?
    ensures p in CancelAll(s, err, inflight).ops
    ensures var op := CancelAll(s, err, inflight).ops[p];
            var victim := p in s.respWait.Values && Some(p) != inflight;
            && op == (if victim then s.ops[p].(closed := true, err := Some(err)) else s.ops[p])
            && LocalInv(op) && Answered(op) == Answered(s.ops[p])
            && (victim ==> !s.ops[p].closed && !s.ops[p].pc.Start?)
  {
    forall o | o in Victims(s.respWait, inflight) ensures o in s.ops && !s.ops[o].closed && !s.ops[o].pc.Start? {
      var id :| id in s.respWait && s.respWait[id] == o;
      assert WaitInv(s, id);
    }
    assert LocalInv(s.ops[p]);
  }

  lemma ReadErrKeepsInv(s: State, e: Event)
    requires Inv(s) && Enabled(s, e) && e.ReadErr?
    ensures Inv(Apply(s, e))
  {
    ReadErrConn(s, e);
    forall p | p in s.ops ensures OpSettled(s, Apply(s, e), p) {
      ReadErrOp(s, e, p);
    }
    EmptyTableInv(s, Apply(s, e));
  }

  /** Op p after a step that empties respWait. */
  ghost predicate OpSettled(s: State, t: State, p: OpId)
    requires p in s.ops
  {
    p in t.ops && t.ops[p].ids == s.ops[p].ids && LocalInv(t.ops[p]) && OpInv(t, p)
  }

  lemma EmptyTableInv(s: State, t: State)
    requires Inv(s) && ConnInv(t) && t.respWait == map[]
    requires t.ops.Keys == s.ops.Keys && t.stranded <= t.ops.Keys
    requires forall p | p in s.ops :: OpSettled(s, t, p)
    ensures Inv(t)
  {
    forall p | p in s.ops ensures t.ops[p].ids == s.ops[p].ids {
      assert OpSettled(s, t, p);
    }
    SameIds(s, t);
    forall p | p in t.ops ensures LocalInv(t.ops[p]) && OpInv(t, p) {
      assert OpSettled(s, t, p);
    }
  }

  lemma ReadErrConn(s: State, e: Event)
    requires Inv(s) && Enabled(s, e) && e.ReadErr?
    ensures var t := Apply(s, e);
            ConnInv(t) && t.respWait == map[] && t.ops.Keys == s.ops.Keys && t.stranded <= t.ops.Keys
  {
    CancelFault(s, ReadError, s.lastOp);
    assert Overtaken(s) <= s.ops.Keys;
  }

  lemma CancelFault(s: State, err: Error, inflight: Option<OpId>)
    requires Inv(s)
    ensures CancelAll(s, err, inflight).fault.NoFault?
  {
    forall o | o in Victims(s.respWait, inflight) && o in s.ops ensures !s.ops[o].closed {
      CancelledOp(s, err, inflight, o);
    }
  }

  /** A stranded op is registered nowhere, so cancelling passes it by. */
  lemma StrandedIsNoVictim(s: State, p: OpId)
    requires Inv(s) && p in s.stranded
    ensures p in s.ops && p !in s.respWait.Values
    ensures exists id :: id in s.ops[p].ids && id !in Answered(s.ops[p])
  {
    assert OpInv(s, p);
    if p in s.respWait.Values {
      var id :| id in s.respWait && s.respWait[id] == p;
      assert WaitInv(s, id) && Registered(s, id, p);
    }
  }

  lemma ReadErrOp(s: State, e: Event, p: OpId)
    requires Inv(s) && Enabled(s, e) && e.ReadErr? && p in s.ops
    ensures var t := Apply(s, e);
            p in t.ops && t.ops[p].ids == s.ops[p].ids && LocalInv(t.ops[p]) && OpInv(t, p)
  {
    CancelledOp(s, ReadError, s.lastOp, p);
    assert OpInv(s, p) && LocalInv(s.ops[p]);
    forall id | id in s.ops[p].ids && Registered(s, id, p) ensures p in s.respWait.Values && WaitInv(s, id) {
    }
    var t := Apply(s, e);
    if p in s.stranded {
      StrandedIsNoVictim(s, p);
      var id :| id in s.ops[p].ids && id !in Answered(s.ops[p]);
      assert id in t.ops[p].ids && id !in Answered(t.ops[p]);
    } else if p in Overtaken(s) {
      var id :| id in s.respWait && s.respWait[id] == p;
      assert WaitInv(s, id);
      assert id in t.ops[p].ids && id !in Answered(t.ops[p]);
    }
  }

  lemma CloseKeepsInv(s: State, e: Event)
    requires Inv(s) && Enabled(s, e) && e.Close?
    ensures Inv(Apply(s, e))
  {
    var t := Apply(s, e);
    forall p | p in s.ops ensures p in t.ops && t.ops[p].ids == s.ops[p].ids && LocalInv(t.ops[p]) && OpInv(t, p) {
      CloseOp(s, e, p);
    }
    SameIds(s, t);
    CancelFault(s, ClientQuit, None);
    forall id | id in t.respWait ensures WaitInv(t, id) {
      assert WaitInv(s, id);
    }
  }

  lemma CloseOp(s: State, e: Event, p: OpId)
    requires Inv(s) && Enabled(s, e) && e.Close? && p in s.ops
    ensures var t := Apply(s, e);
            p in t.ops && t.ops[p].ids == s.ops[p].ids && LocalInv(t.ops[p]) && OpInv(t, p)
  {
    CancelledOp(s, ClientQuit, None, p);
    assert OpInv(s, p) && LocalInv(s.ops[p]);
    forall id | id in s.ops[p].ids && Registered(s, id, p) ensures p in s.respWait.Values && WaitInv(s, id) {
    }
    if p in s.stranded {
      var t := Apply(s, e);
      StrandedIsNoVictim(s, p);
      var id :| id in s.ops[p].ids && id !in Answered(s.ops[p]);
      assert id in t.ops[p].ids && id !in Answered(t.ops[p]);
    }
  }

  // ---- reconnecting ----

  /** Handing over a new codec while the old reader lives: cancel all but the op in flight, start draining. */
  lemma ReconnectOp(s: State, e: Event, p: OpId)
    requires Inv(s) && Enabled(s, e) && e.Reconnect? && s.reading && p in s.ops
    ensures var t := Apply(s, e);
            p in t.ops && t.ops[p].ids == s.ops[p].ids && LocalInv(t.ops[p]) && OpInv(t, p)
  {
    var t := Apply(s, e);
    assert OpInv(s, e.op) && LocalInv(s.ops[e.op]);
    CancelledOp(s, ClientReconnected, s.lastOp, p);
    assert OpInv(s, p) && LocalInv(s.ops[p]);
    forall id | id in s.ops[p].ids && Registered(s, id, p) ensures p in s.respWait.Values && WaitInv(s, id) {
    }
    if p in s.stranded {
      StrandedIsNoVictim(s, p);
      var id :| id in s.ops[p].ids && id !in Answered(s.ops[p]);
      assert id in t.ops[p].ids && id !in Answered(t.ops[p]);
    }
  }

  lemma ReconnectDrains(s: State, e: Event)
    requires Inv(s) && Enabled(s, e) && e.Reconnect? && s.reading
    ensures Inv(Apply(s, e))
  {
    var t := Apply(s, e);
    forall p | p in s.ops ensures p in t.ops && t.ops[p].ids == s.ops[p].ids && LocalInv(t.ops[p]) && OpInv(t, p) {
      ReconnectOp(s, e, p);
    }
    SameIds(s, t);
    assert OpInv(s, e.op);
    CancelFault(s, ClientReconnected, s.lastOp);
  }

  /** Installing a codec registers the op in flight again, and nothing else. */
  lemma InstallKeepsInv(s: State, t: State, codec: ConnId)
    requires t == Install(s, codec)
    requires s.lastOp.Some? && s.lastOp.value in s.ops && !s.phase.ExitDraining? && !s.phase.Exited?
    requires s.locked && |s.reqSent| <= 1 && s.fault.NoFault? && s.readers == map[]
    requires s.writeConn.Some? ==> s.writeConn.value == codec
    requires IdsDisjoint(s) && s.stranded <= s.ops.Keys
    requires forall p {:trigger LocalInv(s.ops[p])} | p in s.ops :: LocalInv(s.ops[p])
    requires forall p {:trigger InstallReady(s, p)} | p in s.ops :: InstallReady(s, p)
    ensures Inv(t)
  {
    var last := s.lastOp.value;
    AddIdsAt(map[], s.ops[last].ids, last);
    SameIds(s, t);
    assert InstallReady(s, last) && LocalInv(s.ops[last]);
    forall id | id in t.respWait ensures WaitInv(t, id) {
    }
    forall p | p in t.ops ensures LocalInv(t.ops[p]) && OpInv(t, p) {
      assert LocalInv(s.ops[p]) && InstallReady(s, p);
    }
  }

  /** OpInv without its registrations: nothing but the op in flight counts on respWait. */
  ghost predicate InstallReady(s: State, p: OpId)
    requires p in s.ops
  {
    var op := s.ops[p];
    && (Holds(op) ==> s.lastOp == Some(p) && s.reqSent == [])
    && (s.lastOp == Some(p) ==>
          && !op.pc.Start? && !op.closed && op.buf == [] && op.got == []
          && p !in s.stranded
          && (!Holds(op) ==> op.sent.Some? && s.reqSent == [op.sent.value]))
    && (Committed(op) && !op.pc.TimedOut? && s.lastOp != Some(p) ==>
          op.closed || p in s.stranded || forall id :: id in op.ids ==> id in Answered(op))
    && (p in s.stranded ==> Committed(op) && !op.closed && !op.pc.Start? && exists id :: id in op.ids && id !in Answered(op))
  }

  lemma DrainErrKeepsInv(s: State, e: Event)
    requires Inv(s) && Enabled(s, e) && e.DrainErr?
    ensures Inv(Apply(s, e))
  {
    if s.phase.Draining? {
      var u := s.(readers := s.readers - {e.conn});
      SameIds(s, u);
      forall p | p in u.ops ensures LocalInv(u.ops[p]) && InstallReady(u, p) {
        assert LocalInv(s.ops[p]) && OpInv(s, p);
      }
      InstallKeepsInv(u, Apply(s, e), s.phase.next);
    } else {
      var t := Apply(s, e);
      SameIds(s, t);
      forall p | p in t.ops ensures LocalInv(t.ops[p]) && OpInv(t, p) {
        assert LocalInv(s.ops[p]) && OpInv(s, p);
      }
    }
  }

  lemma ReconnectInstalls(s: State, e: Event)
    requires Inv(s) && Enabled(s, e) && e.Reconnect? && !s.reading
    ensures Inv(Apply(s, e))
  {
    var u := SetPc(s, e.op, Locked(s.ops[e.op].pc.retry)).(writeConn := Some(s.ops[e.op].pc.codec));
    SameIds(s, u);
    assert OpInv(s, e.op) && LocalInv(s.ops[e.op]);
    forall p | p in u.ops ensures LocalInv(u.ops[p]) && InstallReady(u, p) {
      ReconnectReady(s, e, p);
    }
    InstallKeepsInv(u, Apply(s, e), s.ops[e.op].pc.codec);
  }

  /** Once the reader is gone, only the op in flight is still registered. */
  lemma ReconnectReady(s: State, e: Event, p: OpId)
    requires Inv(s) && Enabled(s, e) && e.Reconnect? && !s.reading && p in s.ops
    ensures var u := SetPc(s, e.op, Locked(s.ops[e.op].pc.retry)).(writeConn := Some(s.ops[e.op].pc.codec));
            LocalInv(u.ops[p]) && InstallReady(u, p)
  {
    assert OpInv(s, e.op) && LocalInv(s.ops[e.op]);
    assert OpInv(s, p) && LocalInv(s.ops[p]);
    forall id | id in s.ops[p].ids && Registered(s, id, p) ensures WaitInv(s, id) {
    }
  }

  // ---- every step, every run ----

  lemma StepKeepsInv(s: State, e: Event)
    requires Inv(s) && Enabled(s, e) && Honest(s, e)
    ensures Inv(Apply(s, e))
  {
    match e
    case Call(_, _, _) => CallKeepsInv(s, e);
    case GiveUp(_, _) => CallerKeepsInv(s, e);
    case DialFails(_) => CallerKeepsInv(s, e);
    case DialOk(_) => CallerKeepsInv(s, e);
    case ReconnectRefused(_) => CallerKeepsInv(s, e);
    case WriteStart(_, _) => WriteStartKeepsInv(s, e);
    case WriteEnd(o) => if s.ops[o].pc.ok { WriteSucceedsKeepsInv(s, e); } else { WriteFailsKeepsInv(s, e); }
    case SendDone(_) => SendDoneKeepsInv(s, e);
    case Receive(_) => ReceiveKeepsInv(s, e);
    case ReceiveClosed(_) => WaiterKeepsInv(s, e);
    case Complete(_) => WaiterKeepsInv(s, e);
    case TimeOut(_) => TimeOutKeepsInv(s, e);
    case TimeOutClosing(_) => TimeOutKeepsInv(s, e);
    case ReadFails(_) => ReadFailsKeepsInv(s, e);
    case ReqInit(_) => ReqInitKeepsInv(s, e);
    case Reconnect(_) => if s.reading { ReconnectDrains(s, e); } else { ReconnectInstalls(s, e); }
    case ReqSentTaken => ReqSentTakenKeepsInv(s, e);
    case TimeOutTaken(_) => TimeOutTakenKeepsInv(s, e);
    case Answer(_, _) => AnswerKeepsInv(s, e);
    case ReadErr(_) => ReadErrKeepsInv(s, e);
    case DrainErr(_) => DrainErrKeepsInv(s, e);
    case Close => CloseKeepsInv(s, e);
  }

  /** Every honest run keeps the invariant, however many callers and connections it has. */
  lemma {:induction false} RunKeepsInv(s: State, es: seq<Event>)
    requires Inv(s) && Possible(s, es) && HonestRun(s, es)
    ensures Inv(Run(s, es))
    decreases |es|
  {
    if es != [] {
      StepKeepsInv(s, es[0]);
      RunKeepsInv(Apply(s, es[0]), es[1..]);
    }
  }
}
