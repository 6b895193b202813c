/**
  The client as the object it is: its goroutines' steps as methods that update fields, its handler
  tables changed in loops.  Each method is tied to the step machine, and ServeAll to its runs.
 */
module RpcClient {
  import opened Wrappers
  import opened Dispatch
  import opened DispatchInvariant

  class Client {
    var ops: map<OpId, Op>
    var respWait: map<Id, OpId>
    var lastOp: Option<OpId>
    var locked: bool
    var reqSent: seq<Option<Error>>
    var phase: Phase
    var reading: bool
    var conn: ConnId
    var readers: map<ConnId, Reader>
    var closedConns: set<ConnId>
    var dialed: nat
    var writeConn: Option<ConnId>
    ghost var stranded: set<OpId>
    var fault: Fault

    ghost function Now(): State
      reads this
    {
      State(ops, respWait, lastOp, locked, reqSent, phase, reading, conn, readers,
            closedConns, dialed, writeConn, stranded, fault)
    }

    constructor ()
      ensures Now() == INIT
    {
      ops, respWait, lastOp, locked, reqSent := map[], map[], None, false, [];
      phase, reading, conn, readers, closedConns := Running, true, 0, map[0 := Reading], {};
      dialed, writeConn, stranded, fault := 1, Some(0), {}, NoFault;
    }

    // ---- handler.go ----

    method AddRequestOp(o: OpId)
      requires o in ops
      modifies this`respWait
      ensures respWait == AddIds(old(respWait), ops[o].ids, o)
    {
      var ids := ops[o].ids;
      var i := 0;
      while i < |ids|
        invariant 0 <= i <= |ids|
        invariant respWait == AddIds(old(respWait), ids[..i], o)
      {
        respWait := respWait[ids[i] := o];
        i := i + 1;
        assert ids[..i][..i - 1] == ids[..i - 1];
      }
      assert ids[..i] == ids;
    }

    method RemoveRequestOp(o: OpId)
      requires o in ops
      modifies this`respWait
      ensures respWait == RemoveIds(old(respWait), ops[o].ids)
    {
      var ids := ops[o].ids;
      var i := 0;
      while i < |ids|
        invariant 0 <= i <= |ids|
        invariant respWait == RemoveIds(old(respWait), ids[..i])
      {
        respWait := respWait - {ids[i]};
        i := i + 1;
        assert ids[..i][..i - 1] == ids[..i - 1];
      }
      assert ids[..i] == ids;
    }

    /** op.err = err; close(op.resp) */
    method FailOp(o: OpId, err: Error)
      requires o in ops
      modifies this`ops, this`fault
      ensures ops == old(ops)[o := old(ops[o]).(closed := true, err := Some(err))]
      ensures fault == if old(ops[o]).closed then CloseOfClosed else old(fault)
    {
      if ops[o].closed {
        fault := CloseOfClosed;
      }
      ops := ops[o := ops[o].(closed := true, err := Some(err))];
    }

    /** Walks respWait in whatever order the map yields; didClose keeps a batch from being closed twice. */
    method CancelAllRequests(err: Error, inflight: Option<OpId>)
      modifies this`respWait, this`ops, this`fault
      ensures respWait == map[]
      ensures ops == CloseOps(old(ops), Victims(old(respWait), inflight), err)
      ensures fault == if AnyClosed(old(ops), Victims(old(respWait), inflight)) then CloseOfClosed else old(fault)
    {
      ghost var w, all := respWait, ops;
      var didClose := InflightSet(inflight);
      ghost var done: set<OpId> := {};
      while respWait != map[]
        invariant SweepInv(w, respWait, inflight, done, didClose)
        invariant ops == CloseOps(all, done, err)
        invariant fault == if AnyClosed(all, done) then CloseOfClosed else old(fault)
        decreases respWait.Keys
      {
        var id :| id in respWait;
        var o := respWait[id];
        SweepStep(w, respWait, inflight, done, didClose, id);
        respWait := respWait - {id};
        if o !in didClose {
          CloseOneMore(all, done, o, err);
          if o in ops {
            FailOp(o, err);
          }
          didClose := didClose + {o};
          done := done + {o};
        }
      }
      assert done == Victims(w, inflight);
    }

    method HandleResponse(msg: Message)
      modifies this`respWait, this`ops, this`fault
      ensures Now() == Dispatch.HandleResponse(old(Now()), msg)
    {
      if msg.id !in respWait || respWait[msg.id] !in ops {
        return;
      }
      var o := respWait[msg.id];
      var op := ops[o];
      respWait := respWait - {msg.id};
      if !op.sub {
        if op.closed {
          fault := SendOnClosed;
        } else if |op.buf| < |op.ids| {
          ops := ops[o := op.(buf := op.buf + [msg])];
        } else {
          fault := SendBlocks;
        }
        return;
      }
      op := op.(err := if msg.ok then None else Some(ServerError));
      if op.closed {
        fault := CloseOfClosed;
      } else {
        ops := ops[o := op.(closed := true)];
      }
    }

    // ---- the cases of dispatch's select ----

    method OnReqInit(o: OpId)
      requires Enabled(Now(), ReqInit(o))
      modifies this
      ensures Now() == Apply(old(Now()), ReqInit(o))
    {
      ghost var s := Now();
      ops := ops[o := ops[o].(pc := Locked(false))];
      locked := true;
      lastOp := Some(o);
      assert Now() == SetPc(s, o, Locked(false)).(locked := true, lastOp := Some(o));
      AddRequestOp(o);
    }

    method OnReqSent()
      requires Enabled(Now(), ReqSentTaken)
      modifies this
      ensures Now() == Apply(old(Now()), ReqSentTaken)
    {
      var err := reqSent[0];
      reqSent := reqSent[1..];
      if err.Some? {
        if lastOp.Some? && lastOp.value in ops {
          RemoveRequestOp(lastOp.value);
        } else {
          fault := NilOp;
        }
      }
      locked := false;
      lastOp := None;
    }

    method OnTimeout(o: OpId)
      requires Enabled(Now(), TimeOutTaken(o))
      modifies this
      ensures Now() == Apply(old(Now()), TimeOutTaken(o))
    {
      RemoveRequestOp(o);
      ops := ops[o := ops[o].(pc := TimedOut)];
    }

    method OnReadErr(c: ConnId)
      requires Enabled(Now(), ReadErr(c))
      modifies this
      ensures Now() == Apply(old(Now()), ReadErr(c))
    {
      ghost var overtaken := Overtaken(Now());
      CancelAllRequests(ReadError, lastOp);
      readers := readers - {c};
      closedConns := closedConns + {conn};
      reading := false;
      stranded := stranded + overtaken;
    }

    /** go c.read(newcodec) and the new handler, once the old reader is out of the way. */
    method InstallConn(codec: ConnId)
      modifies this
      ensures Now() == Install(old(Now()), codec)
    {
      readers := readers[codec := Reading];
      reading := true;
      conn := codec;
      respWait := map[];
      phase := Running;
      if lastOp.Some? && lastOp.value in ops {
        AddRequestOp(lastOp.value);
      } else {
        fault := NilOp;
      }
    }

    method OnReconnected(o: OpId)
      requires Enabled(Now(), Reconnect(o))
      modifies this
      ensures Now() == Apply(old(Now()), Reconnect(o))
    {
      ghost var s := Now();
      var codec := ops[o].pc.codec;
      ops := ops[o := ops[o].(pc := Locked(ops[o].pc.retry))];
      writeConn := Some(codec);
      assert Now() == SetPc(s, o, Locked(s.ops[o].pc.retry)).(writeConn := Some(codec));
      if reading {
        StartDraining(codec);
      } else {
        InstallConn(codec);
      }
    }

    /** conn.close(errClientReconnected, lastOp), and on to drainRead. */
    method StartDraining(codec: ConnId)
      modifies this
      ensures Now() == CancelAll(old(Now()), ClientReconnected, old(lastOp)).(
                closedConns := old(closedConns) + {old(conn)}, phase := Draining(codec))
    {
      CancelAllRequests(ClientReconnected, lastOp);
      closedConns := closedConns + {conn};
      phase := Draining(codec);
    }

    method OnDrained(c: ConnId)
      requires Enabled(Now(), DrainErr(c))
      modifies this
      ensures Now() == Apply(old(Now()), DrainErr(c))
    {
      readers := readers - {c};
      if phase.Draining? {
        InstallConn(phase.next);
      } else {
        phase := Exited;
      }
    }

    method OnClose()
      requires Enabled(Now(), Close)
      modifies this
      ensures Now() == Apply(old(Now()), Close)
    {
      if reading {
        CancelAllRequests(ClientQuit, None);
        closedConns := closedConns + {conn};
        phase := ExitDraining;
      } else {
        phase := Exited;
      }
    }

    // ---- the goroutines around dispatch ----

    /** send, write, reconnect and wait, one step at a time. */
    method CallerStep(e: Event)
      requires Enabled(Now(), e)
      requires e.Call? || SendEvent(e)
      modifies this
      ensures Now() == Apply(old(Now()), e)
    {
      match e
      case Call(o, ids, sub) => ops := ops[o := Op(ids, sub, Start, None, [], [], false, None)];
      case GiveUp(o, err) => ops := ops[o := ops[o].(pc := Returned(Some(err)))];
      case DialFails(o) => ops := ops[o := ops[o].(pc := Finishing(Some(Dead)))];
      case DialOk(o) =>
        ops := ops[o := ops[o].(pc := Dialed(ops[o].pc.retry, dialed))];
        dialed := dialed + 1;
      case ReconnectRefused(o) =>
        closedConns := closedConns + {ops[o].pc.codec};
        ops := ops[o := ops[o].(pc := Finishing(Some(ClientQuit)))];
      case WriteStart(o, ok) => ops := ops[o := ops[o].(pc := Writing(ops[o].pc.retry, ok))];
      case WriteEnd(o) =>
        var pc := ops[o].pc;
        if pc.ok {
          ops := ops[o := ops[o].(pc := Finishing(None))];
        } else {
          writeConn := None;
          ops := ops[o := ops[o].(pc := if pc.retry then Finishing(Some(WriteError)) else Locked(true))];
        }
    }

    method WaiterStep(e: Event)
      requires Enabled(Now(), e)
      requires e.ReadFails? || WaitEvent(e)
      modifies this
      ensures Now() == Apply(old(Now()), e)
    {
      match e
      case SendDone(o) =>
        var err := ops[o].pc.err;
        reqSent := reqSent + [err];
        ops := ops[o := ops[o].(sent := Some(err), pc := if err.None? then Waiting else Returned(err))];
      case Receive(o) =>
        var op := ops[o];
        ops := ops[o := op.(buf := op.buf[1..], got := op.got + [op.buf[0]],
                            pc := if op.err.Some? then Returned(op.err) else Waiting)];
      case ReceiveClosed(o) => ops := ops[o := ops[o].(pc := Returned(ops[o].err))];
      case Complete(o) => ops := ops[o := ops[o].(pc := Returned(None))];
      case TimeOut(o) => ops := ops[o := ops[o].(pc := TimingOut)];
      case TimeOutClosing(o) => ops := ops[o := ops[o].(pc := TimedOut)];
      case ReadFails(c) => readers := readers[c := Failed];
    }

    method DispatchStep(e: Event)
      requires Enabled(Now(), e)
      requires e.ReqInit? || e.Reconnect? || e.ReqSentTaken? || e.TimeOutTaken? || e.Answer? || e.ReadErr? || e.DrainErr? || e.Close?
      modifies this
      ensures Now() == Apply(old(Now()), e)
    {
      match e
      case ReqInit(o) => OnReqInit(o);
      case Reconnect(o) => OnReconnected(o);
      case ReqSentTaken => OnReqSent();
      case TimeOutTaken(o) => OnTimeout(o);
      case Answer(_, msg) => HandleResponse(msg);
      case ReadErr(c) => OnReadErr(c);
      case DrainErr(c) => OnDrained(c);
      case Close => OnClose();
    }

    method Step(e: Event)
      requires Enabled(Now(), e)
      modifies this
      ensures Now() == Apply(old(Now()), e)
    {
      if e.Call? || SendEvent(e) {
        CallerStep(e);
      } else if e.ReadFails? || WaitEvent(e) {
        WaiterStep(e);
      } else {
        DispatchStep(e);
      }
    }

    /**
      The client under a scheduler that picks the steps in `events`.  The state follows the step
      machine, and no step of an honest run misuses a channel or a nil op.
     */
    method ServeAll(events: seq<Event>)
      requires Inv(Now())
      requires Possible(Now(), events) && HonestRun(Now(), events)
      modifies this
      ensures Now() == Run(old(Now()), events)
      ensures Inv(Now()) && fault.NoFault?
    {
      var i := 0;
      while i < |events|
        invariant 0 <= i <= |events|
        invariant Possible(Now(), events[i..]) && HonestRun(Now(), events[i..])
        invariant Run(Now(), events[i..]) == Run(old(Now()), events)
        invariant Inv(Now())
      {
        var e := events[i];
        assert events[i..][0] == e && events[i..][1..] == events[i + 1..];
        StepKeepsInv(Now(), e);
        Step(e);
        i := i + 1;
      }
      assert events[i..] == [];
    }
  }

  function InflightSet(inflight: Option<OpId>): set<OpId> {
    if inflight.Some? then {inflight.value} else {}
  }

  /** In the middle of cancelAllRequests: w was to be cancelled, rest is still to go, done are the ops closed so far. */
  ghost predicate SweepInv(w: map<Id, OpId>, rest: map<Id, OpId>, inflight: Option<OpId>, done: set<OpId>, didClose: set<OpId>) {
    && didClose == done + InflightSet(inflight)
    && done !! InflightSet(inflight)
    && done + Victims(rest, inflight) == Victims(w, inflight)
  }

  lemma SweepStep(w: map<Id, OpId>, rest: map<Id, OpId>, inflight: Option<OpId>, done: set<OpId>, didClose: set<OpId>, id: Id)
    requires SweepInv(w, rest, inflight, done, didClose) && id in rest
    ensures var o := rest[id];
            if o in didClose then SweepInv(w, rest - {id}, inflight, done, didClose)
            else SweepInv(w, rest - {id}, inflight, done + {o}, didClose + {o})
  {
    VictimsShrink(rest, id, inflight);
  }

  /** Taking one id out of respWait takes at most its own op out of the victims. */
  lemma VictimsShrink(w: map<Id, OpId>, id: Id, inflight: Option<OpId>)
    requires id in w
    ensures Victims(w, inflight) == Victims(w - {id}, inflight) + (if Some(w[id]) != inflight then {w[id]} else {})
  {
    forall o | o in w.Values && o != w[id] ensures o in (w - {id}).Values {
      var k :| k in w && w[k] == o;
      assert k in w - {id};
    }
  }

  lemma CloseOneMore(ops: map<OpId, Op>, done: set<OpId>, o: OpId, err: Error)
    requires o !in done
    ensures CloseOps(ops, done + {o}, err) ==
            (if o in ops then CloseOps(ops, done, err)[o := ops[o].(closed := true, err := Some(err))] else CloseOps(ops, done, err))
    ensures AnyClosed(ops, done + {o}) <==> AnyClosed(ops, done) || (o in ops && ops[o].closed)
  {
  }
}
