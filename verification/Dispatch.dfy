/**
  The client's dispatch protocol as a step machine.  One State holds the dispatch goroutine's
  variables, the reader goroutines, the one-slot reqSent buffer and, for every request
  operation, its channel and the program counter of the goroutine that sent it.  An Event is
  one atomic step of one goroutine or of the environment.
 */
module Dispatch {
  import opened Wrappers

  /** The raw JSON text of a request id. */
  datatype Id = Id(text: string)

  type OpId = nat
  type ConnId = nat

  datatype Error = ReadError | ClientReconnected | ClientQuit | Dead | WriteError | ContextDone | ServerError

  /** A response as far as dispatch looks at it: ok tells an accepted subscription from a refused one. */
  datatype Message = Message(id: Id, ok: bool)

  /** Where the goroutine that issued a request stands. */
  datatype Pc =
    | Start                               // in send, offering the op on reqInit
    | Locked(retry: bool)                 // holds the write lock, about to look at writeConn
    | Dialed(retry: bool, codec: ConnId)  // in reconnect, offering the new codec to dispatch
    | Writing(retry: bool, ok: bool)      // inside writeJSON; ok is what writeJSON will report
    | Finishing(err: Option<Error>)       // about to put err into reqSent
    | Waiting                             // in requestOp.wait
    | TimingOut                           // ctx is done, offering the op on reqTimeout
    | TimedOut                            // wait returned ctx.Err()
    | Returned(err: Option<Error>)

  /** A requestOp: resp is the pair (buf, closed) with capacity |ids|, or 0 for a subscription. */
  datatype Op = Op(
    ids: seq<Id>, sub: bool, pc: Pc, sent: Option<Option<Error>>,
    buf: seq<Message>, got: seq<Message>, closed: bool, err: Option<Error>)

  datatype Phase = Running | Draining(next: ConnId) | ExitDraining | Exited

  datatype Reader = Reading | Failed

  /** What Go does at run time when a channel or pointer is misused. */
  datatype Fault = NoFault | CloseOfClosed | SendOnClosed | SendBlocks | NilOp

  datatype State = State(
    ops: map<OpId, Op>,
    respWait: map<Id, OpId>,
    lastOp: Option<OpId>,
    locked: bool,
    reqSent: seq<Option<Error>>,
    phase: Phase,
    reading: bool,
    conn: ConnId,
    readers: map<ConnId, Reader>,
    closedConns: set<ConnId>,
    dialed: nat,
    writeConn: Option<ConnId>,
    stranded: set<OpId>,   // history: ops that a read error overtook, see ReadErr
    fault: Fault)

  const INIT := State(map[], map[], None, false, [], Running, true, 0, map[0 := Reading], {}, 1, Some(0), {}, NoFault)

  datatype Event =
    // callers
    | Call(op: OpId, ids: seq<Id>, sub: bool)
    | GiveUp(op: OpId, err: Error)
    | DialFails(op: OpId)
    | DialOk(op: OpId)
    | ReconnectRefused(op: OpId)
    | WriteStart(op: OpId, ok: bool)
    | WriteEnd(op: OpId)
    | SendDone(op: OpId)
    | Receive(op: OpId)
    | ReceiveClosed(op: OpId)
    | Complete(op: OpId)
    | TimeOut(op: OpId)
    | TimeOutClosing(op: OpId)
    // readers
    | ReadFails(conn: ConnId)
    // dispatch
    | ReqInit(op: OpId)
    | Reconnect(op: OpId)
    | ReqSentTaken
    | TimeOutTaken(op: OpId)
    | Answer(conn: ConnId, msg: Message)
    | ReadErr(conn: ConnId)
    | DrainErr(conn: ConnId)
    | Close

  // ---- what the handler does to its tables ----

  function AddIds(w: map<Id, OpId>, ids: seq<Id>, o: OpId): map<Id, OpId> {
    if ids == [] then w else AddIds(w, ids[..|ids| - 1], o)[ids[|ids| - 1] := o]
  }

  function RemoveIds(w: map<Id, OpId>, ids: seq<Id>): map<Id, OpId> {
    if ids == [] then w else RemoveIds(w, ids[..|ids| - 1]) - {ids[|ids| - 1]}
  }

  function Victims(w: map<Id, OpId>, inflight: Option<OpId>): set<OpId> {
    set o | o in w.Values && Some(o) != inflight
  }

  function CloseOps(ops: map<OpId, Op>, victims: set<OpId>, err: Error): (closed: map<OpId, Op>)
    ensures closed.Keys == ops.Keys
  {
    map o | o in ops :: if o in victims then ops[o].(closed := true, err := Some(err)) else ops[o]
  }

  predicate AnyClosed(ops: map<OpId, Op>, victims: set<OpId>) {
    exists o :: o in victims && o in ops && ops[o].closed
  }

  /** cancelAllRequests: every registered op but the one in flight has its channel closed. */
  function CancelAll(s: State, err: Error, inflight: Option<OpId>): (t: State)
    ensures t.ops.Keys == s.ops.Keys
  {
    var victims := Victims(s.respWait, inflight);
    s.(respWait := map[], ops := CloseOps(s.ops, victims, err),
       fault := if AnyClosed(s.ops, victims) then CloseOfClosed else s.fault)
  }

  /** handleResponse: forward to the channel, or settle a subscription and close the channel. */
  function HandleResponse(s: State, msg: Message): (t: State)
    ensures t.ops.Keys == s.ops.Keys && t == s.(ops := t.ops, respWait := t.respWait, fault := t.fault)
  {
    if msg.id !in s.respWait || s.respWait[msg.id] !in s.ops then s else
    var o := s.respWait[msg.id];
    var op := s.ops[o];
    var t := s.(respWait := s.respWait - {msg.id});
    if op.sub then
      if op.closed then t.(fault := CloseOfClosed)
      else t.(ops := t.ops[o := op.(closed := true, err := if msg.ok then None else Some(ServerError))])
    else if op.closed then t.(fault := SendOnClosed)
    else if |op.buf| >= |op.ids| then t.(fault := SendBlocks)
    else t.(ops := t.ops[o := op.(buf := op.buf + [msg])])
  }

  function AddLast(s: State): (t: State)
    ensures t == s.(respWait := t.respWait, fault := t.fault)
  {
    if s.lastOp.None? || s.lastOp.value !in s.ops then s.(fault := NilOp)
    else s.(respWait := AddIds(s.respWait, s.ops[s.lastOp.value].ids, s.lastOp.value))
  }

  function RemoveLast(s: State): (t: State)
    ensures t == s.(respWait := t.respWait, fault := t.fault)
  {
    if s.lastOp.None? || s.lastOp.value !in s.ops then s.(fault := NilOp)
    else s.(respWait := RemoveIds(s.respWait, s.ops[s.lastOp.value].ids))
  }

  /** The new connection replaces the old one: fresh handler, fresh reader, in-flight op registered again. */
  function Install(s: State, codec: ConnId): State {
    AddLast(s.(readers := s.readers[codec := Reading], reading := true, conn := codec, respWait := map[], phase := Running))
  }

  // ---- steps ----

  function SetPc(s: State, o: OpId, pc: Pc): State
    requires o in s.ops
  {
    s.(ops := s.ops[o := s.ops[o].(pc := pc)])
  }

  predicate At(s: State, o: OpId) { o in s.ops }

  predicate Enabled(s: State, e: Event) {
    match e
    case Call(o, ids, sub) => o !in s.ops && (sub ==> |ids| == 1)
    case GiveUp(o, err) => At(s, o) && s.ops[o].pc.Start? &&
      (err == ContextDone || (err == ClientQuit && (s.phase.ExitDraining? || s.phase.Exited?)))
    case DialFails(o) => At(s, o) && s.ops[o].pc.Locked? && s.writeConn.None?
    case DialOk(o) => At(s, o) && s.ops[o].pc.Locked? && s.writeConn.None?
    case ReconnectRefused(o) => At(s, o) && s.ops[o].pc.Dialed? && s.phase.Exited?
    case WriteStart(o, ok) => At(s, o) && s.ops[o].pc.Locked? && s.writeConn.Some?
    case WriteEnd(o) => At(s, o) && s.ops[o].pc.Writing?
    case SendDone(o) => At(s, o) && s.ops[o].pc.Finishing? && |s.reqSent| < 1
    case Receive(o) => At(s, o) && s.ops[o].pc.Waiting? && s.ops[o].buf != []
    case ReceiveClosed(o) => At(s, o) && s.ops[o].pc.Waiting? && s.ops[o].buf == [] && s.ops[o].closed
    case Complete(o) => At(s, o) && s.ops[o].pc.Waiting? && !s.ops[o].sub && |s.ops[o].got| == |s.ops[o].ids|
    case TimeOut(o) => At(s, o) && s.ops[o].pc.Waiting?
    case TimeOutClosing(o) => At(s, o) && s.ops[o].pc.TimingOut? && (s.phase.ExitDraining? || s.phase.Exited?)
    case ReadFails(c) => c in s.readers && s.readers[c].Reading?
    case ReqInit(o) => At(s, o) && s.ops[o].pc.Start? && s.phase.Running? && !s.locked
    case Reconnect(o) => At(s, o) && s.ops[o].pc.Dialed? && s.phase.Running?
    case ReqSentTaken => s.phase.Running? && s.reqSent != []
    case TimeOutTaken(o) => At(s, o) && s.ops[o].pc.TimingOut? && s.phase.Running?
    case Answer(c, _) => s.phase.Running? && c in s.readers && s.readers[c].Reading?
    case ReadErr(c) => s.phase.Running? && c in s.readers && s.readers[c].Failed?
    case DrainErr(c) => (s.phase.Draining? || s.phase.ExitDraining?) && c in s.readers && s.readers[c].Failed?
    case Close => s.phase.Running?
  }

  /** Steps of send, write and reconnect. */
  predicate SendEvent(e: Event) {
    e.GiveUp? || e.DialFails? || e.DialOk? || e.ReconnectRefused? || e.WriteStart? || e.WriteEnd?
  }

  /** Steps of the report and of wait. */
  predicate WaitEvent(e: Event) {
    e.SendDone? || e.Receive? || e.ReceiveClosed? || e.Complete? || e.TimeOut? || e.TimeOutClosing?
  }

  predicate CallerEvent(e: Event) {
    SendEvent(e) || WaitEvent(e)
  }

  /** Nothing but op o's own record, the caller's side of the connection and the reports has changed. */
  predicate OnlyCaller(s: State, t: State, o: OpId) {
    && o in s.ops && o in t.ops && t.ops == s.ops[o := t.ops[o]]
    && t == s.(ops := t.ops, writeConn := t.writeConn, dialed := t.dialed, closedConns := t.closedConns, reqSent := t.reqSent)
  }

  /** The op's goroutine is between `reqInit <- op` and `reqSent <- err`. */
  predicate Holds(op: Op) {
    op.pc.Locked? || op.pc.Dialed? || op.pc.Writing? || op.pc.Finishing?
  }

  function Apply(s: State, e: Event): (t: State)
    requires Enabled(s, e)
    ensures CallerEvent(e) ==> OnlyCaller(s, t, e.op)
    ensures !e.Call? ==> t.ops.Keys == s.ops.Keys
  {
    if SendEvent(e) then ApplySend(s, e)
    else if WaitEvent(e) then ApplyWait(s, e)
    else ApplyRest(s, e)
  }

  function ApplySend(s: State, e: Event): (t: State)
    requires Enabled(s, e) && SendEvent(e)
    ensures OnlyCaller(s, t, e.op) && t.reqSent == s.reqSent
    ensures t.ops[e.op] == s.ops[e.op].(pc := t.ops[e.op].pc) && !t.ops[e.op].pc.Start?
    ensures Holds(t.ops[e.op]) <==> Holds(s.ops[e.op])
  {
    match e
    case GiveUp(o, err) => SetPc(s, o, Returned(Some(err)))
    case DialFails(o) => SetPc(s, o, Finishing(Some(Dead)))
    case DialOk(o) => SetPc(s, o, Dialed(s.ops[o].pc.retry, s.dialed)).(dialed := s.dialed + 1)
    case ReconnectRefused(o) =>
      SetPc(s, o, Finishing(Some(ClientQuit))).(closedConns := s.closedConns + {s.ops[o].pc.codec})
    case WriteStart(o, ok) => SetPc(s, o, Writing(s.ops[o].pc.retry, ok))
    case WriteEnd(o) =>
      var pc := s.ops[o].pc;
      if pc.ok then SetPc(s, o, Finishing(None))
      else SetPc(s, o, if pc.retry then Finishing(Some(WriteError)) else Locked(true)).(writeConn := None)
  }

  function ApplyWait(s: State, e: Event): (t: State)
    requires Enabled(s, e) && WaitEvent(e)
    ensures OnlyCaller(s, t, e.op)
  {
    match e
    case SendDone(o) =>
      var err := s.ops[o].pc.err;
      s.(reqSent := s.reqSent + [err],
         ops := s.ops[o := s.ops[o].(sent := Some(err), pc := if err.None? then Waiting else Returned(err))])
    case Receive(o) =>
      var op := s.ops[o];
      s.(ops := s.ops[o := op.(buf := op.buf[1..], got := op.got + [op.buf[0]],
                               pc := if op.err.Some? then Returned(op.err) else Waiting)])
    case ReceiveClosed(o) => SetPc(s, o, Returned(s.ops[o].err))
    case Complete(o) => SetPc(s, o, Returned(None))
    case TimeOut(o) => SetPc(s, o, TimingOut)
    case TimeOutClosing(o) => SetPc(s, o, TimedOut)
  }

  /** A new call, a reader's failure and the steps of dispatch. */
  function ApplyRest(s: State, e: Event): (t: State)
    requires Enabled(s, e) && !CallerEvent(e)
    ensures !e.Call? ==> t.ops.Keys == s.ops.Keys
  {
    match e
    case Call(o, ids, sub) => s.(ops := s.ops[o := Op(ids, sub, Start, None, [], [], false, None)])
    case ReadFails(c) => s.(readers := s.readers[c := Failed])
    case ReqInit(o) => AddLast(SetPc(s, o, Locked(false)).(locked := true, lastOp := Some(o)))
    case Reconnect(o) =>
      var c := s.ops[o].pc.codec;
      var t := SetPc(s, o, Locked(s.ops[o].pc.retry)).(writeConn := Some(c));
      if s.reading then
        CancelAll(t, ClientReconnected, t.lastOp).(closedConns := t.closedConns + {t.conn}, phase := Draining(c))
      else Install(t, c)
    case ReqSentTaken =>
      (if s.reqSent[0].Some? then RemoveLast(s) else s).(locked := false, lastOp := None, reqSent := s.reqSent[1..])
    case TimeOutTaken(o) => SetPc(s, o, TimedOut).(respWait := RemoveIds(s.respWait, s.ops[o].ids))
    case Answer(_, msg) => HandleResponse(s, msg)
    case ReadErr(c) =>
      CancelAll(s, ReadError, s.lastOp).(closedConns := s.closedConns + {s.conn}, reading := false,
                                         readers := s.readers - {c}, stranded := s.stranded + Overtaken(s))
    case DrainErr(c) =>
      if s.phase.Draining? then Install(s.(readers := s.readers - {c}), s.phase.next)
      else s.(readers := s.readers - {c}, phase := Exited)
    case Close =>
      if s.reading then CancelAll(s, ClientQuit, None).(closedConns := s.closedConns + {s.conn}, phase := ExitDraining)
      else s.(phase := Exited)
  }

  /** The write of this op has succeeded or is going to. */
  predicate Committed(op: Op) {
    (op.pc.Writing? && op.pc.ok) || op.pc == Finishing(None) || op.sent == Some(None)
  }

  predicate Registered(s: State, id: Id, o: OpId) {
    id in s.respWait && s.respWait[id] == o
  }

  /** The op in flight, when its write succeeds although a read error is being consumed. */
  function Overtaken(s: State): set<OpId> {
    if s.lastOp.Some? && s.lastOp.value in s.ops && Committed(s.ops[s.lastOp.value]) && s.lastOp.value in s.respWait.Values
    then {s.lastOp.value} else {}
  }

  /** All different, and used by no op so far. */
  predicate FreshIds(s: State, ids: seq<Id>) {
    (forall i, j :: 0 <= i < j < |ids| ==> ids[i] != ids[j]) &&
    (forall p | p in s.ops :: forall i | 0 <= i < |ids| :: ids[i] !in s.ops[p].ids)
  }

  /**
    What is assumed of the surroundings: request ids are not reused, a write on a closed codec
    fails, and a request whose write is reported failed was never answered.
   */
  predicate Honest(s: State, e: Event) {
    match e
    case Call(_, ids, _) => FreshIds(s, ids)
    case WriteStart(o, ok) => ok && s.writeConn.Some? ==> s.writeConn.value !in s.closedConns
    case Answer(_, msg) =>
      msg.id in s.respWait && s.respWait[msg.id] in s.ops ==> Committed(s.ops[s.respWait[msg.id]])
    case _ => true
  }

  function Run(s: State, es: seq<Event>): State
    requires Possible(s, es)
    decreases |es|
  {
    if es == [] then s else Run(Apply(s, es[0]), es[1..])
  }

  predicate Possible(s: State, es: seq<Event>)
    decreases |es|
  {
    es == [] || (Enabled(s, es[0]) && Possible(Apply(s, es[0]), es[1..]))
  }

  predicate HonestRun(s: State, es: seq<Event>)
    requires Possible(s, es)
    decreases |es|
  {
    es == [] || (Honest(s, es[0]) && HonestRun(Apply(s, es[0]), es[1..]))
  }
}
