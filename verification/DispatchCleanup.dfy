/** What calls and connections leave behind. */
module DispatchCleanup {
  import opened Wrappers
  import opened Dispatch
  import opened DispatchInvariant
  import opened DispatchLock

  /** While dispatch runs its select takes whatever is ready: nobody is kept waiting by anything but the write lock. */
  lemma SelectTakesAnyReadyCase(s: State, o: OpId, c: ConnId, msg: Message)
    requires s.phase.Running?
    ensures Enabled(s, Close) && (s.reqSent != [] ==> Enabled(s, ReqSentTaken))
    ensures o in s.ops && s.ops[o].pc.Start? && !s.locked ==> Enabled(s, ReqInit(o))
    ensures o in s.ops && s.ops[o].pc.Dialed? ==> Enabled(s, Reconnect(o))
    ensures o in s.ops && s.ops[o].pc.TimingOut? ==> Enabled(s, TimeOutTaken(o))
    ensures c in s.readers ==> if s.readers[c].Reading? then Enabled(s, Answer(c, msg)) else Enabled(s, ReadErr(c))
  {
  }

  // ---- timed-out calls ----

  /** Nothing is registered for an op whose timeout dispatch has taken, nor going to be. */
  ghost predicate TimedInv(s: State, o: OpId)
    requires o in s.ops
  {
    s.ops[o].pc.TimedOut? && (s.phase.Running? || s.phase.Draining?) ==>
      o !in s.respWait.Values && (s.lastOp == Some(o) ==> s.phase.Running?)
  }

  lemma TimedCaller(s: State, e: Event, o: OpId)
    requires Enabled(s, e) && CallerEvent(e) && o in s.ops && TimedInv(s, o)
    ensures TimedInv(Apply(s, e), o)
  {
    if SendEvent(e) {
      NotTimedOut(s, e);
    }
  }

  lemma NotTimedOut(s: State, e: Event)
    requires Enabled(s, e) && SendEvent(e)
    ensures !Apply(s, e).ops[e.op].pc.TimedOut?
  {
    match e
    case GiveUp(_, _) =>
    case DialFails(_) =>
    case DialOk(_) =>
    case ReconnectRefused(_) =>
    case WriteStart(_, _) =>
    case WriteEnd(_) =>
  }

  lemma TimeOutForgets(s: State, o: OpId)
    requires Inv(s) && Enabled(s, TimeOutTaken(o))
    ensures o !in Apply(s, TimeOutTaken(o)).respWait.Values
  {
    RemoveIdsAt(s.respWait, s.ops[o].ids);
    forall id | id in s.respWait && s.respWait[id] == o ensures id in s.ops[o].ids {
      assert WaitInv(s, id);
    }
  }

  lemma TimedDispatch(s: State, e: Event, o: OpId)
    requires Inv(s) && LockInv(s) && Enabled(s, e) && !CallerEvent(e) && o in s.ops && TimedInv(s, o)
    ensures o in Apply(s, e).ops && TimedInv(Apply(s, e), o)
  {
    match e
    case Call(_, _, _) =>
    case ReadFails(_) =>
    case ReqInit(p) => AddIdsAt(s.respWait, s.ops[p].ids, p);
    case Reconnect(p) => TimedReconnect(s, p, o);
    case ReqSentTaken => RemoveIdsAt(s.respWait, s.ops[s.lastOp.value].ids);
    case TimeOutTaken(p) => RemoveIdsAt(s.respWait, s.ops[p].ids); TimeOutForgets(s, p);
    case Answer(_, _) =>
    case ReadErr(_) =>
    case DrainErr(_) => TimedDrain(s, e, o);
    case Close =>
  }

  lemma TimedReconnect(s: State, p: OpId, o: OpId)
    requires LockInv(s) && Enabled(s, Reconnect(p)) && o in s.ops && TimedInv(s, o)
    ensures o in Apply(s, Reconnect(p)).ops && TimedInv(Apply(s, Reconnect(p)), o)
  {
    assert Holds(s.ops[p]);
    AddIdsAt(map[], s.ops[p].ids, p);
  }

  lemma TimedDrain(s: State, e: Event, o: OpId)
    requires LockInv(s) && Enabled(s, e) && e.DrainErr? && o in s.ops && TimedInv(s, o)
    ensures o in Apply(s, e).ops && TimedInv(Apply(s, e), o)
  {
    if s.lastOp.Some? {
      AddIdsAt(map[], s.ops[s.lastOp.value].ids, s.lastOp.value);
    }
  }

  lemma {:induction false} TimedRun(s: State, es: seq<Event>, o: OpId)
    requires Inv(s) && LockInv(s) && Possible(s, es) && HonestRun(s, es) && o in Run(s, es).ops
    requires o in s.ops ==> TimedInv(s, o)
    ensures TimedInv(Run(s, es), o)
    decreases |es|
  {
    if es != [] {
      var t := Apply(s, es[0]);
      StepKeepsInv(s, es[0]);
      if CallerEvent(es[0]) { CallerKeepsLock(s, es[0], t); } else { DispatchKeepsLock(s, es[0], t); }
      if o in s.ops {
        if CallerEvent(es[0]) { TimedCaller(s, es[0], o); } else { TimedDispatch(s, es[0], o); }
      } else if o in t.ops {
        NewOpStarts(s, es[0], o);
      }
      TimedRun(t, es[1..], o);
    }
  }

  /** A call that timed out while dispatch runs has left no id in respWait, and never gets one back. */
  lemma TimedOutLeavesNothing(es: seq<Event>, o: OpId)
    requires Possible(INIT, es) && HonestRun(INIT, es) && o in Run(INIT, es).ops
    ensures var s := Run(INIT, es);
            s.ops[o].pc.TimedOut? && (s.phase.Running? || s.phase.Draining?) ==> o !in s.respWait.Values
  {
    TimedRun(INIT, es, o);
  }

  // ---- connections ----

  ghost predicate DialedBy(s: State, o: OpId, c: ConnId) {
    o in s.ops && s.ops[o].pc.Dialed? && s.ops[o].pc.codec == c
  }

  /** Where a dialled codec can be: closed, in use, about to be, or in the hands of the op that dialled it. */
  ghost predicate Accounted(s: State, c: ConnId) {
    || c in s.closedConns || c == s.conn || (s.phase.Draining? && c == s.phase.next)
    || exists o :: DialedBy(s, o, c)
  }

  ghost predicate CodecInv(s: State) {
    && ReadOrClosed(s)
    && forall c: ConnId | c < s.dialed :: Accounted(s, c)
  }

  lemma SendAccounts(s: State, e: Event, c: ConnId)
    requires Enabled(s, e) && SendEvent(e) && (c < s.dialed ==> Accounted(s, c)) && c < Apply(s, e).dialed
    ensures Accounted(Apply(s, e), c)
  {
    var t := Apply(s, e);
    if c == s.dialed {
      assert DialedBy(t, e.op, c);
    } else if o :| DialedBy(s, o, c) {
      assert o != e.op ==> DialedBy(t, o, c);
    }
  }

  lemma WaitAccounts(s: State, e: Event, c: ConnId)
    requires Enabled(s, e) && WaitEvent(e) && Accounted(s, c)
    ensures Accounted(Apply(s, e), c)
  {
    if o :| DialedBy(s, o, c) {
      assert DialedBy(Apply(s, e), o, c);
    }
  }

  lemma ReconnectAccounts(s: State, p: OpId, c: ConnId)
    requires Enabled(s, Reconnect(p)) && Accounted(s, c) && (!s.reading ==> s.conn in s.closedConns)
    ensures Accounted(Apply(s, Reconnect(p)), c)
  {
    if o :| DialedBy(s, o, c) {
      assert o != p ==> DialedBy(Apply(s, Reconnect(p)), o, c);
    }
  }

  lemma RestAccounts(s: State, e: Event, c: ConnId)
    requires Enabled(s, e) && !CallerEvent(e) && CodecInv(s) && Accounted(s, c)
    ensures Accounted(Apply(s, e), c)
  {
    if e.Reconnect? {
      ReconnectAccounts(s, e.op, c);
    } else if o :| DialedBy(s, o, c) {
      StaysDialed(s, e, o, c);
    }
  }

  lemma StaysDialed(s: State, e: Event, o: OpId, c: ConnId)
    requires Enabled(s, e) && !CallerEvent(e) && !e.Reconnect? && DialedBy(s, o, c)
    ensures DialedBy(Apply(s, e), o, c)
  {
    match e
    case Call(_, _, _) =>
    case ReadFails(_) =>
    case ReqInit(_) =>
    case ReqSentTaken =>
    case TimeOutTaken(_) =>
    case Answer(_, _) =>
    case ReadErr(_) =>
    case DrainErr(_) =>
    case Close =>
  }

  lemma CodecStep(s: State, e: Event, t: State)
    requires CodecInv(s) && Enabled(s, e) && t == Apply(s, e)
    ensures CodecInv(t)
  {
    ConnStep(s, e, t);
    if !SendEvent(e) {
      DialledBySendersOnly(s, e);
    }
    forall c: ConnId | c < t.dialed ensures Accounted(t, c) {
      if SendEvent(e) {
        SendAccounts(s, e, c);
      } else if WaitEvent(e) {
        WaitAccounts(s, e, c);
      } else {
        RestAccounts(s, e, c);
      }
    }
  }

  lemma DialledBySendersOnly(s: State, e: Event)
    requires Enabled(s, e) && !SendEvent(e)
    ensures Apply(s, e).dialed == s.dialed
  {
  }

  /** Only a connection that is being read is open. */
  predicate ReadOrClosed(s: State) {
    (s.phase.Running? && s.reading) || s.conn in s.closedConns
  }

  lemma ConnStep(s: State, e: Event, t: State)
    requires ReadOrClosed(s) && Enabled(s, e) && t == Apply(s, e)
    ensures ReadOrClosed(t)
  {
    if e.Reconnect? || e.DrainErr? {
      ConnReplaced(s, e);
    } else if e.ReadErr? || e.Close? {
      ConnClosed(s, e);
    } else if !CallerEvent(e) {
      ConnUntouched(s, e);
    }
  }

  lemma ConnReplaced(s: State, e: Event)
    requires ReadOrClosed(s) && Enabled(s, e) && (e.Reconnect? || e.DrainErr?)
    ensures ReadOrClosed(Apply(s, e))
  {
  }

  lemma ConnClosed(s: State, e: Event)
    requires ReadOrClosed(s) && Enabled(s, e) && (e.ReadErr? || e.Close?)
    ensures ReadOrClosed(Apply(s, e))
  {
  }

  lemma ConnUntouched(s: State, e: Event)
    requires Enabled(s, e) && (e.Call? || e.ReadFails? || e.ReqInit? || e.ReqSentTaken? || e.TimeOutTaken? || e.Answer?)
    ensures var t := Apply(s, e);
            t.phase == s.phase && t.reading == s.reading && t.conn == s.conn && t.closedConns == s.closedConns
  {
  }

  lemma {:induction false} RunKeepsCodecs(s: State, es: seq<Event>)
    requires CodecInv(s) && Possible(s, es)
    ensures CodecInv(Run(s, es))
    decreases |es|
  {
    if es != [] {
      CodecStep(s, es[0], Apply(s, es[0]));
      RunKeepsCodecs(Apply(s, es[0]), es[1..]);
    }
  }

  /**
    No connection leaks: in any run, once dispatch has exited, every codec ever dialled has been
    closed, but for one that an op still in reconnect holds; and that one is closed by its next step.
   */
  lemma EveryCodecIsClosed(es: seq<Event>, c: ConnId)
    requires Possible(INIT, es) && Run(INIT, es).phase.Exited? && c < Run(INIT, es).dialed
    ensures var s := Run(INIT, es);
            c in s.closedConns ||
            exists o :: DialedBy(s, o, c) && Enabled(s, ReconnectRefused(o)) && c in Apply(s, ReconnectRefused(o)).closedConns
  {
    RunKeepsCodecs(INIT, es);
    var s := Run(INIT, es);
    assert Accounted(s, c);
    if o :| DialedBy(s, o, c) {
      assert Enabled(s, ReconnectRefused(o)) && c in Apply(s, ReconnectRefused(o)).closedConns;
    }
  }

  // ---- retries ----

  /** The op's retry is being written, or is about to be. */
  predicate Retrying(s: State, o: OpId) {
    o in s.ops && ((s.ops[o].pc.Writing? && s.ops[o].pc.retry) || (s.ops[o].pc == Locked(true) && s.writeConn.Some?))
  }

  /** After its first write failed, o dialled a connection that dispatch took. */
  predicate Redialled(s: State, es: seq<Event>, o: OpId)
    requires Possible(s, es)
    decreases |es|
  {
    es != [] &&
    ((es[0] == Reconnect(o) && s.ops[o].pc.retry) || Redialled(Apply(s, es[0]), es[1..], o))
  }

  lemma SendRetries(s: State, e: Event, o: OpId)
    requires Enabled(s, e) && SendEvent(e) && Retrying(Apply(s, e), o)
    ensures Retrying(s, o)
  {
    match e
    case GiveUp(_, _) =>
    case DialFails(_) =>
    case DialOk(_) =>
    case ReconnectRefused(_) =>
    case WriteStart(_, _) =>
    case WriteEnd(_) =>
  }

  lemma RestRetries(s: State, e: Event, o: OpId)
    requires LockInv(s) && Enabled(s, e) && !CallerEvent(e) && Retrying(Apply(s, e), o)
    ensures Retrying(s, o) || (e == Reconnect(o) && s.ops[o].pc.retry)
  {
    match e
    case Call(_, _, _) =>
    case ReadFails(_) =>
    case ReqInit(_) =>
    case Reconnect(p) => ReconnectRetries(s, p, o);
    case ReqSentTaken =>
    case TimeOutTaken(_) =>
    case Answer(_, _) =>
    case ReadErr(_) =>
    case DrainErr(_) =>
    case Close =>
  }

  lemma ReconnectRetries(s: State, p: OpId, o: OpId)
    requires LockInv(s) && Enabled(s, Reconnect(p)) && Retrying(Apply(s, Reconnect(p)), o)
    ensures Retrying(s, o) || (p == o && s.ops[o].pc.retry)
  {
    assert Holds(s.ops[p]) && s.lastOp == Some(p);
  }

  lemma {:induction false} RetryRun(s: State, es: seq<Event>, o: OpId)
    requires LockInv(s) && Possible(s, es) && Retrying(Run(s, es), o)
    ensures Retrying(s, o) || Redialled(s, es, o)
    decreases |es|
  {
    if es != [] {
      var t := Apply(s, es[0]);
      if CallerEvent(es[0]) { CallerKeepsLock(s, es[0], t); } else { DispatchKeepsLock(s, es[0], t); }
      RetryRun(t, es[1..], o);
      if Retrying(t, o) {
        if SendEvent(es[0]) {
          SendRetries(s, es[0], o);
        } else if !WaitEvent(es[0]) {
          RestRetries(s, es[0], o);
        }
      }
    }
  }

  /** In any run a retry is written to a connection dialled for it, never to the one that failed. */
  lemma RetryUsesNewConnection(es: seq<Event>, o: OpId)
    requires Possible(INIT, es) && o in Run(INIT, es).ops
    requires Run(INIT, es).ops[o].pc.Writing? && Run(INIT, es).ops[o].pc.retry
    ensures Redialled(INIT, es, o)
  {
    RetryRun(INIT, es, o);
  }
}
