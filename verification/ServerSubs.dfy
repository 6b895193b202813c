/** The server side of a connection: call goroutines, their notifiers and the table of subscriptions. */
module ServerSubs {
  import opened Wrappers

  type CallId = nat
  type NotifierId = nat

  /** A subscription id as idgen makes it. */
  datatype SubId = SubId(text: string)

  datatype Error = ReadError | ClientReconnected | ClientQuit

  /** A call goroutine: running handlers, past addSubscriptions, or done with callWG. */
  datatype Stage = Handling | Added | Finished

  datatype Notifier = Notifier(call: CallId, sub: Option<SubId>, callReturned: bool)

  /** A Subscription's err channel of capacity 1. */
  datatype Sub = Sub(sent: seq<Error>, closed: bool)

  datatype Phase = Open | Closing | Cancelled

  datatype Fault = NoFault | CloseOfClosed | SendOnClosed | SendBlocks

  datatype State = State(
    phase: Phase,
    calls: map<CallId, Stage>,
    notifiers: map<NotifierId, Notifier>,
    subs: map<SubId, Sub>,      // every subscription ever created
    serverSubs: set<SubId>,     // the keys of handler.serverSubs
    fault: Fault)

  const INIT := State(Open, map[], map[], map[], {}, NoFault)

  datatype Event =
    | StartCall(c: CallId)
    | HandleSubscribe(c: CallId, n: NotifierId)
    | Create(n: NotifierId, id: SubId)
    | AddSubscriptions(c: CallId)
    | Unsubscribe(c: CallId, id: SubId)
    | EndCall(c: CallId)
    | BeginClose
    | CancelAll(err: Error)

  function Active(s: State): set<CallId> {
    set c | c in s.calls && !s.calls[c].Finished?
  }

  predicate Enabled(s: State, e: Event) {
    match e
    case StartCall(c) => s.phase.Open? && c !in s.calls
    case HandleSubscribe(c, n) => c in s.calls && s.calls[c].Handling? && n !in s.notifiers
    case Create(n, id) => n in s.notifiers && s.notifiers[n].sub.None? && !s.notifiers[n].callReturned
    case AddSubscriptions(c) => c in s.calls && s.calls[c].Handling?
    case Unsubscribe(c, id) => c in s.calls && s.calls[c].Handling?
    case EndCall(c) => c in s.calls && s.calls[c].Added?
    case BeginClose => s.phase.Open?
    case CancelAll(_) => s.phase.Closing? && Active(s) == {}   // callWG.Wait has returned
  }

  /** The subscriptions that takeSubscription yields for the notifiers of call c. */
  function Taken(notifiers: map<NotifierId, Notifier>, c: CallId): set<SubId> {
    set n | n in notifiers && notifiers[n].call == c && notifiers[n].sub.Some? :: notifiers[n].sub.value
  }

  function MarkReturned(notifiers: map<NotifierId, Notifier>, c: CallId): map<NotifierId, Notifier> {
    map n | n in notifiers :: if notifiers[n].call == c then notifiers[n].(callReturned := true) else notifiers[n]
  }

  function CloseSub(sub: Sub): Sub {
    sub.(closed := true)
  }

  /** What closing (after sending err, if any) does to a channel that is not in order. */
  function FaultOf(sub: Sub, sends: bool, was: Fault): Fault {
    if sub.closed then (if sends then SendOnClosed else CloseOfClosed)
    else if sends && sub.sent != [] then SendBlocks
    else was
  }

  function EndAll(subs: map<SubId, Sub>, ending: set<SubId>, err: Error): map<SubId, Sub> {
    map id | id in subs :: if id in ending then Sub(subs[id].sent + [err], true) else subs[id]
  }

  function AllFaults(subs: map<SubId, Sub>, ending: set<SubId>, was: Fault): Fault {
    if exists id :: id in ending && id in subs && (subs[id].closed || subs[id].sent != []) then SendOnClosed else was
  }

  function Apply(s: State, e: Event): State
    requires Enabled(s, e)
  {
    match e
    case StartCall(c) => s.(calls := s.calls[c := Handling])
    case HandleSubscribe(c, n) => s.(notifiers := s.notifiers[n := Notifier(c, None, false)])
    case Create(n, id) =>
      s.(notifiers := s.notifiers[n := s.notifiers[n].(sub := Some(id))], subs := s.subs[id := Sub([], false)])
    case AddSubscriptions(c) =>
      s.(calls := s.calls[c := Added], notifiers := MarkReturned(s.notifiers, c),
         serverSubs := s.serverSubs + Taken(s.notifiers, c))
    case Unsubscribe(c, id) =>
      if id in s.serverSubs && id in s.subs then
        s.(subs := s.subs[id := CloseSub(s.subs[id])], serverSubs := s.serverSubs - {id},
           fault := FaultOf(s.subs[id], false, s.fault))
      else s
    case EndCall(c) => s.(calls := s.calls[c := Finished])
    case BeginClose => s.(phase := Closing)
    case CancelAll(err) =>
      s.(phase := Cancelled, subs := EndAll(s.subs, s.serverSubs, err), serverSubs := {},
         fault := AllFaults(s.subs, s.serverSubs, s.fault))
  }

  /** idgen never repeats an id. */
  predicate Honest(s: State, e: Event) {
    e.Create? ==> e.id !in s.subs
  }

  predicate Possible(s: State, es: seq<Event>)
    decreases |es|
  {
    es == [] || (Enabled(s, es[0]) && Honest(s, es[0]) && Possible(Apply(s, es[0]), es[1..]))
  }

  function Run(s: State, es: seq<Event>): State
    requires Possible(s, es)
    decreases |es|
  {
    if es == [] then s else Run(Apply(s, es[0]), es[1..])
  }

  // ---- the invariant ----

  ghost predicate NotifierInv(s: State, n: NotifierId)
    requires n in s.notifiers
  {
    var nt := s.notifiers[n];
    && nt.call in s.calls
    && (nt.callReturned <==> !s.calls[nt.call].Handling?)
    && (nt.sub.Some? ==>
          && nt.sub.value in s.subs
          && (!nt.callReturned ==> nt.sub.value !in s.serverSubs && s.subs[nt.sub.value] == Sub([], false))
          && (nt.callReturned ==> (nt.sub.value in s.serverSubs <==> !s.subs[nt.sub.value].closed)))
  }

  ghost predicate Owns(s: State, n: NotifierId, id: SubId) {
    n in s.notifiers && s.notifiers[n].sub == Some(id)
  }

  ghost predicate Inv(s: State) {
    && s.fault.NoFault?
    && (forall n {:trigger NotifierInv(s, n)} | n in s.notifiers :: NotifierInv(s, n))
    && (forall n, m, id :: Owns(s, n, id) && Owns(s, m, id) ==> n == m)
    && (forall id :: id in s.subs ==> exists n :: Owns(s, n, id))
    && (forall id :: id in s.serverSubs ==> id in s.subs && s.subs[id] == Sub([], false))
    && (forall id :: id in s.subs ==> |s.subs[id].sent| <= 1 && (s.subs[id].sent != [] ==> s.subs[id].closed && s.phase.Cancelled?))
    && (s.phase.Cancelled? ==> s.serverSubs == {} && Active(s) == {})
  }

  lemma CreateKeepsInv(s: State, e: Event)
    requires Inv(s) && Enabled(s, e) && Honest(s, e) && e.Create?
    ensures Inv(Apply(s, e))
  {
    var t := Apply(s, e);
    assert NotifierInv(s, e.n);
    forall n | n in t.notifiers ensures NotifierInv(t, n) {
      assert NotifierInv(s, n);
    }
    forall n, id | Owns(t, n, id) && n != e.n ensures Owns(s, n, id) && id != e.id {
      assert NotifierInv(s, n);
    }
    forall n, m, id | Owns(t, n, id) && Owns(t, m, id) ensures n == m {
      assert n != e.n && m != e.n ==> Owns(s, n, id) && Owns(s, m, id);
    }
    forall id | id in t.subs ensures exists n :: Owns(t, n, id) {
      if id == e.id {
        assert Owns(t, e.n, id);
      } else {
        var n :| Owns(s, n, id);
        assert Owns(t, n, id);
      }
    }
  }

  lemma AddKeepsInv(s: State, e: Event)
    requires Inv(s) && Enabled(s, e) && e.AddSubscriptions?
    ensures Inv(Apply(s, e))
  {
    var t := Apply(s, e);
    assert s.phase.Cancelled? ==> e.c in Active(s);
    forall n, id ensures Owns(t, n, id) <==> Owns(s, n, id) {
    }
    forall n | n in t.notifiers ensures NotifierInv(t, n) {
      AddNotifier(s, e, n);
    }
    forall id | id in t.serverSubs ensures id in s.subs && s.subs[id] == Sub([], false) {
      if id !in s.serverSubs {
        var n :| n in s.notifiers && s.notifiers[n].call == e.c && s.notifiers[n].sub == Some(id);
        assert NotifierInv(s, n);
      }
    }
    forall id | id in t.subs ensures exists n :: Owns(t, n, id) {
      var n :| Owns(s, n, id);
      assert Owns(t, n, id);
    }
  }

  lemma AddNotifier(s: State, e: Event, n: NotifierId)
    requires Inv(s) && Enabled(s, e) && e.AddSubscriptions? && n in s.notifiers
    ensures NotifierInv(Apply(s, e), n)
  {
    assert NotifierInv(s, n);
    var t := Apply(s, e);
    if s.notifiers[n].sub.Some? {
      var id := s.notifiers[n].sub.value;
      if id in t.serverSubs && id !in s.serverSubs {
        var m :| m in s.notifiers && s.notifiers[m].call == e.c && s.notifiers[m].sub == Some(id);
        assert Owns(s, m, id) && Owns(s, n, id);
      }
    }
  }

  lemma UnsubscribeKeepsInv(s: State, e: Event)
    requires Inv(s) && Enabled(s, e) && e.Unsubscribe?
    ensures Inv(Apply(s, e))
  {
    var t := Apply(s, e);
    forall n, id ensures Owns(t, n, id) <==> Owns(s, n, id) {
    }
    forall n | n in t.notifiers ensures NotifierInv(t, n) {
      assert NotifierInv(s, n);
    }
  }

  lemma CancelKeepsInv(s: State, e: Event)
    requires Inv(s) && Enabled(s, e) && e.CancelAll?
    ensures Inv(Apply(s, e))
  {
    var t := Apply(s, e);
    forall n, id ensures Owns(t, n, id) <==> Owns(s, n, id) {
    }
    forall n | n in t.notifiers ensures NotifierInv(t, n) {
      assert NotifierInv(s, n);
      assert s.notifiers[n].call !in Active(s);
    }
  }

  lemma CallKeepsInv(s: State, e: Event)
    requires Inv(s) && Enabled(s, e)
    requires e.StartCall? || e.HandleSubscribe? || e.EndCall? || e.BeginClose?
    ensures Inv(Apply(s, e))
  {
    var t := Apply(s, e);
    forall n, id ensures Owns(t, n, id) <==> Owns(s, n, id) {
    }
    forall n | n in t.notifiers ensures NotifierInv(t, n) {
      assert n in s.notifiers ==> NotifierInv(s, n);
    }
    assert s.phase.Cancelled? && e.HandleSubscribe? ==> e.c in Active(s);
    assert s.phase.Cancelled? && e.EndCall? ==> e.c in Active(s);
  }

  lemma StepKeepsInv(s: State, e: Event)
    requires Inv(s) && Enabled(s, e) && Honest(s, e)
    ensures Inv(Apply(s, e))
  {
    match e
    case Create(_, _) => CreateKeepsInv(s, e);
    case AddSubscriptions(_) => AddKeepsInv(s, e);
    case Unsubscribe(_, _) => UnsubscribeKeepsInv(s, e);
    case CancelAll(_) => CancelKeepsInv(s, e);
    case _ => CallKeepsInv(s, e);
  }

  lemma {:induction false} RunKeepsInv(s: State, es: seq<Event>)
    requires Inv(s) && Possible(s, es)
    ensures Inv(Run(s, es))
    decreases |es|
  {
    if es != [] {
      StepKeepsInv(s, es[0]);
      RunKeepsInv(Apply(s, es[0]), es[1..]);
    }
  }

  /** addSubscriptions has seen the notifier that created id. */
  ghost predicate IsRegistered(s: State, id: SubId) {
    exists n :: Owns(s, n, id) && s.notifiers[n].callReturned
  }

  /**
    Over any interleaving of calls, unsubscribe requests and close: no err channel is closed twice,
    sent on when closed or when full; one that got a value was closed by the final cancellation;
    and the table holds exactly the registered subscriptions that are still open.
   */
  lemma EndsAtMostOnce(es: seq<Event>, id: SubId)
    requires Possible(INIT, es) && id in Run(INIT, es).subs
    ensures var s := Run(INIT, es);
            && s.fault.NoFault?
            && |s.subs[id].sent| <= 1
            && (s.subs[id].sent != [] ==> s.subs[id].closed && s.phase.Cancelled?)
            && (id in s.serverSubs <==> !s.subs[id].closed && IsRegistered(s, id))
  {
    RunKeepsInv(INIT, es);
    var s := Run(INIT, es);
    var n :| Owns(s, n, id);
    assert NotifierInv(s, n);
    forall m | Owns(s, m, id) ensures m == n {
    }
  }

  /** When handler.close has returned, every subscription ever created has ended. */
  lemma CloseEndsEverySubscription(es: seq<Event>)
    requires Possible(INIT, es) && Run(INIT, es).phase.Cancelled?
    ensures var s := Run(INIT, es);
            s.serverSubs == {} && forall id :: id in s.subs ==> s.subs[id].closed
  {
    RunKeepsInv(INIT, es);
    var s := Run(INIT, es);
    forall id | id in s.subs ensures s.subs[id].closed {
      var n :| Owns(s, n, id);
      assert NotifierInv(s, n);
      assert s.notifiers[n].call !in Active(s);
    }
  }

  /** ... for good: no step of any goroutine creates, registers or ends one after that. */
  lemma NothingAfterClose(s: State)
    requires Inv(s) && s.phase.Cancelled?
    ensures forall e :: !Enabled(s, e)
  {
    forall c | c in s.calls ensures s.calls[c].Finished? {
      assert c !in Active(s);
    }
    forall n | n in s.notifiers ensures s.notifiers[n].callReturned {
      assert NotifierInv(s, n);
    }
  }

  // ---- the run, seen in the state ----

  predicate Cancels(es: seq<Event>) {
    exists e :: e in es && e.CancelAll?
  }

  ghost predicate Serves(es: seq<Event>, n: NotifierId) {
    exists c :: HandleSubscribe(c, n) in es
  }

  ghost predicate Creates(es: seq<Event>, id: SubId) {
    exists n :: Create(n, id) in es
  }

  lemma {:induction false} PhasesFollowClose(s: State, es: seq<Event>)
    requires Possible(s, es)
    ensures var t := Run(s, es);
            && (t.phase.Open? <==> s.phase.Open? && BeginClose !in es)
            && (t.phase.Cancelled? <==> s.phase.Cancelled? || Cancels(es))
    decreases |es|
  {
    if es != [] {
      PhasesFollowClose(Apply(s, es[0]), es[1..]);
    }
  }

  lemma {:induction false} TableFollowsRun(s: State, es: seq<Event>, c: CallId, n: NotifierId, id: SubId)
    requires Possible(s, es)
    ensures var t := Run(s, es);
            && (c in t.calls <==> c in s.calls || StartCall(c) in es)
            && (n in t.notifiers <==> n in s.notifiers || Serves(es, n))
            && (id in t.subs <==> id in s.subs || Creates(es, id))
    decreases |es|
  {
    if es != [] {
      TableFollowsRun(Apply(s, es[0]), es[1..], c, n, id);
    }
  }

  /** When the last call goroutine has finished, close goes through. */
  lemma CloseCanFinish(s: State, err: Error)
    requires s.phase.Closing? && Active(s) == {}
    ensures Enabled(s, CancelAll(err)) && Apply(s, CancelAll(err)).phase.Cancelled?
  {
  }

  /** A call goroutine always has a next step, and two are enough to finish it. */
  lemma CallCanFinish(s: State, c: CallId)
    requires c in Active(s)
    ensures if s.calls[c].Handling?
            then Enabled(s, AddSubscriptions(c)) && Enabled(Apply(s, AddSubscriptions(c)), EndCall(c)) &&
                 c !in Active(Apply(Apply(s, AddSubscriptions(c)), EndCall(c)))
            else Enabled(s, EndCall(c)) && c !in Active(Apply(s, EndCall(c)))
  {
  }

  // ---- why a subscription ends ----

  /** An unsubscribe request met id in the table. */
  predicate Unsubscribed(s: State, es: seq<Event>, id: SubId)
    requires Possible(s, es)
    decreases |es|
  {
    es != [] &&
    ((es[0].Unsubscribe? && es[0].id == id && id in s.serverSubs) || Unsubscribed(Apply(s, es[0]), es[1..], id))
  }

  /** The final cancellation, with err, met id in the table. */
  predicate CancelledWith(s: State, es: seq<Event>, id: SubId, err: Error)
    requires Possible(s, es)
    decreases |es|
  {
    es != [] && ((es[0] == CancelAll(err) && id in s.serverSubs) || CancelledWith(Apply(s, es[0]), es[1..], id, err))
  }

  predicate EndedQuietly(s: State, id: SubId) {
    id in s.subs && s.subs[id].closed && s.subs[id].sent == []
  }

  predicate EndedWith(s: State, id: SubId, err: Error) {
    id in s.subs && s.subs[id].sent == [err]
  }

  lemma EndStep(s: State, e: Event, id: SubId, err: Error)
    requires Inv(s) && Enabled(s, e) && Honest(s, e)
    ensures EndedQuietly(Apply(s, e), id) <==> EndedQuietly(s, id) || (e.Unsubscribe? && e.id == id && id in s.serverSubs)
    ensures EndedWith(Apply(s, e), id, err) <==> EndedWith(s, id, err) || (e == CancelAll(err) && id in s.serverSubs)
  {
    if e.CancelAll? {
      assert [] + [e.err] == [e.err] && ([e.err] == [err] <==> e.err == err) by { assert [e.err][0] == e.err; }
    }
  }

  lemma {:induction false} EndRun(s: State, es: seq<Event>, id: SubId, err: Error)
    requires Inv(s) && Possible(s, es)
    ensures EndedQuietly(Run(s, es), id) <==> EndedQuietly(s, id) || Unsubscribed(s, es, id)
    ensures EndedWith(Run(s, es), id, err) <==> EndedWith(s, id, err) || CancelledWith(s, es, id, err)
    decreases |es|
  {
    if es != [] {
      EndStep(s, es[0], id, err);
      StepKeepsInv(s, es[0]);
      EndRun(Apply(s, es[0]), es[1..], id, err);
    }
  }

  /**
    A subscription's err channel is closed without a value exactly if an unsubscribe request found it,
    and with an error exactly if the final cancellation came with that error and found it.
   */
  lemma EndsForItsReason(es: seq<Event>, id: SubId, err: Error)
    requires Possible(INIT, es)
    ensures EndedQuietly(Run(INIT, es), id) <==> Unsubscribed(INIT, es, id)
    ensures EndedWith(Run(INIT, es), id, err) <==> CancelledWith(INIT, es, id, err)
  {
    EndRun(INIT, es, id, err);
  }

  // ---- the handler's table as an object ----

  class Table {
    var notifiers: map<NotifierId, Notifier>
    var subs: map<SubId, Sub>
    var serverSubs: set<SubId>
    var fault: Fault

    /** This object's part of a state. */
    ghost predicate Shows(s: State)
      reads this
    {
      notifiers == s.notifiers && subs == s.subs && serverSubs == s.serverSubs && fault == s.fault
    }

    /** addSubscriptions over the notifiers of one call. */
    method AddSubscriptions(nn: seq<NotifierId>, ghost c: CallId, ghost s: State)
      requires Shows(s) && Enabled(s, Event.AddSubscriptions(c))
      requires forall n :: n in nn <==> n in notifiers && notifiers[n].call == c
      modifies this`notifiers, this`serverSubs
      ensures notifiers == MarkReturned(old(notifiers), c)
      ensures serverSubs == old(serverSubs) + Taken(old(notifiers), c)
      ensures Shows(Apply(s, Event.AddSubscriptions(c)))
    {
      ghost var was := notifiers;
      var i := 0;
      while i < |nn|
        invariant 0 <= i <= |nn|
        invariant notifiers == map n | n in was :: if n in nn[..i] then was[n].(callReturned := true) else was[n]
        invariant serverSubs == old(serverSubs) + set n | n in nn[..i] && n in was && was[n].sub.Some? :: was[n].sub.value
      {
        var n := nn[i];
        var sub := TakeSubscription(n);
        assert nn[..i + 1] == nn[..i] + [n];
        if sub.Some? {
          serverSubs := serverSubs + {sub.value};
        }
        i := i + 1;
      }
      assert nn[..i] == nn;
    }

    /** Returns the subscription, if one was created; none can be created from here on. */
    method TakeSubscription(n: NotifierId) returns (sub: Option<SubId>)
      requires n in notifiers
      modifies this`notifiers
      ensures notifiers == old(notifiers)[n := old(notifiers)[n].(callReturned := true)]
      ensures sub == old(notifiers)[n].sub
    {
      notifiers := notifiers[n := notifiers[n].(callReturned := true)];
      sub := notifiers[n].sub;
    }

    /** The `*_unsubscribe` callback. */
    method Unsubscribe(id: SubId, ghost c: CallId, ghost s: State) returns (found: bool)
      requires Shows(s) && Enabled(s, Event.Unsubscribe(c, id)) && serverSubs <= subs.Keys
      modifies this`subs, this`serverSubs, this`fault
      ensures found <==> id in old(serverSubs)
      ensures serverSubs == old(serverSubs) - {id}
      ensures if found then subs == old(subs)[id := CloseSub(old(subs)[id])] && fault == FaultOf(old(subs)[id], false, old(fault))
              else subs == old(subs) && fault == old(fault)
      ensures Shows(Apply(s, Event.Unsubscribe(c, id)))
    {
      if id !in serverSubs {
        return false;
      }
      if subs[id].closed {
        fault := CloseOfClosed;
      }
      subs := subs[id := subs[id].(closed := true)];
      serverSubs := serverSubs - {id};
      return true;
    }

    /** s.err <- err; close(s.err) */
    method EndSub(id: SubId, err: Error)
      requires id in subs
      modifies this`subs, this`fault
      ensures subs == old(subs)[id := Sub(old(subs)[id].sent + [err], true)]
      ensures fault == FaultOf(old(subs)[id], true, old(fault))
    {
      if subs[id].closed {
        fault := SendOnClosed;
      } else if subs[id].sent != [] {
        fault := SendBlocks;
      }
      subs := subs[id := Sub(subs[id].sent + [err], true)];
    }

    /** cancelServerSubscriptions, in whatever order the map yields its keys; no send blocks, no close panics. */
    method CancelServerSubscriptions(err: Error, ghost s: State)
      requires Shows(s) && Enabled(s, CancelAll(err))
      requires forall id :: id in serverSubs ==> id in subs && subs[id] == Sub([], false)
      modifies this`subs, this`serverSubs, this`fault
      ensures subs == EndAll(old(subs), old(serverSubs), err)
      ensures serverSubs == {} && fault == old(fault)
      ensures Shows(Apply(s, CancelAll(err)))
    {
      ghost var all, was := subs, serverSubs;
      while serverSubs != {}
        invariant serverSubs <= was
        invariant subs == EndAll(all, was - serverSubs, err)
        invariant fault == old(fault)
        decreases serverSubs
      {
        var id :| id in serverSubs;
        EndSub(id, err);
        serverSubs := serverSubs - {id};
        assert subs == EndAll(all, was - serverSubs, err);
      }
    }
  }
}
