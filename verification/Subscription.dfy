/**
  A client subscription as a step machine: the forwarder with its bounded queue, dispatch's
  deliver, and any number of goroutines ending the subscription through two sync.Once values.
 */
module Subscription {
  import opened Wrappers

  const MAX_BUFFER: nat := 20000

  datatype Error = ClientQuit | ReadError | Overflow | Undecodable

  /** A notification's payload as raw JSON. */
  datatype Raw = Raw(text: string)

  /** sync.Once: a caller of Do that finds it Busy waits until it is Done. */
  datatype Once = Fresh | Busy(owner: nat) | Done

  /** A goroutine ending the subscription; thenErr marks Unsubscribe, which goes on to close err. */
  datatype Pc =
    | AtQuit(unsub: bool, err: Option<Error>, thenErr: bool)   // calls quitOnce.Do
    | Closing(unsub: bool, err: Option<Error>, thenErr: bool)  // in the body, before close(quit)
    | Calling(err: Option<Error>, thenErr: bool)               // in requestUnsubscribe
    | Sending(value: Error, thenErr: bool)                     // before sub.err <- err
    | AtErr                                                    // calls errOnce.Do
    | ClosingErr                                               // in its body, before close(err)
    | Gone

  datatype Forwarder = NotStarted | Looping | Ended

  datatype Fault = NoFault | CloseOfClosed | SendOnClosed | SendBlocks

  datatype State = State(
    quit: bool,                  // quit is closed
    errBuf: seq<Option<Error>>,  // err, a channel of capacity 1
    errClosed: bool,
    quitOnce: Once,
    errOnce: Once,
    goroutines: map<nat, Pc>,
    forwarder: Forwarder,
    buffer: seq<Raw>,
    fault: Fault,
    // history
    arrived: seq<Raw>,           // every value dispatch called deliver with
    taken: seq<nat>,             // which of them the forwarder received
    accepted: seq<Raw>,          // which of those it queued
    delivered: seq<Raw>,         // what went to the user's channel
    errSent: seq<Option<Error>>, // what was ever sent on err
    lateTake: bool)              // the forwarder received something after deliver had given something up

  const INIT := State(false, [], false, Fresh, Fresh, map[], NotStarted, [], NoFault, [], [], [], [], [], false)

  datatype Event =
    | Unsubscribe(g: nat)
    | Cancel(g: nat, err: Error)
    | EnterQuit(g: nat)
    | CloseQuit(g: nat)
    | CallReturns(g: nat)
    | SendErr(g: nat)
    | EnterErr(g: nat)
    | CloseErr(g: nat)
    | UserReadsErr
    | Start
    | Accept(raw: Raw, decodes: bool, g: nat)  // deliver and the forwarder meet on sub.in
    | Drop(raw: Raw)                           // deliver takes <-sub.quit
    | Push                                     // the forwarder sends to the user's channel
    | SeeQuit(g: nat)                          // the forwarder takes <-sub.quit

  predicate Fresh?(s: State, g: nat) { g !in s.goroutines }

  predicate Enabled(s: State, e: Event) {
    match e
    case Unsubscribe(g) => Fresh?(s, g)
    case Cancel(g, _) => Fresh?(s, g)
    case EnterQuit(g) => g in s.goroutines && s.goroutines[g].AtQuit? && !s.quitOnce.Busy?
    case CloseQuit(g) => g in s.goroutines && s.goroutines[g].Closing?
    case CallReturns(g) => g in s.goroutines && s.goroutines[g].Calling?
    case SendErr(g) => g in s.goroutines && s.goroutines[g].Sending?
    case EnterErr(g) => g in s.goroutines && s.goroutines[g].AtErr? && !s.errOnce.Busy?
    case CloseErr(g) => g in s.goroutines && s.goroutines[g].ClosingErr?
    case UserReadsErr => s.errBuf != []
    case Start => s.forwarder.NotStarted?
    case Accept(_, _, g) => s.forwarder.Looping? && Fresh?(s, g)
    case Drop(_) => s.quit
    case Push => s.forwarder.Looping? && s.buffer != []
    case SeeQuit(g) => s.forwarder.Looping? && s.quit && Fresh?(s, g)
  }

  function Goto(s: State, g: nat, pc: Pc): State {
    s.(goroutines := s.goroutines[g := pc])
  }

  function AfterQuit(thenErr: bool): Pc {
    if thenErr then AtErr else Gone
  }

  /** The rest of quitWithError's body once the unsubscribe request is out of the way. */
  function AfterCall(s: State, g: nat, err: Option<Error>, thenErr: bool): (t: State)
    ensures g in t.goroutines && t.goroutines == s.goroutines[g := t.goroutines[g]] && !t.goroutines[g].AtQuit?
    ensures t == s.(goroutines := t.goroutines, quitOnce := t.quitOnce)
  {
    if err.Some? then Goto(s, g, Sending(err.value, thenErr))
    else Goto(s, g, AfterQuit(thenErr)).(quitOnce := Done)
  }

  /** forward returns and start passes its results to quitWithError. */
  function EndForward(s: State, g: nat, unsub: bool, err: Option<Error>): State {
    Goto(s, g, AtQuit(unsub, err, false)).(forwarder := Ended, buffer := [])
  }

  function Apply(s: State, e: Event): State
    requires Enabled(s, e)
  {
    match e
    case Unsubscribe(g) => Goto(s, g, AtQuit(true, None, true))
    case Cancel(g, err) => Goto(s, g, AtQuit(false, Some(err), false))
    case EnterQuit(g) =>
      var pc := s.goroutines[g];
      if s.quitOnce.Fresh? then Goto(s, g, Closing(pc.unsub, pc.err, pc.thenErr)).(quitOnce := Busy(g))
      else Goto(s, g, AfterQuit(pc.thenErr))
    case CloseQuit(g) =>
      var pc := s.goroutines[g];
      var t := s.(quit := true, fault := if s.quit then CloseOfClosed else s.fault);
      if pc.unsub then Goto(t, g, Calling(pc.err, pc.thenErr)) else AfterCall(t, g, pc.err, pc.thenErr)
    case CallReturns(g) => AfterCall(s, g, s.goroutines[g].err, s.goroutines[g].thenErr)
    case SendErr(g) =>
      var pc := s.goroutines[g];
      var value := if pc.value.ClientQuit? then None else Some(pc.value);
      Goto(s, g, AfterQuit(pc.thenErr)).(
        quitOnce := Done, errBuf := s.errBuf + [value], errSent := s.errSent + [value],
        fault := if s.errClosed then SendOnClosed else if s.errBuf != [] then SendBlocks else s.fault)
    case EnterErr(g) =>
      if s.errOnce.Fresh? then Goto(s, g, ClosingErr).(errOnce := Busy(g)) else Goto(s, g, Gone)
    case CloseErr(g) =>
      Goto(s, g, Gone).(errOnce := Done, errClosed := true, fault := if s.errClosed then CloseOfClosed else s.fault)
    case UserReadsErr => s.(errBuf := s.errBuf[1..])
    case Start => s.(forwarder := Looping)
    case Accept(raw, decodes, g) =>
      var t := s.(arrived := s.arrived + [raw], taken := s.taken + [|s.arrived|],
                  lateTake := s.lateTake || |s.taken| < |s.arrived|);
      if !decodes then EndForward(t, g, true, Some(Undecodable))
      else if |s.buffer| == MAX_BUFFER then EndForward(t, g, true, Some(Overflow))
      else t.(buffer := s.buffer + [raw], accepted := s.accepted + [raw])
    case Drop(raw) => s.(arrived := s.arrived + [raw])
    case Push => s.(buffer := s.buffer[1..], delivered := s.delivered + [s.buffer[0]])
    case SeeQuit(g) => EndForward(s, g, false, None)
  }

  predicate Possible(s: State, es: seq<Event>)
    decreases |es|
  {
    es == [] || (Enabled(s, es[0]) && Possible(Apply(s, es[0]), es[1..]))
  }

  function Run(s: State, es: seq<Event>): State
    requires Possible(s, es)
    decreases |es|
  {
    if es == [] then s else Run(Apply(s, es[0]), es[1..])
  }

  // ---- the invariant ----

  predicate InBody(pc: Pc) { pc.Closing? || pc.Calling? || pc.Sending? }

  ghost predicate GoroutineInv(s: State, g: nat)
    requires g in s.goroutines
  {
    var pc := s.goroutines[g];
    && (InBody(pc) <==> s.quitOnce == Busy(g))
    && (pc.Closing? ==> !s.quit)
    && (pc.Calling? || pc.Sending? ==> s.quit)
    && (pc.AtErr? || pc.ClosingErr? ==> s.quitOnce.Done?)
    && (pc.ClosingErr? <==> s.errOnce == Busy(g))
  }

  ghost predicate OnceInv(s: State) {
    && s.fault.NoFault?
    && (s.quitOnce.Fresh? ==> !s.quit)
    && (s.quitOnce.Busy? ==> s.quitOnce.owner in s.goroutines)
    && (s.quitOnce.Done? ==> s.quit)
    && (s.errOnce.Busy? ==> s.errOnce.owner in s.goroutines)
    && (s.errClosed <==> s.errOnce.Done?)
    && (s.errClosed ==> s.quitOnce.Done?)
    && (!s.quitOnce.Done? ==> s.errSent == [])
    && |s.errSent| <= 1
    && |s.errBuf| <= |s.errSent|
    && forall g {:trigger GoroutineInv(s, g)} | g in s.goroutines :: GoroutineInv(s, g)
  }

  predicate QuitEvent(e: Event) { e.EnterQuit? || e.CloseQuit? || e.CallReturns? || e.SendErr? }

  predicate ErrEvent(e: Event) { e.EnterErr? || e.CloseErr? }

  lemma OnceStepQuit(s: State, e: Event)
    requires OnceInv(s) && Enabled(s, e) && QuitEvent(e)
    ensures OnceInv(Apply(s, e))
  {
    var t := Apply(s, e);
    assert GoroutineInv(s, e.g);
    forall g | g in t.goroutines ensures GoroutineInv(t, g) {
      assert GoroutineInv(s, g);
    }
  }

  lemma OnceStepErr(s: State, e: Event)
    requires OnceInv(s) && Enabled(s, e) && ErrEvent(e)
    ensures OnceInv(Apply(s, e))
  {
    var t := Apply(s, e);
    assert GoroutineInv(s, e.g);
    forall g | g in t.goroutines ensures GoroutineInv(t, g) {
      assert GoroutineInv(s, g);
    }
  }

  /** A new goroutine that has done nothing yet. */
  lemma OnceStepSpawn(s: State, t: State, g: nat, pc: Pc)
    requires OnceInv(s) && g !in s.goroutines && pc.AtQuit?
    requires t == s.(goroutines := s.goroutines[g := pc], forwarder := t.forwarder, buffer := t.buffer,
                     arrived := t.arrived, taken := t.taken, lateTake := t.lateTake)
    ensures OnceInv(t)
  {
    forall h | h in t.goroutines ensures GoroutineInv(t, h) {
      assert h in s.goroutines ==> GoroutineInv(s, h);
    }
  }

  predicate Spawns(s: State, e: Event) {
    e.Unsubscribe? || e.Cancel? || e.SeeQuit? || (e.Accept? && (!e.decodes || |s.buffer| == MAX_BUFFER))
  }

  lemma OnceStepSilent(s: State, e: Event)
    requires OnceInv(s) && Enabled(s, e) && !QuitEvent(e) && !ErrEvent(e) && !Spawns(s, e)
    ensures OnceInv(Apply(s, e))
  {
    var t := Apply(s, e);
    forall g | g in t.goroutines ensures GoroutineInv(t, g) {
      assert GoroutineInv(s, g);
    }
  }

  lemma OnceStep(s: State, e: Event)
    requires OnceInv(s) && Enabled(s, e)
    ensures OnceInv(Apply(s, e))
  {
    if QuitEvent(e) {
      OnceStepQuit(s, e);
    } else if ErrEvent(e) {
      OnceStepErr(s, e);
    } else if Spawns(s, e) {
      OnceStepSpawn(s, Apply(s, e), e.g, Apply(s, e).goroutines[e.g]);
    } else {
      OnceStepSilent(s, e);
    }
  }

  lemma {:induction false} RunKeepsOnce(s: State, es: seq<Event>)
    requires OnceInv(s) && Possible(s, es)
    ensures OnceInv(Run(s, es))
    decreases |es|
  {
    if es != [] {
      OnceStep(s, es[0]);
      RunKeepsOnce(Apply(s, es[0]), es[1..]);
    }
  }

  /**
    Closing once.  Whatever goroutines end the subscription and in whatever order they run, quit is
    not closed twice, err gets at most one value and has room for it, and err is closed at most once
    and only when that value has been sent or never will be.
   */
  lemma CloseOnce(es: seq<Event>)
    requires Possible(INIT, es)
    ensures var s := Run(INIT, es);
            && s.fault.NoFault?
            && |s.errSent| <= 1
            && (s.errClosed ==> s.quit && s.quitOnce.Done? && forall g | g in s.goroutines :: !InBody(s.goroutines[g]))
  {
    RunKeepsOnce(INIT, es);
    var s := Run(INIT, es);
    forall g | g in s.goroutines ensures s.errClosed ==> !InBody(s.goroutines[g]) {
      assert GoroutineInv(s, g);
    }
  }

  lemma NoLateSend(s: State, e: Event)
    requires OnceInv(s) && s.errClosed && Enabled(s, e)
    ensures Apply(s, e).errClosed && Apply(s, e).errSent == s.errSent
  {
    assert e.SendErr? ==> GoroutineInv(s, e.g);
  }

  /** When Unsubscribe has returned, err is closed and stays as it is: nothing is sent on it any more. */
  lemma {:induction false} ErrIsFinal(s: State, es: seq<Event>)
    requires OnceInv(s) && s.errClosed && Possible(s, es)
    ensures Run(s, es).errClosed && Run(s, es).errSent == s.errSent
    decreases |es|
  {
    if es != [] {
      OnceStep(s, es[0]);
      NoLateSend(s, es[0]);
      ErrIsFinal(Apply(s, es[0]), es[1..]);
    }
  }

  predicate DeliverEnabled(s: State) {
    s.forwarder.Looping? || s.quit
  }

  /** While an unsubscribe request is on its way to the server, deliver cannot block dispatch. */
  lemma UnsubscribeCannotWedge(es: seq<Event>, g: nat)
    requires Possible(INIT, es)
    requires g in Run(INIT, es).goroutines && Run(INIT, es).goroutines[g].Calling?
    ensures forall raw :: Enabled(Run(INIT, es), Drop(raw))
  {
    RunKeepsOnce(INIT, es);
    assert GoroutineInv(Run(INIT, es), g);
  }

  ghost predicate EndedInv(s: State) {
    s.forwarder.Ended? && s.quitOnce.Fresh? ==> exists g :: g in s.goroutines && s.goroutines[g].AtQuit?
  }

  lemma EndedStep(s: State, e: Event)
    requires OnceInv(s) && EndedInv(s) && Enabled(s, e)
    ensures EndedInv(Apply(s, e))
  {
    var t := Apply(s, e);
    if t.forwarder.Ended? && t.quitOnce.Fresh? {
      if s.forwarder.Ended? {
        var g :| g in s.goroutines && s.goroutines[g].AtQuit?;
        assert t.goroutines[g].AtQuit?;
      } else {
        assert t.goroutines[e.g].AtQuit?;
      }
    }
  }

  lemma {:induction false} RunKeepsEnded(s: State, es: seq<Event>)
    requires OnceInv(s) && EndedInv(s) && Possible(s, es)
    ensures OnceInv(Run(s, es)) && EndedInv(Run(s, es))
    decreases |es|
  {
    if es != [] {
      OnceStep(s, es[0]);
      EndedStep(s, es[0]);
      RunKeepsEnded(Apply(s, es[0]), es[1..]);
    }
  }

  /**
    If deliver is blocked although the forwarder has ended, a goroutine stands within two local
    steps of closing quit, neither of which waits for the network or for dispatch.
   */
  lemma BlockedDeliverIsBrief(es: seq<Event>)
    requires Possible(INIT, es)
    requires !DeliverEnabled(Run(INIT, es)) && Run(INIT, es).forwarder.Ended?
    ensures var s := Run(INIT, es);
            exists g :: Enabled(s, CloseQuit(g)) ||
                        (Enabled(s, EnterQuit(g)) && Enabled(Apply(s, EnterQuit(g)), CloseQuit(g)))
  {
    RunKeepsEnded(INIT, es);
    var s := Run(INIT, es);
    if s.quitOnce.Busy? {
      assert GoroutineInv(s, s.quitOnce.owner);
      assert Enabled(s, CloseQuit(s.quitOnce.owner));
    } else {
      var g :| g in s.goroutines && s.goroutines[g].AtQuit?;
      assert Enabled(s, EnterQuit(g)) && Enabled(Apply(s, EnterQuit(g)), CloseQuit(g));
    }
  }

  // ---- the forwarder ----

  predicate InRange(at: seq<nat>, n: nat) {
    forall i :: 0 <= i < |at| ==> at[i] < n
  }

  function Pick(all: seq<Raw>, at: seq<nat>): (r: seq<Raw>)
    requires InRange(at, |all|)
    ensures |r| == |at|
  {
    seq(|at|, i requires 0 <= i < |at| => all[at[i]])
  }

  /** at is 0, 1, 2, ... */
  ghost predicate Contiguous(at: seq<nat>) {
    forall i :: 0 <= i < |at| ==> at[i] == i
  }

  /** Which arrivals the forwarder has received. */
  ghost predicate TakenInv(s: State) {
    && InRange(s.taken, |s.arrived|)
    && (forall i, j :: 0 <= i < j < |s.taken| ==> s.taken[i] < s.taken[j])
    && |s.taken| <= |s.arrived|
    && (s.forwarder.NotStarted? ==> s.taken == [])
    && (!s.quit ==> |s.taken| == |s.arrived| && !s.lateTake)
    && (Contiguous(s.taken) <==> !s.lateTake)
  }

  /** What has become of them. */
  ghost predicate QueueInv(s: State) {
    && TakenInv(s)
    && |s.buffer| <= MAX_BUFFER
    && s.delivered <= s.accepted
    && s.accepted <= Pick(s.arrived, s.taken)
    && (s.forwarder.NotStarted? ==> s.buffer == [] && s.accepted == [])
    && (s.forwarder.Looping? ==> s.accepted == s.delivered + s.buffer && s.accepted == Pick(s.arrived, s.taken))
  }

  lemma AcceptKeepsTaken(s: State, e: Event)
    requires TakenInv(s) && Enabled(s, e) && e.Accept?
    ensures TakenInv(Apply(s, e))
  {
    var t := Apply(s, e);
    assert t.taken == s.taken + [|s.arrived|] && t.arrived == s.arrived + [e.raw] && t.quit == s.quit;
    assert InRange(t.taken, |t.arrived|);
    if s.lateTake {
      var i :| 0 <= i < |s.taken| && s.taken[i] != i;
      assert t.taken[i] != i;
    } else if |s.taken| < |s.arrived| {
      assert t.taken[|s.taken|] != |s.taken|;
    }
  }

  lemma PickGrows(all: seq<Raw>, at: seq<nat>, raw: Raw)
    requires InRange(at, |all|)
    ensures InRange(at, |all + [raw]|) && Pick(all + [raw], at) == Pick(all, at)
    ensures InRange(at + [|all|], |all + [raw]|) && Pick(all + [raw], at + [|all|]) == Pick(all, at) + [raw]
  {
  }

  lemma AcceptKeepsQueue(s: State, e: Event)
    requires QueueInv(s) && Enabled(s, e) && e.Accept?
    ensures QueueInv(Apply(s, e))
  {
    AcceptKeepsTaken(s, e);
    PickGrows(s.arrived, s.taken, e.raw);
  }

  lemma DropKeepsQueue(s: State, e: Event)
    requires QueueInv(s) && Enabled(s, e) && e.Drop?
    ensures QueueInv(Apply(s, e))
  {
    PickGrows(s.arrived, s.taken, e.raw);
  }

  lemma DrainKeepsQueue(s: State, e: Event)
    requires QueueInv(s) && Enabled(s, e) && (e.Push? || e.SeeQuit? || e.Start?)
    ensures QueueInv(Apply(s, e))
  {
  }

  /** Nothing the queue depends on has changed, except that quit may have been closed. */
  ghost predicate SameQueue(s: State, t: State) {
    && t.forwarder == s.forwarder && t.buffer == s.buffer && t.arrived == s.arrived && t.taken == s.taken
    && t.accepted == s.accepted && t.delivered == s.delivered && t.lateTake == s.lateTake
    && (s.quit ==> t.quit)
  }

  lemma SameQueueKeepsInv(s: State, t: State)
    requires QueueInv(s) && SameQueue(s, t)
    ensures QueueInv(t)
  {
  }

  lemma QuitLeavesQueue(s: State, e: Event)
    requires Enabled(s, e) && QuitEvent(e)
    ensures SameQueue(s, Apply(s, e))
  {
    match e
    case EnterQuit(_) =>
    case CloseQuit(_) =>
    case CallReturns(_) =>
    case SendErr(_) =>
  }

  lemma ErrLeavesQueue(s: State, e: Event)
    requires Enabled(s, e) && (ErrEvent(e) || e.Unsubscribe? || e.Cancel? || e.UserReadsErr?)
    ensures SameQueue(s, Apply(s, e))
  {
  }

  lemma QueueStep(s: State, e: Event)
    requires QueueInv(s) && Enabled(s, e)
    ensures QueueInv(Apply(s, e))
  {
    match e
    case Accept(_, _, _) => AcceptKeepsQueue(s, e);
    case Drop(_) => DropKeepsQueue(s, e);
    case Push => DrainKeepsQueue(s, e);
    case SeeQuit(_) => DrainKeepsQueue(s, e);
    case Start => DrainKeepsQueue(s, e);
    case _ =>
      if QuitEvent(e) { QuitLeavesQueue(s, e); } else { ErrLeavesQueue(s, e); }
      SameQueueKeepsInv(s, Apply(s, e));
  }

  lemma {:induction false} RunKeepsQueue(s: State, es: seq<Event>)
    requires OnceInv(s) && QueueInv(s) && Possible(s, es)
    ensures OnceInv(Run(s, es)) && QueueInv(Run(s, es))
    decreases |es|
  {
    if es != [] {
      OnceStep(s, es[0]);
      QueueStep(s, es[0]);
      RunKeepsQueue(Apply(s, es[0]), es[1..]);
    }
  }

  /**
    The forwarder's queue: never above its bound; while the forwarder lives what it received is
    exactly what it delivered followed by what it holds; on every exit the delivered values are
    still a prefix of the received ones, which are the arrivals in order, none twice.
   */
  lemma QueueConservation(es: seq<Event>)
    requires Possible(INIT, es)
    ensures var s := Run(INIT, es);
            && |s.buffer| <= 20000
            && InRange(s.taken, |s.arrived|)
            && (forall i, j :: 0 <= i < j < |s.taken| ==> s.taken[i] < s.taken[j])
            && (s.forwarder.Looping? ==> Pick(s.arrived, s.taken) == s.delivered + s.buffer)
            && s.delivered <= Pick(s.arrived, s.taken)
            && (!s.quit ==> Pick(s.arrived, s.taken) == s.arrived)
  {
    assert Contiguous(INIT.taken);
    RunKeepsQueue(INIT, es);
    var s := Run(INIT, es);
    assert !s.quit ==> Pick(s.arrived, s.taken) == s.arrived;
  }

  /** The forwarder's select takes whatever is ready: any value, however full the queue, the user, or quit. */
  lemma SelectTakesAnyReadyCase(s: State, raw: Raw, decodes: bool, g: nat)
    requires s.forwarder.Looping? && g !in s.goroutines
    ensures Enabled(s, Accept(raw, decodes, g))
    ensures s.buffer != [] ==> Enabled(s, Push)
    ensures s.quit ==> Enabled(s, SeeQuit(g))
  {
  }

  /** Overflow is reported exactly when a value that decodes meets a full queue. */
  lemma OverflowExactly(es: seq<Event>, raw: Raw, decodes: bool, g: nat)
    requires Possible(INIT, es) && Enabled(Run(INIT, es), Accept(raw, decodes, g))
    ensures var s := Run(INIT, es);
            var t := Apply(s, Accept(raw, decodes, g));
            && InRange(s.taken, |s.arrived|)
            && (g in t.goroutines && t.goroutines[g] == AtQuit(true, Some(Overflow), false)
                <==> decodes && |Pick(s.arrived, s.taken)| - |s.delivered| == 20000)
            && (g in t.goroutines && t.goroutines[g] == AtQuit(true, Some(Undecodable), false) <==> !decodes)
            && (t.forwarder.Ended? <==> !decodes || |s.buffer| == 20000)
            && (t.forwarder.Looping? ==> t.accepted == s.accepted + [raw])
  {
    QueueConservation(es);
  }

  // ---- order as the user sees it ----

  /** The delivered values are the first arrivals, none left out. */
  ghost predicate InOrder(s: State) {
    s.delivered <= s.arrived
  }

  /** A value is handed over although an earlier one was given up. */
  predicate TakesAfterDrop(es: seq<Event>) {
    exists i, j :: 0 <= i < j < |es| && es[i].Drop? && es[j].Accept?
  }

  predicate Takes(es: seq<Event>) {
    exists e :: e in es && e.Accept?
  }

  lemma TakesAfterDropCons(es: seq<Event>)
    requires es != []
    ensures Takes(es) <==> es[0].Accept? || Takes(es[1..])
    ensures TakesAfterDrop(es) <==> (es[0].Drop? && Takes(es[1..])) || TakesAfterDrop(es[1..])
  {
    assert forall k :: 1 <= k < |es| ==> es[k] == es[1..][k - 1];
    if es[0].Drop? && Takes(es[1..]) {
      var e :| e in es[1..] && e.Accept?;
      var k :| 0 <= k < |es[1..]| && es[1..][k] == e;
      assert es[0].Drop? && es[k + 1].Accept?;
    }
    if TakesAfterDrop(es[1..]) {
      var i, j :| 0 <= i < j < |es[1..]| && es[1..][i].Drop? && es[1..][j].Accept?;
      assert es[i + 1].Drop? && es[j + 1].Accept?;
    }
    if TakesAfterDrop(es) {
      var i, j :| 0 <= i < j < |es| && es[i].Drop? && es[j].Accept?;
      assert es[1..][j - 1] in es[1..];
      assert i > 0 ==> es[1..][i - 1].Drop? && es[1..][j - 1].Accept?;
    }
  }

  lemma {:induction false} LateTakeIff(s: State, es: seq<Event>)
    requires OnceInv(s) && QueueInv(s) && Possible(s, es)
    ensures Run(s, es).lateTake <==>
            s.lateTake || (|s.taken| < |s.arrived| && Takes(es)) || TakesAfterDrop(es)
    decreases |es|
  {
    if es != [] {
      var t := Apply(s, es[0]);
      OnceStep(s, es[0]);
      QueueStep(s, es[0]);
      LateTakeIff(t, es[1..]);
      TakesAfterDropCons(es);
      ArrivalStep(s, es[0], t);
    }
  }

  /** How a step moves what arrived, was received and was delivered. */
  lemma ArrivalStep(s: State, e: Event, t: State)
    requires Enabled(s, e) && t == Apply(s, e)
    ensures t.arrived == if e.Accept? || e.Drop? then s.arrived + [e.raw] else s.arrived
    ensures t.taken == if e.Accept? then s.taken + [|s.arrived|] else s.taken
    ensures t.lateTake <==> s.lateTake || (e.Accept? && |s.taken| < |s.arrived|)
    ensures |t.delivered| == |s.delivered| + if e.Push? then 1 else 0
  {
    if QuitEvent(e) {
      QuitLeavesQueue(s, e);
    } else if ErrEvent(e) || e.Unsubscribe? || e.Cancel? || e.UserReadsErr? {
      ErrLeavesQueue(s, e);
    }
  }

  /** What the forwarder receives is the first arrivals without a gap exactly if nothing is handed over after a drop. */
  lemma TakenInOrderIff(es: seq<Event>)
    requires Possible(INIT, es)
    ensures Contiguous(Run(INIT, es).taken) <==> !TakesAfterDrop(es)
  {
    assert Contiguous(INIT.taken);
    RunKeepsQueue(INIT, es);
    LateTakeIff(INIT, es);
  }

  /** How many values are handed over before the first one is given up. */
  function InTime(es: seq<Event>): nat {
    if es == [] || es[0].Drop? then 0 else (if es[0].Accept? then 1 else 0) + InTime(es[1..])
  }

  function Pushes(es: seq<Event>): nat {
    if es == [] then 0 else (if es[0].Push? then 1 else 0) + Pushes(es[1..])
  }

  /** The first n values received are the first n arrivals, and the next one is not. */
  ghost predicate GapAt(s: State, n: nat) {
    && n <= |s.taken| <= |s.arrived|
    && Contiguous(s.taken[..n])
    && (n < |s.taken| ==> s.taken[n] > n)
    && (|s.taken| == |s.arrived| ==> n == |s.taken|)
  }

  lemma {:induction false} GapIsAtInTime(s: State, es: seq<Event>, n: nat)
    requires GapAt(s, n) && Possible(s, es)
    ensures GapAt(Run(s, es), if |s.taken| < |s.arrived| then n else n + InTime(es))
    ensures |Run(s, es).delivered| == |s.delivered| + Pushes(es)
    decreases |es|
  {
    if es != [] {
      var e, t := es[0], Apply(s, es[0]);
      ArrivalStep(s, e, t);
      var m := if e.Accept? && |s.taken| == |s.arrived| then n + 1 else n;
      GapStep(s, e, t, n, m);
      GapIsAtInTime(t, es[1..], m);
    }
  }

  lemma GapStep(s: State, e: Event, t: State, n: nat, m: nat)
    requires GapAt(s, n) && m == if e.Accept? && |s.taken| == |s.arrived| then n + 1 else n
    requires (e.Accept? || e.Drop?) ==> t.arrived == s.arrived + [e.raw]
    requires !(e.Accept? || e.Drop?) ==> t.arrived == s.arrived
    requires t.taken == if e.Accept? then s.taken + [|s.arrived|] else s.taken
    ensures GapAt(t, m)
  {
    assert forall i :: 0 <= i < n ==> s.taken[i] == s.taken[..n][i];
  }

  /**
    The user gets the first arrivals, none left out, exactly if no value handed over after a drop has
    been pushed: when the pushes are no more than the hand-overs before the first drop.  With arrivals
    that differ from one another this is what tells a prefix from anything else.
   */
  lemma DeliveredInOrderIff(es: seq<Event>)
    requires Possible(INIT, es)
    ensures var s := Run(INIT, es);
            && InRange(s.taken, |s.arrived|) && |s.delivered| <= |s.taken|
            && s.delivered == Pick(s.arrived, s.taken[..|s.delivered|])
            && (Contiguous(s.taken[..|s.delivered|]) <==> Pushes(es) <= InTime(es))
            && (Pushes(es) <= InTime(es) ==> InOrder(s))
            && (Distinct(s.arrived) ==> (InOrder(s) <==> Pushes(es) <= InTime(es)))
  {
    assert Contiguous(INIT.taken) && INIT.taken[..0] == [];
    RunKeepsQueue(INIT, es);
    GapIsAtInTime(INIT, es, 0);
    var s := Run(INIT, es);
    DeliveredArePicked(s);
    GapDecides(s, InTime(es));
  }

  lemma DeliveredArePicked(s: State)
    requires QueueInv(s)
    ensures |s.delivered| <= |s.taken| && s.delivered == Pick(s.arrived, s.taken[..|s.delivered|])
  {
  }

  lemma GapDecides(s: State, n: nat)
    requires GapAt(s, n) && InRange(s.taken, |s.arrived|) && |s.delivered| <= |s.taken|
    requires s.delivered == Pick(s.arrived, s.taken[..|s.delivered|])
    ensures Contiguous(s.taken[..|s.delivered|]) <==> |s.delivered| <= n
    ensures |s.delivered| <= n ==> InOrder(s)
    ensures Distinct(s.arrived) ==> (InOrder(s) <==> |s.delivered| <= n)
  {
    var k := |s.delivered|;
    assert forall i :: 0 <= i < k ==> s.taken[..k][i] == s.taken[i];
    assert forall i :: 0 <= i < n ==> s.taken[..n][i] == s.taken[i];
    if k > n {
      assert s.delivered[n] == s.arrived[s.taken[n]] && s.taken[..k][n] != n;
      if Distinct(s.arrived) {
        assert s.delivered[n] != s.arrived[n];
      }
    } else {
      assert s.delivered == s.arrived[..k];
    }
  }

  /** No value is handed over on sub.in once quit is closed, as when neither side parks on a closed case. */
  predicate Prompt(s: State, es: seq<Event>)
    requires Possible(s, es)
    decreases |es|
  {
    es == [] || ((es[0].Accept? ==> !s.quit) && Prompt(Apply(s, es[0]), es[1..]))
  }

  lemma {:induction false} PromptIsInOrder(s: State, es: seq<Event>)
    requires OnceInv(s) && QueueInv(s) && !s.lateTake && Possible(s, es) && Prompt(s, es)
    ensures !Run(s, es).lateTake
    decreases |es|
  {
    if es != [] {
      OnceStep(s, es[0]);
      QueueStep(s, es[0]);
      PromptIsInOrder(Apply(s, es[0]), es[1..]);
    }
  }

  /** deliver gives up a, then hands over b to a forwarder that has not looked at quit yet. */
  function LateRun(a: Raw, b: Raw): seq<Event> {
    [Start, Cancel(0, ReadError), EnterQuit(0), CloseQuit(0)] + [Drop(a), Accept(b, true, 1), Push]
  }

  const QUIT_STATE := INIT.(
    forwarder := Looping, quit := true, quitOnce := Busy(0), goroutines := map[0 := Sending(ReadError, false)])

  lemma {:induction false} Join(s: State, es: seq<Event>, fs: seq<Event>)
    requires Possible(s, es) && Possible(Run(s, es), fs)
    ensures Possible(s, es + fs) && Run(s, es + fs) == Run(Run(s, es), fs)
    decreases |es|
  {
    if es == [] {
      assert es + fs == fs;
    } else {
      Join(Apply(s, es[0]), es[1..], fs);
      assert (es + fs)[1..] == es[1..] + fs;
    }
  }

  lemma Prepend(s: State, e: Event, es: seq<Event>)
    requires Enabled(s, e) && Possible(Apply(s, e), es)
    ensures Possible(s, [e] + es) && Run(s, [e] + es) == Run(Apply(s, e), es)
  {
    assert ([e] + es)[1..] == es;
  }

  lemma OneMore(s: State, es: seq<Event>, e: Event)
    requires Possible(s, es) && Enabled(Run(s, es), e)
    ensures Possible(s, es + [e]) && Run(s, es + [e]) == Apply(Run(s, es), e)
  {
    Prepend(Run(s, es), e, []);
    Join(s, es, [e]);
  }

  lemma QuittingRun()
    ensures var es := [Start, Cancel(0, ReadError), EnterQuit(0), CloseQuit(0)];
            Possible(INIT, es) && Run(INIT, es) == QUIT_STATE
  {
    var s1 := Apply(INIT, Start);
    var s2 := Apply(s1, Cancel(0, ReadError));
    var s3 := Apply(s2, EnterQuit(0));
    assert Apply(s3, CloseQuit(0)) == QUIT_STATE;
    Prepend(s3, CloseQuit(0), []);
    Prepend(s2, EnterQuit(0), [CloseQuit(0)]);
    Prepend(s1, Cancel(0, ReadError), [EnterQuit(0), CloseQuit(0)]);
    Prepend(INIT, Start, [Cancel(0, ReadError), EnterQuit(0), CloseQuit(0)]);
  }

  /** By the letter of select, order can break after quit is closed: the user gets b and never a. */
  lemma LateTakeSkipsAValue(a: Raw, b: Raw)
    requires a != b
    ensures Possible(INIT, LateRun(a, b))
    ensures var s := Run(INIT, LateRun(a, b)); s.arrived == [a, b] && s.delivered == [b] && !InOrder(s)
  {
    QuittingRun();
    var s1 := Apply(QUIT_STATE, Drop(a));
    var s2 := Apply(s1, Accept(b, true, 1));
    var s3 := Apply(s2, Push);
    Prepend(s2, Push, []);
    Prepend(s1, Accept(b, true, 1), [Push]);
    Prepend(QUIT_STATE, Drop(a), [Accept(b, true, 1), Push]);
    Join(INIT, [Start, Cancel(0, ReadError), EnterQuit(0), CloseQuit(0)], [Drop(a), Accept(b, true, 1), Push]);
    assert s3.arrived == [a, b] && s3.delivered == [b];
    assert s3.delivered[0] != s3.arrived[0];
  }
}
