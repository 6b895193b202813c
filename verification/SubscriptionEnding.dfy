/**
  How a client subscription ends: the first goroutine through quitOnce decides what is asked of the
  server and what goes into err, and every Unsubscribe leaves err closed.
 */
module SubscriptionEnding {
  import opened Wrappers
  import opened Subscription

  /** What the user reads for err: nil stands for a client that was closed. */
  function Value(err: Error): Option<Error> {
    if err == ClientQuit then None else Some(err)
  }

  /** The goroutines whose unsubscribe request has been answered, in order. */
  function Asked(es: seq<Event>): seq<nat> {
    if es == [] then [] else (if es[0].CallReturns? then [es[0].g] else []) + Asked(es[1..])
  }

  /** The event adds a goroutine that is going to end the subscription. */
  predicate Starts(s: State, e: Event)
    requires Enabled(s, e)
  {
    CanStart(e) && e.g in Apply(s, e).goroutines
  }

  predicate CanStart(e: Event) {
    e.Unsubscribe? || e.Cancel? || e.Accept? || e.SeeQuit?
  }

  /** e is in the run and adds such a goroutine. */
  ghost predicate StartedBy(s: State, es: seq<Event>, e: Event)
    requires Possible(s, es)
    decreases |es|
  {
    es != [] && ((es[0] == e && Starts(s, e)) || StartedBy(Apply(s, es[0]), es[1..], e))
  }

  /** The goroutine whose quitOnce.Do runs its function, as it was before. */
  function Winner(s: State, es: seq<Event>): Option<(nat, Pc)>
    requires Possible(s, es)
    decreases |es|
  {
    if es == [] then None
    else if es[0].EnterQuit? && s.quitOnce.Fresh? then Some((es[0].g, s.goroutines[es[0].g]))
    else Winner(Apply(s, es[0]), es[1..])
  }

  predicate Wins(s: State, es: seq<Event>, g: nat)
    requires Possible(s, es)
  {
    Winner(s, es).Some? && Winner(s, es).value.0 == g
  }

  // ---- the winner's function ----

  function AsksFor(pc: Pc, g: nat): seq<nat>
    requires pc.AtQuit?
  {
    if pc.unsub then [g] else []
  }

  function Says(pc: Pc): seq<Option<Error>>
    requires pc.AtQuit?
  {
    if pc.err.Some? then [Value(pc.err.value)] else []
  }

  /** Goroutine g entered as pc and is somewhere in the function, or through with it. */
  ghost predicate OnTask(s: State, g: nat, pc: Pc, asked: seq<nat>)
    requires pc.AtQuit?
  {
    match s.quitOnce
    case Fresh => false
    case Busy(h) =>
      h == g && g in s.goroutines && s.errSent == [] && (
        || (s.goroutines[g] == Closing(pc.unsub, pc.err, pc.thenErr) && asked == [])
        || (s.goroutines[g] == Calling(pc.err, pc.thenErr) && pc.unsub && asked == [])
        || (pc.err.Some? && s.goroutines[g] == Sending(pc.err.value, pc.thenErr) && asked == AsksFor(pc, g)))
    case Done => asked == AsksFor(pc, g) && s.errSent == Says(pc)
  }

  lemma TaskStep(s: State, e: Event, g: nat, pc: Pc, asked: seq<nat>)
    requires OnceInv(s) && Enabled(s, e) && pc.AtQuit? && OnTask(s, g, pc, asked)
    ensures OnTask(Apply(s, e), g, pc, asked + if e.CallReturns? then [e.g] else [])
  {
    if QuitEvent(e) {
      assert GoroutineInv(s, e.g);
      QuitTaskStep(s, e, g, pc, asked);
    } else {
      assert asked + [] == asked;
    }
  }

  lemma QuitTaskStep(s: State, e: Event, g: nat, pc: Pc, asked: seq<nat>)
    requires Enabled(s, e) && QuitEvent(e) && pc.AtQuit? && OnTask(s, g, pc, asked)
    requires InBody(s.goroutines[e.g]) <==> s.quitOnce == Busy(e.g)
    ensures OnTask(Apply(s, e), g, pc, asked + if e.CallReturns? then [e.g] else [])
  {
    assert asked + [] == asked;
  }

  lemma {:induction false} TaskRun(s: State, es: seq<Event>, g: nat, pc: Pc, asked: seq<nat>)
    requires OnceInv(s) && Possible(s, es) && pc.AtQuit? && OnTask(s, g, pc, asked)
    ensures OnTask(Run(s, es), g, pc, asked + Asked(es))
    decreases |es|
  {
    if es != [] {
      var more := if es[0].CallReturns? then [es[0].g] else [];
      TaskStep(s, es[0], g, pc, asked);
      OnceStep(s, es[0]);
      TaskRun(Apply(s, es[0]), es[1..], g, pc, asked + more);
      assert asked + more + Asked(es[1..]) == asked + Asked(es);
    } else {
      assert asked + [] == asked;
    }
  }

  lemma EntersFresh(s: State, g: nat)
    requires OnceInv(s) && s.quitOnce.Fresh? && Enabled(s, EnterQuit(g))
    ensures OnTask(Apply(s, EnterQuit(g)), g, s.goroutines[g], [])
  {
  }

  lemma StaysFresh(s: State, e: Event)
    requires OnceInv(s) && s.quitOnce.Fresh? && Enabled(s, e) && !e.EnterQuit?
    ensures Apply(s, e).quitOnce.Fresh? && !e.CallReturns?
  {
    assert QuitEvent(e) ==> GoroutineInv(s, e.g);
  }

  lemma {:induction false} WinnerRun(s: State, es: seq<Event>)
    requires OnceInv(s) && s.quitOnce.Fresh? && Possible(s, es)
    ensures Winner(s, es).None? ==> Run(s, es).quitOnce.Fresh? && Asked(es) == []
    ensures Winner(s, es).Some? ==>
              var (g, pc) := Winner(s, es).value; pc.AtQuit? && OnTask(Run(s, es), g, pc, Asked(es))
    decreases |es|
  {
    if es != [] {
      OnceStep(s, es[0]);
      if es[0].EnterQuit? {
        EntersFresh(s, es[0].g);
        TaskRun(Apply(s, es[0]), es[1..], es[0].g, s.goroutines[es[0].g], []);
        assert [] + Asked(es[1..]) == Asked(es);
      } else {
        StaysFresh(s, es[0]);
        WinnerRun(Apply(s, es[0]), es[1..]);
      }
    }
  }

  // ---- who wins ----

  /** The goroutine an event adds: does it ask the server, with which error, and does it close err? */
  ghost predicate AddsAs(e: Event, pc: Pc) {
    match e
    case Unsubscribe(_) => pc == AtQuit(true, None, true)
    case Cancel(_, err) => pc == AtQuit(false, Some(err), false)
    case Accept(_, decodes, _) => pc == AtQuit(true, Some(if decodes then Overflow else Undecodable), false)
    case SeeQuit(_) => pc == AtQuit(false, None, false)
    case _ => false
  }

  /** A goroutine before quitOnce is as it was before the step, or new. */
  lemma AtQuitBefore(s: State, e: Event, g: nat)
    requires Enabled(s, e) && g in Apply(s, e).goroutines && Apply(s, e).goroutines[g].AtQuit?
    ensures (g in s.goroutines && s.goroutines[g] == Apply(s, e).goroutines[g]) ||
            (Starts(s, e) && e.g == g && AddsAs(e, Apply(s, e).goroutines[g]))
  {
    if QuitEvent(e) {
      PastQuit(s, e);
    } else if ErrEvent(e) {
      PastErr(s, e);
    }
  }

  lemma PastQuit(s: State, e: Event)
    requires Enabled(s, e) && QuitEvent(e)
    ensures var t := Apply(s, e);
            e.g in t.goroutines && !t.goroutines[e.g].AtQuit? && t.goroutines == s.goroutines[e.g := t.goroutines[e.g]]
  {
    match e
    case EnterQuit(_) =>
    case CloseQuit(_) =>
    case CallReturns(_) =>
    case SendErr(_) =>
  }

  lemma PastErr(s: State, e: Event)
    requires Enabled(s, e) && ErrEvent(e)
    ensures var t := Apply(s, e);
            e.g in t.goroutines && !t.goroutines[e.g].AtQuit? && t.goroutines == s.goroutines[e.g := t.goroutines[e.g]]
  {
  }

  lemma {:induction false} WinnerWasStarted(s: State, es: seq<Event>) returns (e: Event)
    requires Possible(s, es) && Winner(s, es).Some?
    ensures var (g, pc) := Winner(s, es).value;
            && pc.AtQuit?
            && ((g in s.goroutines && s.goroutines[g] == pc) ||
                (StartedBy(s, es, e) && CanStart(e) && e.g == g && AddsAs(e, pc)))
    decreases |es|
  {
    e := es[0];
    if !(es[0].EnterQuit? && s.quitOnce.Fresh?) {
      var t := Apply(s, es[0]);
      var (g, pc) := Winner(t, es[1..]).value;
      var later := WinnerWasStarted(t, es[1..]);
      if g in t.goroutines && t.goroutines[g] == pc {
        AtQuitBefore(s, es[0], g);
      } else {
        e := later;
      }
    }
  }

  /** What an ending leaves behind, by the event that brought it about. */
  ghost predicate Outcome(e: Event, asked: seq<nat>, sent: seq<Option<Error>>) {
    match e
    case Unsubscribe(g) => asked == [g] && sent == []
    case Cancel(_, err) => asked == [] && sent == [Value(err)]
    case Accept(_, decodes, g) => asked == [g] && sent == [Some(if decodes then Overflow else Undecodable)]
    case _ => false
  }

  /**
    When a subscription has ended, one event brought it about: its goroutine was the first through
    quitOnce.  If that is an Unsubscribe, the server has been asked once and err got nothing; if it is
    a cancellation, the server has not been asked and err got its error, nil for a closed client; if
    it is the forwarder's exit, both.
   */
  lemma HowItEnds(es: seq<Event>)
    requires Possible(INIT, es) && Run(INIT, es).quitOnce.Done?
    ensures exists e :: StartedBy(INIT, es, e) && CanStart(e) && Wins(INIT, es, e.g) &&
                        Outcome(e, Asked(es), Run(INIT, es).errSent)
  {
    WinnerRun(INIT, es);
    var e := WinnerWasStarted(INIT, es);
    var (g, pc) := Winner(INIT, es).value;
    if e.SeeQuit? {
      SeeQuitLoses(INIT, es, e);
    }
    assert Outcome(e, Asked(es), Run(INIT, es).errSent);
  }

  lemma {:induction false} StartedIsNew(s: State, es: seq<Event>, e: Event)
    requires Possible(s, es) && StartedBy(s, es, e)
    ensures CanStart(e) && e.g !in s.goroutines
    decreases |es|
  {
    if !(es[0] == e && Starts(s, e)) {
      StartedIsNew(Apply(s, es[0]), es[1..], e);
      GoroutinesStay(s, es[0]);
    }
  }

  lemma GoroutinesStay(s: State, e: Event)
    requires Enabled(s, e)
    ensures s.goroutines.Keys <= Apply(s, e).goroutines.Keys
  {
    if QuitEvent(e) {
      PastQuit(s, e);
    } else if ErrEvent(e) {
      PastErr(s, e);
    }
  }

  /** The forwarder sees quit closed only after somebody has won. */
  lemma {:induction false} SeeQuitLoses(s: State, es: seq<Event>, e: Event)
    requires OnceInv(s) && Possible(s, es) && e.SeeQuit? && StartedBy(s, es, e)
    ensures !Wins(s, es, e.g)
    decreases |es|
  {
    StartedIsNew(s, es, e);
    if !s.quitOnce.Fresh? {
      NobodyWins(s, es);
    } else if !es[0].EnterQuit? {
      OnceStep(s, es[0]);
      SeeQuitLoses(Apply(s, es[0]), es[1..], e);
    }
  }

  lemma {:induction false} NobodyWins(s: State, es: seq<Event>)
    requires OnceInv(s) && Possible(s, es) && !s.quitOnce.Fresh?
    ensures Winner(s, es).None?
    decreases |es|
  {
    if es != [] {
      OnceStep(s, es[0]);
      NobodyWins(Apply(s, es[0]), es[1..]);
    }
  }

  // ---- Unsubscribe ----

  /** No goroutine is started twice. */
  lemma {:induction false} StartedOnce(s: State, es: seq<Event>, e: Event, f: Event)
    requires Possible(s, es) && StartedBy(s, es, e) && StartedBy(s, es, f)
    requires CanStart(e) && CanStart(f) && e.g == f.g
    ensures e == f
    decreases |es|
  {
    var t := Apply(s, es[0]);
    if StartedBy(t, es[1..], e) {
      StartedIsNew(t, es[1..], e);
    }
    if StartedBy(t, es[1..], f) {
      StartedIsNew(t, es[1..], f);
    }
    if StartedBy(t, es[1..], e) && StartedBy(t, es[1..], f) {
      StartedOnce(t, es[1..], e, f);
    }
  }

  lemma {:induction false} UnsubscribeStarts(s: State, es: seq<Event>, g: nat)
    requires Possible(s, es) && Unsubscribe(g) in es
    ensures StartedBy(s, es, Unsubscribe(g))
    decreases |es|
  {
    if es[0] != Unsubscribe(g) {
      UnsubscribeStarts(Apply(s, es[0]), es[1..], g);
    }
  }

  lemma {:induction false} AskedIsIn(es: seq<Event>, g: nat)
    ensures g in Asked(es) <==> CallReturns(g) in es
  {
    if es != [] {
      AskedIsIn(es[1..], g);
    }
  }

  /** An Unsubscribe that is first through quitOnce asks the server, once, and nobody else does. */
  lemma UnsubscribeAsks(es: seq<Event>, g: nat)
    requires Possible(INIT, es) && Unsubscribe(g) in es && Wins(INIT, es, g) && Run(INIT, es).quitOnce.Done?
    ensures CallReturns(g) in es && Asked(es) == [g] && Run(INIT, es).errSent == []
  {
    HowItEnds(es);
    var e :| StartedBy(INIT, es, e) && CanStart(e) && Wins(INIT, es, e.g) && Outcome(e, Asked(es), Run(INIT, es).errSent);
    UnsubscribeStarts(INIT, es, g);
    StartedOnce(INIT, es, e, Unsubscribe(g));
    AskedIsIn(es, g);
  }

  /** On the way to closing err, or through with err closed. */
  ghost predicate ClosesErr(s: State, g: nat) {
    g in s.goroutines &&
    var pc := s.goroutines[g];
    if pc.AtQuit? || pc.Closing? || pc.Calling? || pc.Sending? then pc.thenErr
    else pc.Gone? ==> s.errClosed
  }

  lemma ClosesErrStep(s: State, e: Event, g: nat)
    requires OnceInv(s) && Enabled(s, e) && (ClosesErr(s, g) || e == Unsubscribe(g))
    ensures ClosesErr(Apply(s, e), g)
  {
    if QuitEvent(e) {
      PastQuit(s, e);
      ClosesErrQuit(s, e, g);
    }
  }

  lemma ClosesErrQuit(s: State, e: Event, g: nat)
    requires Enabled(s, e) && QuitEvent(e) && ClosesErr(s, g)
    ensures ClosesErr(Apply(s, e), g)
  {
    if e.g == g {
      OwnClosesErr(s, e);
    } else {
      PastQuit(s, e);
      assert Apply(s, e).errClosed == s.errClosed;
    }
  }

  lemma OwnClosesErr(s: State, e: Event)
    requires Enabled(s, e) && QuitEvent(e) && ClosesErr(s, e.g)
    ensures ClosesErr(Apply(s, e), e.g)
  {
    match e
    case EnterQuit(_) =>
    case CloseQuit(_) =>
    case CallReturns(_) =>
    case SendErr(_) =>
  }

  lemma {:induction false} ClosesErrRun(s: State, es: seq<Event>, g: nat)
    requires OnceInv(s) && Possible(s, es) && (ClosesErr(s, g) || Unsubscribe(g) in es)
    ensures ClosesErr(Run(s, es), g)
    decreases |es|
  {
    if es != [] {
      OnceStep(s, es[0]);
      if ClosesErr(s, g) || es[0] == Unsubscribe(g) {
        ClosesErrStep(s, es[0], g);
      }
      ClosesErrRun(Apply(s, es[0]), es[1..], g);
    }
  }

  /** When any Unsubscribe has returned, err is closed, whoever ended the subscription. */
  lemma UnsubscribeClosesErr(es: seq<Event>, g: nat)
    requires Possible(INIT, es) && Unsubscribe(g) in es
    ensures var s := Run(INIT, es);
            g in s.goroutines && (s.goroutines[g].Gone? ==> s.errClosed && s.quit && s.quitOnce.Done?)
  {
    ClosesErrRun(INIT, es, g);
    RunKeepsOnce(INIT, es);
  }

  /** ... and err is closed by nobody else. */
  lemma {:induction false} OnlyUnsubscribeClosesErr(s: State, es: seq<Event>)
    requires OnceInv(s) && Possible(s, es) && (forall e :: e in es ==> !e.Unsubscribe?)
    requires !s.errClosed && forall g :: g in s.goroutines ==> NeverCloses(s.goroutines[g])
    ensures !Run(s, es).errClosed
    decreases |es|
  {
    if es != [] {
      OnceStep(s, es[0]);
      NeverClosesStep(s, es[0]);
      OnlyUnsubscribeClosesErr(Apply(s, es[0]), es[1..]);
    }
  }

  predicate NeverCloses(pc: Pc) {
    if pc.AtQuit? || pc.Closing? || pc.Calling? || pc.Sending? then !pc.thenErr else pc.Gone?
  }

  lemma NeverClosesStep(s: State, e: Event)
    requires Enabled(s, e) && !e.Unsubscribe? && !s.errClosed
    requires forall g :: g in s.goroutines ==> NeverCloses(s.goroutines[g])
    ensures !Apply(s, e).errClosed && forall g :: g in Apply(s, e).goroutines ==> NeverCloses(Apply(s, e).goroutines[g])
  {
    if QuitEvent(e) {
      PastQuit(s, e);
      NeverClosesQuit(s, e);
    }
  }

  lemma NeverClosesQuit(s: State, e: Event)
    requires Enabled(s, e) && QuitEvent(e) && NeverCloses(s.goroutines[e.g])
    ensures NeverCloses(Apply(s, e).goroutines[e.g]) && Apply(s, e).errClosed == s.errClosed
  {
    match e
    case EnterQuit(_) =>
    case CloseQuit(_) =>
    case CallReturns(_) =>
    case SendErr(_) =>
  }

  lemma {:induction false} StartedIsIn(s: State, es: seq<Event>, e: Event)
    requires Possible(s, es) && StartedBy(s, es, e)
    ensures e in es
    decreases |es|
  {
    if es[0] != e {
      StartedIsIn(Apply(s, es[0]), es[1..], e);
    }
  }

  /** The user never reads ErrClientQuit on err, and reads nil only if the client was closed. */
  lemma NilMeansClosed(es: seq<Event>, v: Option<Error>)
    requires Possible(INIT, es) && v in Run(INIT, es).errSent
    ensures v != Some(ClientQuit)
    ensures v.None? ==> exists g :: Cancel(g, ClientQuit) in es
  {
    RunKeepsOnce(INIT, es);
    HowItEnds(es);
    var e :| StartedBy(INIT, es, e) && CanStart(e) && Wins(INIT, es, e.g) && Outcome(e, Asked(es), Run(INIT, es).errSent);
    StartedIsIn(INIT, es, e);
    assert v.None? ==> e == Cancel(e.g, ClientQuit);
  }

  // ---- that they get to the end ----

  /** How often the user has received from err. */
  function Reads(es: seq<Event>): nat {
    if es == [] then 0 else (if es[0].UserReadsErr? then 1 else 0) + Reads(es[1..])
  }

  /** What a step adds to what was sent on err. */
  function SentBy(s: State, e: Event): seq<Option<Error>>
    requires Enabled(s, e)
  {
    if e.SendErr? then [Value(s.goroutines[e.g].value)] else []
  }

  lemma SendErrKeeps(s: State, g: nat)
    requires Enabled(s, SendErr(g))
    ensures var t := Apply(s, SendErr(g));
            t.errBuf == s.errBuf + SentBy(s, SendErr(g)) && t.errSent == s.errSent + SentBy(s, SendErr(g))
  {
  }

  lemma OthersKeepErr(s: State, e: Event)
    requires Enabled(s, e) && !e.SendErr? && !e.UserReadsErr?
    ensures Apply(s, e).errBuf == s.errBuf && Apply(s, e).errSent == s.errSent
  {
    if QuitEvent(e) {
      match e
      case EnterQuit(_) =>
      case CloseQuit(_) =>
      case CallReturns(_) =>
    }
  }

  lemma ErrStepKeeps(s: State, e: Event, t: State)
    requires Enabled(s, e) && t == Apply(s, e) && !e.UserReadsErr?
    ensures t.errBuf == s.errBuf + SentBy(s, e) && t.errSent == s.errSent + SentBy(s, e)
  {
    if e.SendErr? {
      SendErrKeeps(s, e.g);
    } else {
      OthersKeepErr(s, e);
      assert t.errBuf == s.errBuf + [] && t.errSent == s.errSent + [];
    }
  }

  /** err holds what was sent on it less what has been received. */
  lemma {:induction false} ErrHoldsTheRest(s: State, es: seq<Event>, n: nat)
    requires Possible(s, es) && n <= |s.errSent| && s.errBuf == s.errSent[n..]
    ensures var t := Run(s, es); n + Reads(es) <= |t.errSent| && t.errBuf == t.errSent[n + Reads(es)..]
    decreases |es|
  {
    if es != [] {
      var t := Apply(s, es[0]);
      if es[0].UserReadsErr? {
        ErrHoldsTheRest(t, es[1..], n + 1);
      } else {
        ErrStepKeeps(s, es[0], t);
        assert t.errSent[n..] == s.errSent[n..] + SentBy(s, es[0]);
        ErrHoldsTheRest(t, es[1..], n);
      }
    }
  }

  lemma OneEvent(s: State, e: Event)
    requires Enabled(s, e)
    ensures Possible(s, [e]) && Run(s, [e]) == Apply(s, e)
  {
    Prepend(s, e, []);
  }

  lemma TwoEvents(s: State, e: Event, f: Event)
    requires Enabled(s, e) && Enabled(Apply(s, e), f)
    ensures Possible(s, [e, f]) && Run(s, [e, f]) == Apply(Apply(s, e), f)
  {
    OneEvent(Apply(s, e), f);
    Prepend(s, e, [f]);
  }

  /** Through quitOnce: asking the server if nobody was first. */
  lemma QuitPart(s: State, g: nat) returns (t: State)
    requires g in s.goroutines && s.goroutines[g] == AtQuit(true, None, true) && !s.quitOnce.Busy?
    ensures var es := [EnterQuit(g)] + if s.quitOnce.Fresh? then [CloseQuit(g), CallReturns(g)] else [];
            Possible(s, es) && Run(s, es) == t
    ensures g in t.goroutines && t.goroutines[g].AtErr? && t.quitOnce.Done? && t.errOnce == s.errOnce && t.errClosed == s.errClosed
  {
    var t1 := Apply(s, EnterQuit(g));
    OneEvent(s, EnterQuit(g));
    if s.quitOnce.Fresh? {
      var t2 := Apply(t1, CloseQuit(g));
      t := Apply(t2, CallReturns(g));
      TwoEvents(t1, CloseQuit(g), CallReturns(g));
      Join(s, [EnterQuit(g)], [CloseQuit(g), CallReturns(g)]);
    } else {
      t := t1;
      assert [EnterQuit(g)] + [] == [EnterQuit(g)];
    }
  }

  lemma ErrPart(s: State, g: nat) returns (t: State)
    requires g in s.goroutines && s.goroutines[g].AtErr? && !s.errOnce.Busy? && (s.errOnce.Done? ==> s.errClosed)
    ensures var es := [EnterErr(g)] + if s.errOnce.Fresh? then [CloseErr(g)] else [];
            Possible(s, es) && Run(s, es) == t
    ensures g in t.goroutines && t.goroutines[g].Gone? && t.errClosed
  {
    var t1 := Apply(s, EnterErr(g));
    OneEvent(s, EnterErr(g));
    if s.errOnce.Fresh? {
      t := Apply(t1, CloseErr(g));
      TwoEvents(s, EnterErr(g), CloseErr(g));
    } else {
      t := t1;
      assert [EnterErr(g)] + [] == [EnterErr(g)];
    }
  }

  /** Whenever nobody is in the middle of ending the subscription, Unsubscribe gets to its end by its own steps. */
  lemma UnsubscribeCanReturn(s: State, g: nat)
    requires OnceInv(s) && g !in s.goroutines && !s.quitOnce.Busy? && !s.errOnce.Busy?
    ensures exists es :: Possible(s, es) && Unsubscribe(g) in es &&
                         g in Run(s, es).goroutines && Run(s, es).goroutines[g].Gone? && Run(s, es).errClosed
  {
    var s1 := Apply(s, Unsubscribe(g));
    OneEvent(s, Unsubscribe(g));
    var s2 := QuitPart(s1, g);
    var s3 := ErrPart(s2, g);
    var quit := [EnterQuit(g)] + if s1.quitOnce.Fresh? then [CloseQuit(g), CallReturns(g)] else [];
    var err := [EnterErr(g)] + if s2.errOnce.Fresh? then [CloseErr(g)] else [];
    Join(s1, quit, err);
    Prepend(s, Unsubscribe(g), quit + err);
    assert Unsubscribe(g) in [Unsubscribe(g)] + (quit + err);
  }

  /** So does a cancellation that comes first, with its error in err. */
  lemma CancelCanFinish(s: State, g: nat, err: Error)
    requires OnceInv(s) && g !in s.goroutines && s.quitOnce.Fresh?
    ensures var es := [Cancel(g, err), EnterQuit(g)] + [CloseQuit(g), SendErr(g)];
            Possible(s, es) && Run(s, es).quitOnce.Done? && Run(s, es).quit && Run(s, es).errSent == [Value(err)]
  {
    var s1 := Apply(s, Cancel(g, err));
    var s2 := Apply(s1, EnterQuit(g));
    TwoEvents(s, Cancel(g, err), EnterQuit(g));
    var s3 := Apply(s2, CloseQuit(g));
    TwoEvents(s2, CloseQuit(g), SendErr(g));
    Join(s, [Cancel(g, err), EnterQuit(g)], [CloseQuit(g), SendErr(g)]);
  }
}
