/** ClientSubscription as the object it is: each goroutine's steps as methods, forward as its loop. */
module ClientSubscriptions {
  import opened Wrappers
  import opened Subscription

  class ClientSubscription {
    var quit: bool
    var errBuf: seq<Option<Error>>
    var errClosed: bool
    var quitOnce: Once
    var errOnce: Once
    var goroutines: map<nat, Pc>
    var forwarder: Forwarder
    var buffer: seq<Raw>
    var fault: Fault
    ghost var arrived: seq<Raw>
    ghost var taken: seq<nat>
    ghost var accepted: seq<Raw>
    ghost var delivered: seq<Raw>
    ghost var errSent: seq<Option<Error>>
    ghost var lateTake: bool

    ghost function Now(): State
      reads this
    {
      State(quit, errBuf, errClosed, quitOnce, errOnce, goroutines, forwarder, buffer, fault,
            arrived, taken, accepted, delivered, errSent, lateTake)
    }

    constructor ()
      ensures Now() == INIT
    {
      quit, errBuf, errClosed, quitOnce, errOnce := false, [], false, Fresh, Fresh;
      goroutines, forwarder, buffer, fault := map[], NotStarted, [], NoFault;
      arrived, taken, accepted, delivered, errSent, lateTake := [], [], [], [], [], false;
    }

    /** A goroutine enters Unsubscribe, or dispatch's cancellation. */
    method EnterEnding(e: Event)
      requires Enabled(Now(), e) && (e.Unsubscribe? || e.Cancel?)
      modifies this
      ensures Now() == Apply(old(Now()), e)
    {
      var err := if e.Unsubscribe? then None else Some(e.err);
      goroutines := goroutines[e.g := AtQuit(e.Unsubscribe?, err, e.Unsubscribe?)];
    }

    /** quitOnce.Do: into the body, or past a body that is complete. */
    method EnterQuitOnce(g: nat)
      requires Enabled(Now(), EnterQuit(g))
      modifies this
      ensures Now() == Apply(old(Now()), EnterQuit(g))
    {
      var pc := goroutines[g];
      if quitOnce.Fresh? {
        quitOnce := Busy(g);
        goroutines := goroutines[g := Closing(pc.unsub, pc.err, pc.thenErr)];
      } else {
        goroutines := goroutines[g := AfterQuit(pc.thenErr)];
      }
    }

    /** close(sub.quit), and on to the unsubscribe request if there is to be one. */
    method CloseQuitChannel(g: nat)
      requires Enabled(Now(), CloseQuit(g))
      modifies this
      ensures Now() == Apply(old(Now()), CloseQuit(g))
    {
      var pc := goroutines[g];
      if quit {
        fault := CloseOfClosed;
      }
      quit := true;
      if pc.unsub {
        goroutines := goroutines[g := Calling(pc.err, pc.thenErr)];
      } else {
        FinishCall(g, pc.err, pc.thenErr);
      }
    }

    /** sub.err <- err, with nil standing for a client that was closed. */
    method SendErrValue(g: nat)
      requires Enabled(Now(), SendErr(g))
      modifies this
      ensures Now() == Apply(old(Now()), SendErr(g))
    {
      var pc := goroutines[g];
      var value := if pc.value == ClientQuit then None else Some(pc.value);
      PutErr(value);
      quitOnce := Done;
      goroutines := goroutines[g := AfterQuit(pc.thenErr)];
    }

    method PutErr(value: Option<Error>)
      modifies this`fault, this`errBuf, this`errSent
      ensures errBuf == old(errBuf) + [value] && errSent == old(errSent) + [value]
      ensures fault == if errClosed then SendOnClosed else if old(errBuf) != [] then SendBlocks else old(fault)
    {
      if errClosed {
        fault := SendOnClosed;
      } else if errBuf != [] {
        fault := SendBlocks;
      }
      errBuf := errBuf + [value];
      errSent := errSent + [value];
    }

    method FinishCall(g: nat, err: Option<Error>, thenErr: bool)
      modifies this
      ensures Now() == AfterCall(old(Now()), g, err, thenErr)
    {
      if err.Some? {
        goroutines := goroutines[g := Sending(err.value, thenErr)];
      } else {
        goroutines := goroutines[g := AfterQuit(thenErr)];
        quitOnce := Done;
      }
    }

    /** errOnce.Do(func() { close(sub.err) }) */
    method ErrStep(e: Event)
      requires Enabled(Now(), e) && ErrEvent(e)
      modifies this
      ensures Now() == Apply(old(Now()), e)
    {
      if e.EnterErr? {
        if errOnce.Fresh? {
          errOnce := Busy(e.g);
          goroutines := goroutines[e.g := ClosingErr];
        } else {
          goroutines := goroutines[e.g := Gone];
        }
      } else {
        if errClosed {
          fault := CloseOfClosed;
        }
        errClosed := true;
        errOnce := Done;
        goroutines := goroutines[e.g := Gone];
      }
    }

    /** deliver gives the value up. */
    method Deliver(raw: Raw)
      requires Enabled(Now(), Drop(raw))
      modifies this
      ensures Now() == Apply(old(Now()), Drop(raw))
    {
      arrived := arrived + [raw];
    }

    /** One step of a goroutine that ends the subscription. */
    method EndingStep(e: Event)
      requires Enabled(Now(), e) && (e.Unsubscribe? || e.Cancel? || QuitEvent(e) || ErrEvent(e))
      modifies this
      ensures Now() == Apply(old(Now()), e)
    {
      match e
      case EnterQuit(g) => EnterQuitOnce(g);
      case CloseQuit(g) => CloseQuitChannel(g);
      case CallReturns(g) => FinishCall(g, goroutines[g].err, goroutines[g].thenErr);
      case SendErr(g) => SendErrValue(g);
      case EnterErr(_) => ErrStep(e);
      case CloseErr(_) => ErrStep(e);
      case Unsubscribe(_) => EnterEnding(e);
      case Cancel(_, _) => EnterEnding(e);
    }

    /** One step of dispatch, the forwarder or the user. */
    method ValueStep(e: Event)
      requires Enabled(Now(), e) && (e.Drop? || e.Start? || e.UserReadsErr? || e.Accept? || e.Push? || e.SeeQuit?)
      modifies this
      ensures Now() == Apply(old(Now()), e)
    {
      match e
      case Drop(raw) => Deliver(raw);
      case Start => forwarder := Looping;
      case UserReadsErr => errBuf := errBuf[1..];
      case Accept(_, _, _) => ForwardStep(e);
      case Push => ForwardStep(e);
      case SeeQuit(_) => ForwardStep(e);
    }

    /**
      The subscription under any schedule of its goroutines: the object follows the step machine, no
      channel is closed twice, sent on when closed or when full, and the queue is conserved.
     */
    method ServeAll(events: seq<Event>)
      requires OnceInv(Now()) && QueueInv(Now()) && Possible(Now(), events)
      modifies this
      ensures Now() == Run(old(Now()), events)
      ensures OnceInv(Now()) && QueueInv(Now())
      ensures fault.NoFault? && |errBuf| <= 1 && |buffer| <= 20000
    {
      var i := 0;
      while i < |events|
        invariant 0 <= i <= |events|
        invariant Possible(Now(), events[i..]) && Run(Now(), events[i..]) == Run(old(Now()), events)
        invariant OnceInv(Now()) && QueueInv(Now())
      {
        var e := events[i];
        assert events[i..][0] == e && events[i..][1..] == events[i + 1..];
        OnceStep(Now(), e);
        QueueStep(Now(), e);
        if e.Unsubscribe? || e.Cancel? || QuitEvent(e) || ErrEvent(e) {
          EndingStep(e);
        } else {
          ValueStep(e);
        }
        i := i + 1;
      }
      assert events[i..] == [];
    }

    /**
      The forward loop, fed with the choices its select makes.  It stops at the choice that ends it,
      leaves the state of the step machine after the choices it took, and the queue is conserved.
     */
    method Forward(choices: seq<Event>) returns (n: nat)
      requires QueueInv(Now()) && forwarder.Looping?
      requires Possible(Now(), choices)
      requires forall e :: e in choices ==> e.Accept? || e.Push? || e.SeeQuit?
      modifies this
      ensures n <= |choices| && Possible(old(Now()), choices[..n])
      ensures Now() == Run(old(Now()), choices[..n])
      ensures QueueInv(Now())
      ensures forwarder.Ended? || n == |choices|
    {
      n := 0;
      ghost var was := Now();
      while n < |choices| && forwarder.Looping?
        invariant n <= |choices|
        invariant Possible(was, choices[..n]) && Now() == Run(was, choices[..n])
        invariant Possible(Now(), choices[n..])
        invariant QueueInv(Now()) && !forwarder.NotStarted?
      {
        assert choices[n..][0] == choices[n] && choices[n..][1..] == choices[n + 1..];
        ForwardOne(choices[n], was, choices[..n]);
        assert choices[..n + 1] == choices[..n] + [choices[n]];
        n := n + 1;
      }
    }

    /** One more choice after those in `done`. */
    method ForwardOne(e: Event, ghost was: State, ghost done: seq<Event>)
      requires QueueInv(Now()) && forwarder.Looping?
      requires Possible(was, done) && Now() == Run(was, done)
      requires Enabled(Now(), e) && (e.Accept? || e.Push? || e.SeeQuit?)
      modifies this
      ensures Now() == Apply(old(Now()), e) && !forwarder.NotStarted?
      ensures Possible(was, done + [e]) && Now() == Run(was, done + [e])
      ensures QueueInv(Now())
    {
      QueueStep(Now(), e);
      OneMore(was, done, e);
      ForwardStep(e);
    }

    method ForwardStep(e: Event)
      requires Enabled(Now(), e) && (e.Accept? || e.Push? || e.SeeQuit?)
      modifies this
      ensures Now() == Apply(old(Now()), e)
    {
      if e.SeeQuit? {
        Return(e.g, false, None);
      } else if e.Push? {
        delivered := delivered + [buffer[0]];
        buffer := buffer[1..];
      } else {
        Receive(e.raw, e.decodes, e.g);
      }
    }

    /** Keeps the history of what arrived and what was taken. */
    ghost method Note(raw: Raw)
      modifies this`lateTake, this`taken, this`arrived
      ensures lateTake == (old(lateTake) || |old(taken)| < |old(arrived)|)
      ensures taken == old(taken) + [|old(arrived)|] && arrived == old(arrived) + [raw]
    {
      lateTake := lateTake || |taken| < |arrived|;
      taken := taken + [|arrived|];
      arrived := arrived + [raw];
    }

    /** case 1 of the select: a value from dispatch. */
    method Receive(raw: Raw, decodes: bool, g: nat)
      requires Enabled(Now(), Accept(raw, decodes, g))
      modifies this
      ensures Now() == Apply(old(Now()), Accept(raw, decodes, g))
    {
      Note(raw);
      if !decodes {
        Return(g, true, Some(Undecodable));
      } else if |buffer| == MAX_BUFFER {
        Return(g, true, Some(Overflow));
      } else {
        buffer := buffer + [raw];
        accepted := accepted + [raw];
      }
    }

    method Return(g: nat, unsub: bool, err: Option<Error>)
      modifies this
      ensures Now() == EndForward(old(Now()), g, unsub, err)
    {
      goroutines := goroutines[g := AtQuit(unsub, err, false)];
      forwarder := Ended;
      buffer := [];
    }
  }
}
