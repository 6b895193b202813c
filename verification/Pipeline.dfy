/**
  One subscription from end to end: the server's Notifier, the connection as a FIFO of written
  messages, and the client that registers the subscription and forwards its values.
 */
module Pipeline {
  import opened Wrappers
  import S = Subscription

  type Raw = S.Raw

  /** What of this subscription's traffic is on the wire; Other is everybody else's. */
  datatype Item = Answer | Refusal | Note(raw: Raw) | Other

  datatype State = State(
    // the server's notifier and call goroutine
    created: bool,
    callReturned: bool,
    answered: bool,        // the call's answer has been handed to the connection, or there is none
    quiet: bool,           // the call came without an id, so it gets no answer
    activateDone: bool,
    activated: bool,
    buffer: seq<Raw>,
    // the connection
    broken: bool,          // a write has failed
    wire: seq<Item>,       // everything written successfully, in order
    read: nat,             // how much of it the client has handled
    // the client
    waiting: bool,         // the request is still registered in respWait
    registered: bool,      // the subscription is in clientSubs
    sub: S.State,
    // history
    notified: seq<Raw>,    // every value passed to Notify, in lock order
    answerAt: Option<nat>) // where in wire the answer went

  const INIT := State(false, false, false, false, false, false, [], false, [], 0, true, false, S.INIT, [], None)

  datatype Event =
    | Create
    | Notify(raw: Raw, ok: bool)
    | TakeSubscription
    | WriteAnswer(accepts: bool, ok: bool)
    | SkipAnswer
    | Activate(written: nat)
    | OtherTraffic(ok: bool)
    | Read(how: S.Event)
    | GiveUp
    | Disconnect(g: nat, err: S.Error)
    | Local(e: S.Event)

  predicate Handles(s: State, how: S.Event)
    requires s.read < |s.wire|
  {
    match s.wire[s.read]
    case Note(raw) =>
      s.registered ==> (how.Accept? || how.Drop?) && how.raw == raw && S.Enabled(s.sub, how)
    case _ => true
  }

  predicate Enabled(s: State, e: Event) {
    match e
    case Create => !s.created && !s.callReturned
    case Notify(_, _) => s.created
    case TakeSubscription => !s.callReturned
    case WriteAnswer(_, _) => s.callReturned && !s.answered
    case SkipAnswer => s.callReturned && !s.answered
    case Activate(written) => s.answered && !s.activateDone && written <= |s.buffer|
    case OtherTraffic(_) => true
    case Read(how) => s.read < |s.wire| && Handles(s, how)
    case GiveUp => s.waiting
    case Disconnect(g, err) => S.Enabled(s.sub, S.Cancel(g, err))
    case Local(e) => !e.Accept? && !e.Drop? && S.Enabled(s.sub, e)
  }

  function AsNotes(raws: seq<Raw>): (items: seq<Item>)
    ensures |items| == |raws|
  {
    seq(|raws|, i requires 0 <= i < |raws| => Note(raws[i]))
  }

  /** The client is left alone, and the wire grows at its end; the answer, if this is it, is what comes next. */
  predicate WritesOnly(s: State, t: State) {
    && t.read == s.read && t.waiting == s.waiting && t.registered == s.registered && t.sub == s.sub
    && s.wire <= t.wire && (s.activateDone ==> t.activateDone)
    && (t.answerAt == s.answerAt || t.answerAt == Some(|s.wire|))
  }

  predicate SameCall(s: State, t: State) {
    t.created == s.created && t.callReturned == s.callReturned
  }

  /** Notify: send when activated, buffer until then. */
  function ApplyNotify(s: State, raw: Raw, ok: bool): (t: State)
    ensures t.notified == s.notified + [raw] && SameCall(s, t)
    ensures WritesOnly(s, t) && t.quiet == s.quiet
  {
    var t := s.(notified := s.notified + [raw]);
    if !s.activated then t.(buffer := s.buffer + [raw])
    else if ok then t.(wire := s.wire + [Note(raw)])
    else t.(broken := true)
  }

  /** activate: send what is buffered, up to the first failure. */
  function ApplyActivate(s: State, written: nat): (t: State)
    requires written <= |s.buffer|
    ensures t.notified == s.notified && SameCall(s, t)
    ensures WritesOnly(s, t) && t.quiet == s.quiet
  {
    s.(activateDone := true, activated := written == |s.buffer|,
       wire := s.wire + AsNotes(s.buffer[..written]),
       broken := s.broken || written < |s.buffer|)
  }

  function ApplyAnswer(s: State, accepts: bool, ok: bool): (t: State)
    ensures t.notified == s.notified && SameCall(s, t)
    ensures WritesOnly(s, t) && t.quiet == s.quiet
  {
    var t := s.(answered := true);
    if ok then t.(wire := s.wire + [if accepts then Answer else Refusal], answerAt := Some(|s.wire|))
    else t.(broken := true)
  }

  /** sub is the subscription after a notification has been delivered to it. */
  function AfterRead(s: State, item: Item, sub: S.State): (t: State)
    ensures t.sub == if item.Note? && s.registered then sub else s.sub
  {
    var t := s.(read := s.read + 1);
    match item
    case Answer => if s.waiting then t.(registered := true, waiting := false) else t
    case Refusal => t.(waiting := false)
    case Note(_) => if s.registered then t.(sub := sub) else t
    case Other => t
  }

  function ApplyRead(s: State, how: S.Event): State
    requires s.read < |s.wire| && Handles(s, how)
  {
    var item := s.wire[s.read];
    AfterRead(s, item, if item.Note? && s.registered then S.Apply(s.sub, how) else s.sub)
  }

  /** Steps of the server and its writes. */
  predicate ServerEvent(e: Event) {
    e.Create? || e.Notify? || e.TakeSubscription? || e.WriteAnswer? || e.SkipAnswer? || e.Activate? || e.OtherTraffic?
  }

  function ApplyServer(s: State, e: Event): (t: State)
    requires Enabled(s, e) && ServerEvent(e)
    ensures WritesOnly(s, t) && (!e.SkipAnswer? ==> t.quiet == s.quiet)
    ensures (!e.WriteAnswer? ==> t.answerAt == s.answerAt) && (e.Activate? ==> t.activateDone)
    ensures (t.created <==> s.created || e.Create?) && (t.callReturned <==> s.callReturned || e.TakeSubscription?)
    ensures t.notified == if e.Notify? then s.notified + [e.raw] else s.notified
  {
    match e
    case Create => s.(created := true)
    case Notify(raw, ok) => ApplyNotify(s, raw, ok)
    case TakeSubscription => s.(callReturned := true)
    case WriteAnswer(accepts, ok) => ApplyAnswer(s, accepts, ok)
    case SkipAnswer => s.(answered := true, quiet := true)
    case Activate(written) => ApplyActivate(s, written)
    case OtherTraffic(ok) => if ok then s.(wire := s.wire + [Other]) else s.(broken := true)
  }

  function Apply(s: State, e: Event): State
    requires Enabled(s, e)
  {
    match e
    case Read(how) => ApplyRead(s, how)
    case GiveUp => s.(waiting := false)
    case Disconnect(g, err) => s.(registered := false, waiting := false, sub := S.Apply(s.sub, S.Cancel(g, err)))
    case Local(l) => s.(sub := S.Apply(s.sub, l))
    case _ => ApplyServer(s, e)
  }

  /** No write succeeds after one has failed. */
  predicate Honest(s: State, e: Event) {
    match e
    case Notify(_, ok) => s.activated && ok ==> !s.broken
    case WriteAnswer(_, ok) => ok ==> !s.broken
    case Activate(written) => written > 0 ==> !s.broken
    case OtherTraffic(ok) => ok ==> !s.broken
    case _ => true
  }

  predicate Possible(s: State, es: seq<Event>)
    decreases |es|
  {
    es == [] || (Enabled(s, es[0]) && Honest(s, es[0]) && Possible(Apply(s, es[0]), es[1..]))
  }

  function Run(s: State, es: seq<Event>): State
    requires Possible(s, es)
    decreases |es|
  {
    if es == [] then s else Run(Apply(s, es[0]), es[1..])
  }

  // ---- the invariant ----

  function Notes(items: seq<Item>): seq<Raw> {
    if items == [] then []
    else Notes(items[..|items| - 1]) + (if items[|items| - 1].Note? then [items[|items| - 1].raw] else [])
  }

  lemma {:induction false} NotesJoin(a: seq<Item>, b: seq<Item>)
    ensures Notes(a + b) == Notes(a) + Notes(b)
  {
    if b == [] {
      assert a + b == a;
    } else {
      NotesJoin(a, b[..|b| - 1]);
      assert (a + b)[..|a + b| - 1] == a + b[..|b| - 1];
    }
  }

  lemma {:induction false} NotesOfNotes(raws: seq<Raw>)
    ensures Notes(AsNotes(raws)) == raws
  {
    if raws != [] {
      NotesOfNotes(raws[..|raws| - 1]);
      assert AsNotes(raws)[..|raws| - 1] == AsNotes(raws[..|raws| - 1]);
    }
  }

  lemma {:induction false} NoNotes(items: seq<Item>)
    requires forall i :: 0 <= i < |items| ==> !items[i].Note?
    ensures Notes(items) == []
  {
    if items != [] {
      NoNotes(items[..|items| - 1]);
    }
  }

  lemma NotesPrefix(items: seq<Item>, n: nat)
    requires n <= |items|
    ensures Notes(items[..n]) <= Notes(items)
  {
    var first, rest := items[..n], items[n..];
    assert items == first + rest;
    NotesJoin(first, rest);
  }

  ghost predicate ServerInv(s: State) {
    && Notes(s.wire) <= s.notified
    && (!s.answered ==> s.answerAt.None? && !s.activateDone)
    && (s.quiet ==> s.answered && s.answerAt.None?)
    && (s.answered && s.answerAt.None? ==> s.broken || s.quiet)
    && (!s.activateDone ==> Notes(s.wire) == [] && s.notified == s.buffer && !s.activated)
    && (s.activateDone && !s.activated ==> s.broken)
    && (s.activated && !s.broken ==> Notes(s.wire) == s.notified)
  }

  /** The answer precedes every notification. */
  ghost predicate WireInv(s: State) {
    && (s.answerAt.Some? ==> s.answerAt.value < |s.wire|)
    && (forall i :: 0 <= i < |s.wire| ==>
          ((s.wire[i].Answer? || s.wire[i].Refusal?) <==> s.answerAt == Some(i)))
    && (forall i :: 0 <= i < |s.wire| && s.wire[i].Note? ==> s.quiet || (s.answerAt.Some? && s.answerAt.value < i))
  }

  ghost predicate ClientInv(s: State) {
    && s.read <= |s.wire|
    && S.OnceInv(s.sub) && S.QueueInv(s.sub)
    && s.sub.arrived <= Notes(s.wire[..s.read])
    && (s.registered ==> s.sub.arrived == Notes(s.wire[..s.read]))
    && (s.answerAt.None? || s.read <= s.answerAt.value ==> !s.registered && s.sub.arrived == [])
  }

  ghost predicate Inv(s: State) {
    ServerInv(s) && WireInv(s) && ClientInv(s)
  }

  lemma InitInv()
    ensures Inv(INIT)
  {
    assert S.Contiguous(S.INIT.taken);
  }

  /** The server writes some items; the client's view of what it has read stays. */
  lemma WritingKeepsClient(s: State, t: State)
    requires ClientInv(s) && s.wire <= t.wire
    requires t.read == s.read && t.sub == s.sub && t.registered == s.registered
    requires t.answerAt == s.answerAt || (s.answerAt.None? && t.answerAt == Some(|s.wire|))
    ensures ClientInv(t)
  {
    assert t.wire[..t.read] == s.wire[..s.read];
  }

  lemma NotesOne(item: Item)
    ensures Notes([item]) == if item.Note? then [item.raw] else []
  {
    assert [item][..0] == [];
  }

  lemma NotifySendKeepsInv(s: State, raw: Raw, t: State)
    requires Inv(s) && s.activated && !s.broken
    requires t == s.(wire := s.wire + [Note(raw)], notified := s.notified + [raw])
    ensures Inv(t)
  {
    NotesJoin(s.wire, [Note(raw)]);
    NotesOne(Note(raw));
    WritingKeepsClient(s, t);
    NoteKeepsWire(s, raw, t);
  }

  lemma NoteKeepsWire(s: State, raw: Raw, t: State)
    requires WireInv(s) && ServerInv(s) && s.activated && !s.broken
    requires t == s.(wire := s.wire + [Note(raw)], notified := s.notified + [raw])
    ensures WireInv(t)
  {
  }

  /** Buffered, or lost to a failing write: the wire stays as it is. */
  lemma NotifyKeepsWire(s: State, raw: Raw, ok: bool)
    requires Inv(s) && (s.activated ==> !ok)
    ensures Inv(ApplyNotify(s, raw, ok))
  {
  }

  lemma NotifyKeepsInv(s: State, e: Event)
    requires Inv(s) && Enabled(s, e) && Honest(s, e) && e.Notify?
    ensures Inv(Apply(s, e))
  {
    if s.activated && e.ok {
      NotifySendKeepsInv(s, e.raw, Apply(s, e));
    } else {
      NotifyKeepsWire(s, e.raw, e.ok);
    }
  }

  /** The wire after an item that is no notification. */
  lemma PlainWriteKeepsInv(s: State, t: State, item: Item)
    requires Inv(s) && !item.Note?
    requires t == s.(wire := s.wire + [item], answered := t.answered, answerAt := t.answerAt)
    requires if item.Other? then t.answered == s.answered && t.answerAt == s.answerAt
             else !s.answered && t.answered && t.answerAt == Some(|s.wire|)
    ensures Inv(t)
  {
    NotesJoin(s.wire, [item]);
    NotesOne(item);
    WritingKeepsClient(s, t);
    assert WireInv(t);
  }

  lemma FailedWriteKeepsInv(s: State, t: State)
    requires Inv(s)
    requires t == s.(broken := true, answered := t.answered) && (s.answered ==> t.answered)
    ensures Inv(t)
  {
  }

  lemma WriteAnswerKeepsInv(s: State, e: Event)
    requires Inv(s) && Enabled(s, e) && Honest(s, e) && e.WriteAnswer?
    ensures Inv(Apply(s, e))
  {
    if e.ok {
      PlainWriteKeepsInv(s, Apply(s, e), if e.accepts then Answer else Refusal);
    } else {
      FailedWriteKeepsInv(s, Apply(s, e));
    }
  }

  lemma OtherTrafficKeepsInv(s: State, e: Event)
    requires Inv(s) && Enabled(s, e) && Honest(s, e) && e.OtherTraffic?
    ensures Inv(Apply(s, e))
  {
    if e.ok {
      PlainWriteKeepsInv(s, Apply(s, e), Other);
    } else {
      FailedWriteKeepsInv(s, Apply(s, e));
    }
  }

  lemma ActivateKeepsInv(s: State, e: Event)
    requires Inv(s) && Enabled(s, e) && Honest(s, e) && e.Activate?
    ensures Inv(Apply(s, e))
  {
    var sent := s.buffer[..e.written];
    NotesJoin(s.wire, AsNotes(sent));
    NotesOfNotes(sent);
    ActivatedKeepsInv(s, e.written, Apply(s, e));
  }

  lemma ActivatedKeepsInv(s: State, written: nat, t: State)
    requires Inv(s) && s.answered && !s.activateDone && written <= |s.buffer| && (written > 0 ==> !s.broken)
    requires t == ApplyActivate(s, written) && Notes(t.wire) == Notes(s.wire) + s.buffer[..written]
    ensures Inv(t)
  {
    WritingKeepsClient(s, t);
  }

  lemma ReadNotes(s: State)
    requires Inv(s) && s.read < |s.wire|
    ensures var item := s.wire[s.read];
            Notes(s.wire[..s.read + 1]) == Notes(s.wire[..s.read]) + (if item.Note? then [item.raw] else [])
  {
    var item := s.wire[s.read];
    assert s.wire[..s.read + 1] == s.wire[..s.read] + [item];
    NotesJoin(s.wire[..s.read], [item]);
    NotesOne(item);
  }

  lemma ReadNoteKeepsClient(s: State, how: S.Event)
    requires Inv(s) && Enabled(s, Read(how)) && s.wire[s.read].Note?
    ensures ClientInv(Apply(s, Read(how)))
  {
    ReadNotes(s);
    if s.registered {
      HandedOver(s.sub, how);
    }
  }

  /** deliver either hands the value over or gives it up. */
  lemma HandedOver(sub: S.State, how: S.Event)
    requires S.OnceInv(sub) && S.QueueInv(sub) && S.Enabled(sub, how) && (how.Accept? || how.Drop?)
    ensures var t := S.Apply(sub, how); S.OnceInv(t) && S.QueueInv(t) && t.arrived == sub.arrived + [how.raw]
  {
    S.OnceStep(sub, how);
    S.QueueStep(sub, how);
    S.ArrivalStep(sub, how, S.Apply(sub, how));
  }

  lemma ReadAnswerKeepsClient(s: State, how: S.Event)
    requires Inv(s) && Enabled(s, Read(how)) && !s.wire[s.read].Note?
    ensures ClientInv(Apply(s, Read(how)))
  {
    var item := s.wire[s.read];
    var t := AfterRead(s, item, s.sub);
    ReadNotes(s);
    assert Apply(s, Read(how)) == t;
    if item.Answer? {
      NoNotes(s.wire[..s.read]);
    }
    SkipFrame(s, item, t);
    SkippedKeepsClient(s, item, t);
  }

  lemma SkipFrame(s: State, item: Item, t: State)
    requires !item.Note? && t == AfterRead(s, item, s.sub)
    ensures t.wire == s.wire && t.read == s.read + 1 && t.sub == s.sub && t.answerAt == s.answerAt
    ensures t.registered ==> s.registered || item.Answer?
  {
    match item
    case Answer =>
    case Refusal =>
    case Other =>
  }

  /** Nothing of the subscription's own values has been read. */
  lemma SkippedKeepsClient(s: State, item: Item, t: State)
    requires Inv(s) && s.read < |s.wire| && item == s.wire[s.read] && !item.Note?
    requires Notes(s.wire[..s.read + 1]) == Notes(s.wire[..s.read]) && (item.Answer? ==> Notes(s.wire[..s.read]) == [])
    requires t.wire == s.wire && t.read == s.read + 1 && t.sub == s.sub && t.answerAt == s.answerAt
    requires t.registered ==> s.registered || item.Answer?
    ensures ClientInv(t)
  {
  }

  lemma ReadKeepsInv(s: State, e: Event)
    requires Inv(s) && Enabled(s, e) && e.Read?
    ensures Inv(Apply(s, e))
  {
    if s.wire[s.read].Note? {
      ReadNoteKeepsClient(s, e.how);
    } else {
      ReadAnswerKeepsClient(s, e.how);
    }
    ReadLeavesServer(s, s.wire[s.read], Apply(s, e).sub);
    ClientStepKeepsInv(s, Apply(s, e));
  }

  ghost predicate SameServer(s: State, t: State) {
    && t.answered == s.answered && t.quiet == s.quiet && t.answerAt == s.answerAt && t.activateDone == s.activateDone
    && t.activated == s.activated && t.buffer == s.buffer && t.broken == s.broken
    && t.wire == s.wire && t.notified == s.notified
  }

  lemma ReadLeavesServer(s: State, item: Item, sub: S.State)
    ensures SameServer(s, AfterRead(s, item, sub))
  {
    match item
    case Answer =>
    case Refusal =>
    case Note(_) =>
    case Other =>
  }

  lemma ClientStepKeepsInv(s: State, t: State)
    requires Inv(s) && ClientInv(t) && SameServer(s, t)
    ensures Inv(t)
  {
  }

  lemma LocalStepKeepsArrived(s: S.State, e: S.Event)
    requires S.OnceInv(s) && S.QueueInv(s) && S.Enabled(s, e) && !e.Accept? && !e.Drop?
    ensures S.Apply(s, e).arrived == s.arrived
    ensures S.OnceInv(S.Apply(s, e)) && S.QueueInv(S.Apply(s, e))
  {
    S.OnceStep(s, e);
    S.QueueStep(s, e);
  }

  lemma StepKeepsInv(s: State, e: Event)
    requires Inv(s) && Enabled(s, e) && Honest(s, e)
    ensures Inv(Apply(s, e))
  {
    match e
    case Notify(_, _) => NotifyKeepsInv(s, e);
    case WriteAnswer(_, _) => WriteAnswerKeepsInv(s, e);
    case Activate(_) => ActivateKeepsInv(s, e);
    case OtherTraffic(_) => OtherTrafficKeepsInv(s, e);
    case Read(_) => ReadKeepsInv(s, e);
    case Disconnect(g, err) => LocalStepKeepsArrived(s.sub, S.Cancel(g, err));
    case Local(l) => LocalStepKeepsArrived(s.sub, l);
    case Create =>
    case TakeSubscription =>
    case SkipAnswer =>
    case GiveUp =>
  }

  lemma {:induction false} RunKeepsInv(s: State, es: seq<Event>)
    requires Inv(s) && Possible(s, es)
    ensures Inv(Run(s, es))
    decreases |es|
  {
    if es != [] {
      StepKeepsInv(s, es[0]);
      RunKeepsInv(Apply(s, es[0]), es[1..]);
    }
  }

  // ---- order from end to end ----

  /** What a step does to the client's subscription. */
  function SubEvent(s: State, e: Event): seq<S.Event>
    requires Enabled(s, e)
  {
    match e
    case Read(how) => if s.wire[s.read].Note? && s.registered then [how] else []
    case Disconnect(g, err) => [S.Cancel(g, err)]
    case Local(l) => [l]
    case _ => []
  }

  function SubEvents(s: State, es: seq<Event>): seq<S.Event>
    requires Possible(s, es)
    decreases |es|
  {
    if es == [] then [] else SubEvent(s, es[0]) + SubEvents(Apply(s, es[0]), es[1..])
  }

  lemma SubStep(s: State, e: Event)
    requires Enabled(s, e)
    ensures var local := SubEvent(s, e);
            if local == [] then Apply(s, e).sub == s.sub
            else |local| == 1 && S.Enabled(s.sub, local[0]) && Apply(s, e).sub == S.Apply(s.sub, local[0])
  {
    if e.Read? {
      ReadSub(s, e.how);
    }
  }

  lemma ReadSub(s: State, how: S.Event)
    requires Enabled(s, Read(how))
    ensures Apply(s, Read(how)).sub == if s.wire[s.read].Note? && s.registered then S.Apply(s.sub, how) else s.sub
  {
    assert Apply(s, Read(how)) == ApplyRead(s, how);
  }

  /** A run of the pipeline is a run of the subscription. */
  lemma {:induction false} SubRun(s: State, es: seq<Event>)
    requires Possible(s, es)
    ensures S.Possible(s.sub, SubEvents(s, es)) && S.Run(s.sub, SubEvents(s, es)) == Run(s, es).sub
    decreases |es|
  {
    if es != [] {
      var t := Apply(s, es[0]);
      var local, rest := SubEvent(s, es[0]), SubEvents(t, es[1..]);
      SubRun(t, es[1..]);
      SubStep(s, es[0]);
      if local == [] {
        assert local + rest == rest;
      } else {
        assert local == [local[0]];
        S.Prepend(s.sub, local[0], rest);
      }
    }
  }

  lemma ArrivedWasNotified(es: seq<Event>)
    requires Possible(INIT, es)
    ensures var s := Run(INIT, es); s.sub.arrived <= s.notified && S.QueueInv(s.sub)
  {
    InitInv();
    RunKeepsInv(INIT, es);
    var s := Run(INIT, es);
    NotesPrefix(s.wire, s.read);
  }

  /**
    From Notify to the user's channel.  What arrives at the client is always a prefix of what was
    notified in lock order.  What the user gets is one too, exactly if no value that was handed over
    after deliver had given one up has been pushed.
   */
  lemma EndToEndOrder(es: seq<Event>)
    requires Possible(INIT, es)
    ensures var s := Run(INIT, es);
            var local := SubEvents(INIT, es);
            && s.sub.arrived <= s.notified
            && (S.Pushes(local) <= S.InTime(local) ==> s.sub.delivered <= s.notified)
            && (Distinct(s.notified) ==> (s.sub.delivered <= s.notified <==> S.Pushes(local) <= S.InTime(local)))
  {
    var s := Run(INIT, es);
    ArrivedWasNotified(es);
    SubRun(INIT, es);
    S.DeliveredInOrderIff(SubEvents(INIT, es));
    assert s.sub.delivered <= s.notified <==> s.sub.delivered <= s.sub.arrived;
  }

  /** The step hands a value to the forwarder. */
  predicate HandsOver(s: State, e: Event)
    requires Enabled(s, e)
  {
    e.Read? && s.wire[s.read].Note? && s.registered && e.how.Accept?
  }

  /** No value is handed over once quit is closed. */
  predicate Prompt(s: State, es: seq<Event>)
    requires Possible(s, es)
    decreases |es|
  {
    es == [] || ((HandsOver(s, es[0]) ==> !s.sub.quit) && Prompt(Apply(s, es[0]), es[1..]))
  }

  lemma {:induction false} PromptLocally(s: State, es: seq<Event>)
    requires Possible(s, es) && Prompt(s, es)
    ensures S.Possible(s.sub, SubEvents(s, es)) && S.Prompt(s.sub, SubEvents(s, es))
    decreases |es|
  {
    SubRun(s, es);
    if es != [] {
      var t := Apply(s, es[0]);
      var local, rest := SubEvent(s, es[0]), SubEvents(t, es[1..]);
      PromptLocally(t, es[1..]);
      SubStep(s, es[0]);
      if local == [] {
        assert local + rest == rest;
      } else {
        assert (local + rest)[1..] == rest;
      }
    }
  }

  /** Then what the user gets is a prefix of what was notified, in every run. */
  lemma PromptEndToEnd(es: seq<Event>)
    requires Possible(INIT, es) && Prompt(INIT, es)
    ensures var s := Run(INIT, es); s.sub.delivered <= s.notified
  {
    InitInv();
    ArrivedWasNotified(es);
    SubRun(INIT, es);
    PromptLocally(INIT, es);
    S.PromptIsInOrder(S.INIT, SubEvents(INIT, es));
    var sub := Run(INIT, es).sub;
    assert S.Pick(sub.arrived, sub.taken) == sub.arrived[..|sub.taken|];
  }

  // ---- the run, seen in the state ----

  /** The values passed to Notify, in lock order. */
  function Notified(es: seq<Event>): seq<Raw> {
    if es == [] then [] else (if es[0].Notify? then [es[0].raw] else []) + Notified(es[1..])
  }

  function Handled(es: seq<Event>): nat {
    if es == [] then 0 else (if es[0].Read? then 1 else 0) + Handled(es[1..])
  }

  lemma ReadStateStep(s: State, item: Item, sub: S.State)
    ensures var t := AfterRead(s, item, sub);
            t.created == s.created && t.callReturned == s.callReturned && t.notified == s.notified && t.read == s.read + 1
  {
    match item
    case Answer =>
    case Refusal =>
    case Note(_) =>
    case Other =>
  }

  lemma StateStep(s: State, e: Event, t: State)
    requires Enabled(s, e) && t == Apply(s, e)
    ensures t.created <==> s.created || e.Create?
    ensures t.callReturned <==> s.callReturned || e.TakeSubscription?
    ensures t.notified == s.notified + if e.Notify? then [e.raw] else []
    ensures t.read == s.read + if e.Read? then 1 else 0
  {
    if ServerEvent(e) {
      assert t == ApplyServer(s, e);
      assert s.notified + [] == s.notified;
    } else {
      assert s.notified + [] == s.notified;
      if e.Read? {
        ReadStateStep(s, s.wire[s.read], t.sub);
      }
    }
  }

  lemma {:induction false} StateFollowsRun(s: State, es: seq<Event>)
    requires Possible(s, es)
    ensures var t := Run(s, es);
            && (t.created <==> s.created || Create in es)
            && (t.callReturned <==> s.callReturned || TakeSubscription in es)
            && t.notified == s.notified + Notified(es)
            && t.read == s.read + Handled(es)
    decreases |es|
  {
    if es != [] {
      StateStep(s, es[0], Apply(s, es[0]));
      StateFollowsRun(Apply(s, es[0]), es[1..]);
    }
  }

  // ---- registration ----

  /** The caller has stopped waiting, or the connection has been given up. */
  predicate Left(es: seq<Event>) {
    exists e :: e in es && (e.GiveUp? || e.Disconnect?)
  }

  /** The answer is on the wire and says yes. */
  predicate Accepted(s: State) {
    s.answerAt.Some? && s.answerAt.value < |s.wire| && s.wire[s.answerAt.value].Answer?
  }

  predicate AnswerRead(s: State) {
    s.answerAt.Some? && s.answerAt.value < s.read
  }

  /** As long as nobody has left. */
  ghost predicate StayedInv(s: State) {
    (s.waiting <==> !AnswerRead(s)) && (s.registered <==> AnswerRead(s) && Accepted(s))
  }

  ghost predicate GoneInv(s: State) {
    !s.waiting && !s.registered
  }

  /** Steps of the server leave the client alone, and write behind what has been read. */
  lemma ServerStepKeepsStayed(s: State, e: Event)
    requires Inv(s) && Enabled(s, e) && ServerEvent(e)
    ensures var t := Apply(s, e);
            && t.waiting == s.waiting && t.registered == s.registered && t.read == s.read
            && (AnswerRead(t) <==> AnswerRead(s)) && (AnswerRead(s) ==> (Accepted(t) <==> Accepted(s)))
  {
    assert Apply(s, e) == ApplyServer(s, e);
    assert e.WriteAnswer? ==> s.answerAt.None?;
  }

  lemma ReadKeepsStayed(s: State, e: Event)
    requires Inv(s) && Enabled(s, e) && e.Read?
    ensures StayedInv(s) ==> StayedInv(Apply(s, e))
    ensures GoneInv(s) ==> GoneInv(Apply(s, e))
  {
    var item := s.wire[s.read];
    var t := AfterRead(s, item, Apply(s, e).sub);
    assert Apply(s, e) == t;
    AnswerIsHandled(s, item, t);
  }

  lemma AnswerIsHandled(s: State, item: Item, t: State)
    requires WireInv(s) && s.read < |s.wire| && item == s.wire[s.read] && t == AfterRead(s, item, t.sub)
    ensures StayedInv(s) ==> StayedInv(t)
    ensures GoneInv(s) ==> GoneInv(t)
  {
    assert (item.Answer? || item.Refusal?) <==> s.answerAt == Some(s.read);
    match item
    case Answer =>
    case Refusal =>
    case Note(_) =>
    case Other =>
  }

  lemma StayedStep(s: State, e: Event)
    requires Inv(s) && Enabled(s, e)
    ensures StayedInv(s) && !e.GiveUp? && !e.Disconnect? ==> StayedInv(Apply(s, e))
    ensures (StayedInv(s) && (e.GiveUp? || e.Disconnect?)) || GoneInv(s) ==> GoneInv(Apply(s, e))
  {
    if ServerEvent(e) {
      ServerStepKeepsStayed(s, e);
    } else if e.Read? {
      ReadKeepsStayed(s, e);
    }
  }

  lemma {:induction false} StayedRun(s: State, es: seq<Event>)
    requires Inv(s) && Possible(s, es) && (StayedInv(s) || GoneInv(s))
    ensures StayedInv(s) && !Left(es) ==> StayedInv(Run(s, es))
    ensures GoneInv(s) || Left(es) ==> GoneInv(Run(s, es))
    decreases |es|
  {
    if es != [] {
      StayedStep(s, es[0]);
      StepKeepsInv(s, es[0]);
      StayedRun(Apply(s, es[0]), es[1..]);
    }
  }

  lemma AcceptedStep(s: State, e: Event)
    requires Inv(s) && Enabled(s, e)
    ensures Accepted(Apply(s, e)) <==> Accepted(s) || e == WriteAnswer(true, true)
  {
    if e.Read? {
      ReadLeavesServer(s, s.wire[s.read], Apply(s, e).sub);
    } else if e.WriteAnswer? {
      assert s.answerAt.None?;
    } else if ServerEvent(e) {
      assert Apply(s, e) == ApplyServer(s, e);
    }
  }

  lemma {:induction false} AcceptedRun(s: State, es: seq<Event>)
    requires Inv(s) && Possible(s, es)
    ensures Accepted(Run(s, es)) <==> Accepted(s) || WriteAnswer(true, true) in es
    decreases |es|
  {
    if es != [] {
      AcceptedStep(s, es[0]);
      StepKeepsInv(s, es[0]);
      AcceptedRun(Apply(s, es[0]), es[1..]);
    }
  }

  predicate Activates(es: seq<Event>) {
    exists e :: e in es && e.Activate?
  }

  lemma ActivatedStep(s: State, e: Event)
    requires Enabled(s, e) && (s.activateDone || e.Activate?)
    ensures Apply(s, e).activateDone
  {
    if e.Read? {
      ReadLeavesServer(s, s.wire[s.read], Apply(s, e).sub);
    } else if ServerEvent(e) {
      assert Apply(s, e) == ApplyServer(s, e);
    }
  }

  lemma {:induction false} ActivatedRun(s: State, es: seq<Event>)
    requires Possible(s, es) && (s.activateDone || Activates(es))
    ensures Run(s, es).activateDone
    decreases |es|
  {
    if es != [] {
      if s.activateDone || es[0].Activate? {
        ActivatedStep(s, es[0]);
      }
      ActivatedRun(Apply(s, es[0]), es[1..]);
    }
  }

  /**
    A subscription is registered at the client exactly if the server's positive answer was written and
    has been read, and the caller was there to wait for it and the connection is still in use.
   */
  lemma RegisteredIff(es: seq<Event>)
    requires Possible(INIT, es)
    ensures var s := Run(INIT, es);
            s.registered <==> WriteAnswer(true, true) in es && AnswerRead(s) && !Left(es)
  {
    InitInv();
    StayedRun(INIT, es);
    AcceptedRun(INIT, es);
  }

  /**
    Nothing is lost while the subscription stands: once the positive answer is through, the notifier
    has been activated over an intact connection and nobody has left, delivered values, queued values
    and values not yet read from the wire make up exactly what was notified, values notified before
    registration included.
   */
  lemma NothingLost(es: seq<Event>)
    requires Possible(INIT, es) && !Left(es)
    requires WriteAnswer(true, true) in es && Activates(es) && AnswerRead(Run(INIT, es))
    requires var s := Run(INIT, es); !s.broken && !s.sub.forwarder.Ended? && !s.sub.quit
    ensures var s := Run(INIT, es);
            s.read <= |s.wire| && s.sub.delivered + s.sub.buffer + Notes(s.wire[s.read..]) == s.notified
  {
    InitInv();
    RunKeepsInv(INIT, es);
    RegisteredIff(es);
    ActivatedRun(INIT, es);
    StandingLosesNothing(Run(INIT, es));
  }

  lemma StandingLosesNothing(s: State)
    requires Inv(s) && s.registered && s.activateDone && !s.broken && !s.sub.forwarder.Ended? && !s.sub.quit
    ensures s.sub.delivered + s.sub.buffer + Notes(s.wire[s.read..]) == s.notified
  {
    assert S.Pick(s.sub.arrived, s.sub.taken) == s.sub.arrived;
    NotesJoin(s.wire[..s.read], s.wire[s.read..]);
    assert s.wire == s.wire[..s.read] + s.wire[s.read..];
  }

  lemma {:induction false} OnlySkippedIsQuiet(s: State, es: seq<Event>)
    requires Possible(s, es) && SkipAnswer !in es
    ensures Run(s, es).quiet == s.quiet
    decreases |es|
  {
    if es != [] {
      StaysQuiet(s, es[0]);
      OnlySkippedIsQuiet(Apply(s, es[0]), es[1..]);
    }
  }

  lemma StaysQuiet(s: State, e: Event)
    requires Enabled(s, e) && !e.SkipAnswer?
    ensures Apply(s, e).quiet == s.quiet
  {
    match e
    case Read(_) => ReadLeavesServer(s, s.wire[s.read], Apply(s, e).sub);
    case Disconnect(_, _) =>
    case Local(_) =>
    case _ =>
  }

  /** A call with an id has its answer on the wire before any notification. */
  lemma AnswerComesFirst(es: seq<Event>)
    requires Possible(INIT, es) && SkipAnswer !in es
    ensures var s := Run(INIT, es);
            forall i :: 0 <= i < |s.wire| && s.wire[i].Note? ==>
                          exists j :: 0 <= j < i && (s.wire[j].Answer? || s.wire[j].Refusal?)
  {
    InitInv();
    RunKeepsInv(INIT, es);
    OnlySkippedIsQuiet(INIT, es);
    var s := Run(INIT, es);
    forall i | 0 <= i < |s.wire| && s.wire[i].Note?
      ensures exists j :: 0 <= j < i && (s.wire[j].Answer? || s.wire[j].Refusal?)
    {
      var j := s.answerAt.value;
      assert s.wire[j].Answer? || s.wire[j].Refusal?;
    }
  }

  // ---- the Notifier as an object ----

  datatype Panic = SecondSubscription | AfterReturn

  /** The server's Notifier together with the connection it writes to. */
  class Notifier {
    var created: bool
    var callReturned: bool
    var activated: bool
    var buffer: seq<Raw>
    var wire: seq<Item>
    var broken: bool
    ghost var notified: seq<Raw>

    /** This object's part of a pipeline state. */
    ghost predicate Shows(s: State)
      reads this
    {
      created == s.created && callReturned == s.callReturned && activated == s.activated &&
      buffer == s.buffer && wire == s.wire && broken == s.broken && notified == s.notified
    }

    /** The two misuses panic before anything has changed. */
    method CreateSubscription(ghost s: State) returns (panic: Option<Panic>)
      requires Shows(s)
      modifies this
      ensures panic.None? <==> Enabled(s, Create)
      ensures panic == Some(SecondSubscription) <==> s.created
      ensures Shows(if panic.None? then Apply(s, Create) else s)
    {
      if created {
        return Some(SecondSubscription);
      } else if callReturned {
        return Some(AfterReturn);
      }
      created := true;
      return None;
    }

    method TakeSubscription(ghost s: State) returns (some: bool)
      requires Shows(s) && !s.callReturned
      modifies this
      ensures Shows(Apply(s, Event.TakeSubscription))
      ensures some == created && !Enabled(Apply(s, Event.TakeSubscription), Create)
    {
      callReturned := true;
      some := created;
    }

    method Notify(ghost s: State, raw: Raw, ok: bool) returns (err: bool)
      requires Shows(s) && Enabled(s, Event.Notify(raw, ok))
      modifies this
      ensures Shows(Apply(s, Event.Notify(raw, ok)))
      ensures err <==> old(activated) && !ok
    {
      notified := notified + [raw];
      if activated {
        err := Send(raw, ok);
      } else {
        buffer := buffer + [raw];
        err := false;
      }
    }

    method Send(raw: Raw, ok: bool) returns (err: bool)
      modifies this`wire, this`broken
      ensures wire == if ok then old(wire) + [Note(raw)] else old(wire)
      ensures broken == (old(broken) || !ok)
      ensures err == !ok
    {
      if ok {
        wire := wire + [Note(raw)];
      } else {
        broken := true;
      }
      err := !ok;
    }

    /** The first `written` sends succeed, the next one, if there is one, fails. */
    method Activate(ghost s: State, written: nat) returns (err: bool)
      requires Shows(s) && Enabled(s, Event.Activate(written)) && !activated
      modifies this
      ensures Shows(Apply(s, Event.Activate(written)))
      ensures err <==> written < |buffer|
    {
      var i := 0;
      while i < |buffer|
        invariant i <= written <= |buffer|
        invariant wire == s.wire + AsNotes(buffer[..i])
        invariant broken == s.broken && !activated
        invariant buffer == s.buffer && created == s.created && callReturned == s.callReturned && notified == s.notified
      {
        err := Send(buffer[i], i < written);
        if err {
          return;
        }
        assert AsNotes(buffer[..i + 1]) == AsNotes(buffer[..i]) + [Note(buffer[i])];
        i := i + 1;
      }
      activated := true;
      err := false;
    }
  }
}
