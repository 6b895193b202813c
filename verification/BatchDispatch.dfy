/** The responses of a batch as dispatch receives them: its channel gets what Batch.Delivered says. */
module BatchDispatch {
  import opened Wrappers
  import opened Dispatch
  import opened DispatchInvariant
  import opened DispatchTheorems
  import J = JsonRpc
  import B = Batch

  /** A response as dispatch looks at it. */
  function Seen(m: J.Message): Message {
    Message(Id(B.IdOf(m)), m.error.None?)
  }

  function AllSeen(msgs: seq<J.Message>): (r: seq<Message>)
    ensures |r| == |msgs|
  {
    seq(|msgs|, i requires 0 <= i < |msgs| => Seen(msgs[i]))
  }

  /** handleImmediate passes the responses of a batch to handleResponse, one after another. */
  function Arrivals(c: ConnId, msgs: seq<J.Message>): seq<Event> {
    if msgs == [] then []
    else (if J.IsResponse(msgs[0]) then [Answer(c, Seen(msgs[0]))] else []) + Arrivals(c, msgs[1..])
  }

  /** respWait with the text of an id as its key. */
  ghost predicate SameTable(w: map<string, nat>, respWait: map<Id, OpId>) {
    forall text :: (text in w <==> Id(text) in respWait) && (text in w ==> w[text] == respWait[Id(text)])
  }

  /** One response moves the op's channel and the table as Delivered does. */
  lemma AnswerDelivers(s: State, c: ConnId, m: J.Message, w: map<string, nat>, o: OpId)
    requires Inv(s) && Enabled(s, Answer(c, Seen(m))) && J.IsResponse(m)
    requires SameTable(w, s.respWait) && o in s.ops && !s.ops[o].sub
    ensures var t := Apply(s, Answer(c, Seen(m)));
            && o in t.ops && t.ops[o] == s.ops[o].(buf := t.ops[o].buf)
            && SameTable(w - {m.id.value}, t.respWait)
            && t.ops[o].buf == s.ops[o].buf + (if B.Mine(w, o, m) then [Seen(m)] else [])
  {
    var msg := Seen(m);
    assert msg.id == Id(m.id.value);
    if msg.id in s.respWait {
      AnswerHasRoom(s, msg);
      assert WaitInv(s, msg.id);
    }
  }

  /** The first response of a batch is handled; t is the state the rest of the run starts from. */
  lemma ResponseFirst(s: State, c: ConnId, msgs: seq<J.Message>, w: map<string, nat>, o: OpId) returns (t: State)
    requires Inv(s) && msgs != [] && J.IsResponse(msgs[0])
    requires SameTable(w, s.respWait) && o in s.ops && !s.ops[o].sub
    requires Possible(s, Arrivals(c, msgs)) && HonestRun(s, Arrivals(c, msgs))
    ensures Inv(t) && SameTable(w - {msgs[0].id.value}, t.respWait) && o in t.ops && t.ops[o] == s.ops[o].(buf := t.ops[o].buf)
    ensures Possible(t, Arrivals(c, msgs[1..])) && HonestRun(t, Arrivals(c, msgs[1..]))
    ensures Run(s, Arrivals(c, msgs)) == Run(t, Arrivals(c, msgs[1..]))
    ensures t.ops[o].buf == s.ops[o].buf + (if B.Mine(w, o, msgs[0]) then [Seen(msgs[0])] else [])
  {
    var e := Answer(c, Seen(msgs[0]));
    assert Arrivals(c, msgs)[0] == e && Arrivals(c, msgs)[1..] == Arrivals(c, msgs[1..]);
    StepKeepsInv(s, e);
    AnswerDelivers(s, c, msgs[0], w, o);
    t := Apply(s, e);
  }

  /** The table after the first message of a batch. */
  function TableAfter(w: map<string, nat>, m: J.Message): map<string, nat> {
    if J.IsResponse(m) then w - {m.id.value} else w
  }

  lemma DeliveredStep(w: map<string, nat>, o: OpId, msgs: seq<J.Message>)
    requires msgs != []
    ensures B.Delivered(w, o, msgs) ==
            (if B.Mine(w, o, msgs[0]) then [msgs[0]] else []) +
            B.Delivered(TableAfter(w, msgs[0]), o, msgs[1..])
  {
    var m := msgs[0];
    if J.IsResponse(m) && m.id.value !in w {
      assert w - {m.id.value} == w;
    }
  }

  lemma AllSeenJoin(was: seq<Message>, a: seq<J.Message>, b: seq<J.Message>)
    ensures (was + AllSeen(a)) + AllSeen(b) == was + AllSeen(a + b)
  {
  }

  lemma ChannelGrows(was: seq<Message>, now: seq<Message>, w: map<string, nat>, o: OpId, msgs: seq<J.Message>)
    requires msgs != []
    requires now == was + (if B.Mine(w, o, msgs[0]) then [Seen(msgs[0])] else [])
    ensures now + AllSeen(B.Delivered(TableAfter(w, msgs[0]), o, msgs[1..])) == was + AllSeen(B.Delivered(w, o, msgs))
  {
    var one := if B.Mine(w, o, msgs[0]) then [msgs[0]] else [];
    DeliveredStep(w, o, msgs);
    assert now == was + AllSeen(one);
    AllSeenJoin(was, one, B.Delivered(TableAfter(w, msgs[0]), o, msgs[1..]));
  }

  /**
    In any honest run of the client, whatever else is pending, a batch of messages of any size puts
    on an op's response channel exactly the responses that Delivered selects, in order.
   */
  lemma {:induction false} ChannelGetsDelivered(s: State, c: ConnId, msgs: seq<J.Message>, w: map<string, nat>, o: OpId)
    requires Inv(s) && SameTable(w, s.respWait) && o in s.ops && !s.ops[o].sub
    requires Possible(s, Arrivals(c, msgs)) && HonestRun(s, Arrivals(c, msgs))
    ensures var t := Run(s, Arrivals(c, msgs));
            o in t.ops && t.ops[o].buf == s.ops[o].buf + AllSeen(B.Delivered(w, o, msgs))
    decreases |msgs|
  {
    if msgs != [] {
      var t := s;
      if J.IsResponse(msgs[0]) {
        t := ResponseFirst(s, c, msgs, w, o);
      } else {
        assert Arrivals(c, msgs) == Arrivals(c, msgs[1..]);
      }
      ChannelGetsDelivered(t, c, msgs[1..], TableAfter(w, msgs[0]), o);
      ChannelGrows(s.ops[o].buf, t.ops[o].buf, w, o, msgs);
    }
  }

  // ---- from respWait to the caller of a batch ----

  function Ids(texts: seq<string>): (r: seq<Id>)
    ensures |r| == |texts|
  {
    seq(|texts|, i requires 0 <= i < |texts| => Id(texts[i]))
  }

  /** Op o is a batch that has been written and waits on connection c, with nothing answered so far. */
  ghost predicate AwaitsBatch(s: State, c: ConnId, o: OpId, ids: seq<string>) {
    && s.phase.Running? && c in s.readers && s.readers[c].Reading?
    && o in s.ops && o !in s.stranded
    && s.ops[o].ids == Ids(ids) && !s.ops[o].sub && !s.ops[o].closed && s.ops[o].pc.Waiting?
    && s.ops[o].buf == [] && s.ops[o].got == []
  }

  /** In every honest run respWait then holds exactly the batch's ids for the op. */
  lemma BatchIsWaitedFor(s: State, c: ConnId, o: OpId, ids: seq<string>, w: map<string, nat>)
    requires Inv(s) && AwaitsBatch(s, c, o, ids) && SameTable(w, s.respWait)
    requires forall i :: 0 <= i < |ids| ==> B.Numeral(ids[i])
    ensures B.WaitsFor(w, o, ids)
  {
    assert LocalInv(s.ops[o]) && OpInv(s, o);
    forall i | 0 <= i < |ids| ensures ids[i] in w && w[ids[i]] == o {
      assert Ids(ids)[i] in s.ops[o].ids;
      assert Registered(s, Id(ids[i]), o);
    }
    forall text | text in w && w[text] == o ensures text in ids {
      assert WaitInv(s, Id(text));
      var i :| 0 <= i < |ids| && Ids(ids)[i] == Id(text);
    }
  }

  /** Responses to one committed op can arrive one after another. */
  lemma {:induction false} ArrivalsArePossible(s: State, c: ConnId, msgs: seq<J.Message>, o: OpId)
    requires Inv(s) && s.phase.Running? && c in s.readers && s.readers[c].Reading?
    requires o in s.ops && s.ops[o].sent == Some(None) && !s.ops[o].sub
    requires forall i :: 0 <= i < |msgs| && Seen(msgs[i]).id in s.respWait ==> s.respWait[Seen(msgs[i]).id] == o
    ensures Possible(s, Arrivals(c, msgs)) && HonestRun(s, Arrivals(c, msgs))
    ensures var t := Run(s, Arrivals(c, msgs)); o in t.ops && t.ops[o] == s.ops[o].(buf := t.ops[o].buf)
    decreases |msgs|
  {
    if msgs != [] {
      if J.IsResponse(msgs[0]) {
        var e := Answer(c, Seen(msgs[0]));
        var t := Apply(s, e);
        StepKeepsInv(s, e);
        AnswerLeaves(s, Seen(msgs[0]), o, t);
        ArrivalsArePossible(t, c, msgs[1..], o);
        Prepend(s, e, Arrivals(c, msgs[1..]));
      } else {
        ArrivalsArePossible(s, c, msgs[1..], o);
        assert Arrivals(c, msgs) == Arrivals(c, msgs[1..]);
      }
    }
  }

  lemma AnswerLeaves(s: State, msg: Message, o: OpId, t: State)
    requires t == HandleResponse(s, msg) && o in s.ops && !s.ops[o].sub
    ensures t.phase == s.phase && t.readers == s.readers
    ensures o in t.ops && t.ops[o] == s.ops[o].(buf := t.ops[o].buf)
    ensures forall id :: id in t.respWait ==> id in s.respWait && t.respWait[id] == s.respWait[id]
  {
    if msg.id in s.respWait && s.respWait[msg.id] in s.ops {
      AnsweredOneOp(s, msg, t);
    }
  }

  lemma AnsweredOneOp(s: State, msg: Message, t: State)
    requires msg.id in s.respWait && s.respWait[msg.id] in s.ops && t == HandleResponse(s, msg)
    ensures var p := s.respWait[msg.id];
            && t.phase == s.phase && t.readers == s.readers && t.respWait == s.respWait - {msg.id}
            && p in t.ops && t.ops == s.ops[p := t.ops[p]]
            && (!s.ops[p].sub ==> t.ops[p] == s.ops[p].(buf := t.ops[p].buf))
  {
    var p := s.respWait[msg.id];
    assert s.ops == s.ops[p := s.ops[p]];
  }

  function Receives(o: OpId, n: nat): seq<Event> {
    seq(n, i => Receive(o))
  }

  /** wait, called again and again, takes what is in the channel, in order. */
  lemma {:induction false} WaitDrains(s: State, o: OpId)
    requires o in s.ops && s.ops[o].pc.Waiting? && s.ops[o].err.None?
    ensures var es := Receives(o, |s.ops[o].buf|);
            && Possible(s, es) && HonestRun(s, es) && o in Run(s, es).ops
            && Run(s, es).ops[o] == s.ops[o].(got := s.ops[o].got + s.ops[o].buf, buf := [])
    decreases |s.ops[o].buf|
  {
    var op := s.ops[o];
    if op.buf == [] {
      assert op.got + op.buf == op.got;
    } else {
      var t := Apply(s, Receive(o));
      TakesOne(s, o, t);
      WaitDrains(t, o);
      Prepend(s, Receive(o), Receives(o, |op.buf| - 1));
      assert Receives(o, |op.buf|) == [Receive(o)] + Receives(o, |op.buf| - 1);
    }
  }

  lemma TakesOne(s: State, o: OpId, t: State)
    requires o in s.ops && s.ops[o].pc.Waiting? && s.ops[o].err.None? && s.ops[o].buf != []
    requires Enabled(s, Receive(o)) ==> t == Apply(s, Receive(o))
    ensures o in t.ops && t.ops[o] == s.ops[o].(buf := s.ops[o].buf[1..], got := s.ops[o].got + [s.ops[o].buf[0]])
    ensures t.ops[o].got + t.ops[o].buf == s.ops[o].got + s.ops[o].buf
  {
  }

  /**
    A batch from respWait to the caller.  In any honest state where the batch waits, the server's
    answers can arrive and be read, each of the caller's waits returns the answer to one element, in
    order, and the wait loop is complete.
   */
  lemma BatchReachesCaller(s: State, c: ConnId, o: OpId, b: seq<B.Elem>, ids: seq<string>, w: map<string, nat>, serve: J.Service)
    requires Inv(s) && AwaitsBatch(s, c, o, ids) && SameTable(w, s.respWait) && J.Proper(serve)
    requires b != [] && |ids| == |b| && forall i :: 0 <= i < |ids| ==> B.Numeral(ids[i])
    ensures var es := Arrivals(c, B.Incoming(J.BatchReply(B.Requests(b, ids), serve))) + Receives(o, |b|);
            && Possible(s, es) && HonestRun(s, es) && o in Run(s, es).ops
            && Enabled(Run(s, es), Complete(o))
            && |Run(s, es).ops[o].got| == |b|
            && forall i :: 0 <= i < |b| ==> Run(s, es).ops[o].got[i] == Seen(B.Direct(b, ids, i, serve))
  {
    BatchIsWaitedFor(s, c, o, ids, w);
    assert LocalInv(s.ops[o]);
    DistinctTexts(ids);
    var msgs := B.Incoming(J.BatchReply(B.Requests(b, ids), serve));
    AnswersAreRegistered(s, o, b, ids, w, serve);
    ArrivalsArePossible(s, c, msgs, o);
    ChannelGetsDelivered(s, c, msgs, w, o);
    AnswersSeen(b, ids, w, o, serve);
    DrainAfter(s, Arrivals(c, msgs), o, AllSeen(B.Delivered(w, o, msgs)));
  }

  lemma AnswersSeen(b: seq<B.Elem>, ids: seq<string>, w: map<string, nat>, o: OpId, serve: J.Service)
    requires |ids| == |b| && Distinct(ids) && B.WaitsFor(w, o, ids) && J.Proper(serve)
    ensures var arrived := AllSeen(B.Delivered(w, o, B.Incoming(J.BatchReply(B.Requests(b, ids), serve))));
            |arrived| == |b| && forall i :: 0 <= i < |b| ==> arrived[i] == Seen(B.Direct(b, ids, i, serve))
  {
    B.BatchArrivals(b, ids, w, o, serve);
  }

  /** When these messages have come in for a waiting op, its caller can read them. */
  lemma DrainAfter(s: State, es: seq<Event>, o: OpId, arrived: seq<Message>)
    requires Possible(s, es) && HonestRun(s, es) && o in s.ops && o in Run(s, es).ops
    requires s.ops[o].pc.Waiting? && s.ops[o].err.None? && s.ops[o].got == [] && !s.ops[o].sub
    requires |arrived| == |s.ops[o].ids| && Run(s, es).ops[o] == s.ops[o].(buf := arrived)
    ensures var all := es + Receives(o, |arrived|);
            && Possible(s, all) && HonestRun(s, all) && o in Run(s, all).ops
            && Enabled(Run(s, all), Complete(o)) && Run(s, all).ops[o].got == arrived
  {
    var t := Run(s, es);
    WaitDrains(t, o);
    assert t.ops[o].got + t.ops[o].buf == arrived;
    Join(s, es, Receives(o, |arrived|));
  }

  lemma DistinctTexts(texts: seq<string>)
    requires Distinct(Ids(texts))
    ensures Distinct(texts)
  {
    forall i, j | 0 <= i < j < |texts| ensures texts[i] != texts[j] {
      assert Ids(texts)[i] != Ids(texts)[j];
    }
  }

  lemma AnswersAreRegistered(s: State, o: OpId, b: seq<B.Elem>, ids: seq<string>, w: map<string, nat>, serve: J.Service)
    requires SameTable(w, s.respWait) && B.WaitsFor(w, o, ids) && J.Proper(serve) && b != [] && |ids| == |b|
    requires Distinct(ids)
    ensures var msgs := B.Incoming(J.BatchReply(B.Requests(b, ids), serve));
            forall i :: 0 <= i < |msgs| ==> Seen(msgs[i]).id in s.respWait && s.respWait[Seen(msgs[i]).id] == o
  {
    B.AnswersGetThrough(b, ids, w, o, serve);
    var answers := J.Answers(B.Requests(b, ids), serve);
    assert B.Incoming(J.BatchReply(B.Requests(b, ids), serve)) == answers;
    forall i | 0 <= i < |answers| ensures Seen(answers[i]).id in s.respWait && s.respWait[Seen(answers[i]).id] == o {
      assert B.IdsOf(answers)[i] == ids[i];
    }
  }
}
