/** A batch call from end to end: requests, the server's answers, dispatch's delivery, assembly. */
module Batch {
  import opened Wrappers
  import opened JsonRpc
  import I = Ids

  type Id = string

  datatype ElemError = Server(error: JsonError) | NoResult | Undecodable

  /** rpc.BatchElem; result is what has been unmarshalled into the caller's variable. */
  datatype Elem = Elem(name: string, args: Option<string>, result: Option<string>, error: Option<ElemError>)

  /** Does a result text unmarshal into the variable of element i? */
  type Fits = (nat, string) -> bool

  // ---- requests ----

  function Request(e: Elem, id: Id): Message {
    Message(Some(id), e.name, e.args, None, None)
  }

  function Requests(b: seq<Elem>, ids: seq<Id>): (r: seq<Message>)
    requires |ids| == |b|
    ensures |r| == |b|
  {
    seq(|b|, i requires 0 <= i < |b| => Request(b[i], ids[i]))
  }

  /** Raw ids as the client counts them. */
  predicate Numeral(id: Id) {
    id != "" && '0' <= id[0] <= '9'
  }

  /** What a single call of the element would come back with. */
  function Direct(b: seq<Elem>, ids: seq<Id>, i: nat, serve: Service): Message
    requires |ids| == |b| && i < |b|
  {
    var m := Request(b[i], ids[i]);
    if b[i].name != "" then Respond(m, serve(m.name, m.params)) else ErrorResponse(m, INVALID_REQUEST)
  }

  // ---- delivery ----

  /** What handleBatch on the client sends to op's channel, given respWait. */
  function Delivered(w: map<Id, nat>, op: nat, msgs: seq<Message>): seq<Message> {
    if msgs == [] then []
    else
      var m := msgs[0];
      if IsResponse(m) && m.id.value in w
      then (if w[m.id.value] == op then [m] else []) + Delivered(w - {m.id.value}, op, msgs[1..])
      else Delivered(w, op, msgs[1..])
  }

  function IdOf(m: Message): Id {
    if m.id.Some? then m.id.value else ""
  }

  function IdsOf(msgs: seq<Message>): (r: seq<Id>)
    ensures |r| == |msgs|
  {
    seq(|msgs|, i requires 0 <= i < |msgs| => IdOf(msgs[i]))
  }

  /** A response to an id registered for op. */
  predicate Mine(w: map<Id, nat>, op: nat, m: Message) {
    IsResponse(m) && IdOf(m) in w && w[IdOf(m)] == op
  }

  lemma FirstOfMine(w: map<Id, nat>, op: nat, m: Message, d: seq<Message>)
    requires Mine(w, op, m) && Distinct(IdsOf(d))
    requires forall k :: 0 <= k < |d| ==> Mine(w - {IdOf(m)}, op, d[k])
    ensures Distinct(IdsOf([m] + d))
    ensures forall k :: 0 <= k < |d| + 1 ==> Mine(w, op, ([m] + d)[k])
  {
    assert IdsOf([m] + d) == [IdOf(m)] + IdsOf(d);
    assert forall k :: 0 <= k < |d| ==> IdsOf(d)[k] == IdOf(d[k]) && IdOf(d[k]) in w - {IdOf(m)};
    DistinctCons(IdOf(m), IdsOf(d));
  }

  /** Whatever stream of messages arrives, op gets responses only, to its own ids, each id once. */
  lemma {:induction false} DeliveredOnce(w: map<Id, nat>, op: nat, msgs: seq<Message>)
    ensures var d := Delivered(w, op, msgs);
            Distinct(IdsOf(d)) && forall k :: 0 <= k < |d| ==> Mine(w, op, d[k])
    decreases |msgs|
  {
    if msgs != [] {
      var m := msgs[0];
      var hit := IsResponse(m) && m.id.value in w;
      var rest := if hit then w - {m.id.value} else w;
      DeliveredOnce(rest, op, msgs[1..]);
      var d := Delivered(rest, op, msgs[1..]);
      if hit && w[m.id.value] == op {
        FirstOfMine(w, op, m, d);
      } else {
        assert Delivered(w, op, msgs) == d;
      }
    }
  }

  /** Responses to distinct registered ids all get through, in order. */
  lemma {:induction false} DeliveredAll(w: map<Id, nat>, op: nat, msgs: seq<Message>)
    requires Distinct(IdsOf(msgs))
    requires forall k :: 0 <= k < |msgs| ==> Mine(w, op, msgs[k])
    ensures Delivered(w, op, msgs) == msgs
    decreases |msgs|
  {
    if msgs != [] {
      var rest := msgs[1..];
      forall k | 0 <= k < |rest| ensures IdOf(rest[k]) != IdOf(msgs[0]) {
        assert IdsOf(msgs)[k + 1] != IdsOf(msgs)[0];
      }
      assert IdsOf(rest) == IdsOf(msgs)[1..];
      DeliveredAll(w - {IdOf(msgs[0])}, op, rest);
      assert msgs == [msgs[0]] + rest;
    }
  }

  // ---- assembly ----

  /** What one response does to its element. */
  function Settle(e: Elem, i: nat, m: Message, fits: Fits): Elem {
    if m.error.Some? then e.(error := Some(Server(m.error.value)))
    else if m.result.None? || m.result.value == "" then e.(error := Some(NoResult))
    else if fits(i, m.result.value) then e.(result := Some(m.result.value), error := None)
    else e.(error := Some(Undecodable))
  }

  /** How an element stands after its response, told from the response. */
  lemma SettledHow(e: Elem, i: nat, m: Message, fits: Fits)
    ensures var now := Settle(e, i, m, fits);
            var answered := m.error.None? && m.result.Some? && m.result.value != "";
            && now.name == e.name && now.args == e.args
            && (now.error.None? <==> answered && fits(i, m.result.value))
            && (now.error == Some(NoResult) <==> m.error.None? && !answered)
            && (now.error == Some(Undecodable) <==> answered && !fits(i, m.result.value))
            && (forall err :: now.error == Some(Server(err)) <==> m.error == Some(err))
            && now.result == if now.error.None? then m.result else e.result
  {
  }

  ghost predicate Carries(arrivals: seq<Message>, k: int, id: Id) {
    0 <= k < |arrivals| && IdOf(arrivals[k]) == id
  }

  /** Element i has been settled by the response that carries its id, or not touched for want of one. */
  ghost predicate Settled(was: Elem, now: Elem, i: nat, id: Id, arrivals: seq<Message>, fits: Fits) {
    && (forall k {:trigger Carries(arrivals, k, id)} :: Carries(arrivals, k, id) ==> now == Settle(was, i, arrivals[k], fits))
    && ((forall k {:trigger Carries(arrivals, k, id)} :: !Carries(arrivals, k, id)) ==> now == was)
  }

  /** The element a response belongs to: the first whose message has its id. */
  method Find(ids: seq<Id>, id: Id) returns (i: nat)
    requires id in ids
    ensures i < |ids| && ids[i] == id && forall k :: 0 <= k < i ==> ids[k] != id
  {
    i := 0;
    while ids[i] != id
      invariant i < |ids| && forall k :: 0 <= k < i ==> ids[k] != id
      decreases |ids| - i
    {
      i := i + 1;
    }
  }

  /**
    The wait loop of BatchCallContext: `arrivals` are the responses that wait returns before it fails,
    if it does.  Every element is settled by the response with its own id, in whatever order they came.
   */
  method Assemble(b: array<Elem>, ids: seq<Id>, arrivals: seq<Message>, fits: Fits) returns (failed: bool)
    requires |ids| == b.Length && Distinct(ids)
    requires Distinct(IdsOf(arrivals)) && forall k :: 0 <= k < |arrivals| ==> IdOf(arrivals[k]) in ids
    modifies b
    ensures failed <==> |arrivals| < b.Length
    ensures forall i :: 0 <= i < b.Length ==> Settled(old(b[i]), b[i], i, ids[i], arrivals, fits)
  {
    ghost var was := b[..];
    var n := 0;
    SelectionSize(IdsOf(arrivals), ids);
    while n < b.Length
      invariant 0 <= n <= |arrivals| <= b.Length
      invariant forall i :: 0 <= i < b.Length ==> Settled(was[i], b[i], i, ids[i], arrivals[..n], fits)
    {
      if n == |arrivals| {
        assert arrivals[..n] == arrivals;
        return true;
      }
      var resp := arrivals[n];
      var i := Find(ids, IdOf(resp));
      forall j | 0 <= j < b.Length && j != i ensures ids[j] != IdOf(resp) {
      }
      forall k | 0 <= k < n ensures IdOf(arrivals[k]) != ids[i] {
        assert IdsOf(arrivals)[k] != IdsOf(arrivals)[n];
      }
      assert b[i] == was[i] by {
        assert Settled(was[i], b[i], i, ids[i], arrivals[..n], fits);
      }
      forall j | 0 <= j < b.Length && j != i
        ensures Settled(was[j], b[j], j, ids[j], arrivals[..n + 1], fits)
      {
        SettledByOther(was[j], b[j], j, ids[j], arrivals, n, fits);
      }
      b[i] := Settle(b[i], i, resp, fits);
      SettledNow(was[i], i, ids[i], arrivals, n, fits);
      n := n + 1;
    }
    assert arrivals[..n] == arrivals;
    failed := false;
  }

  lemma SettledByOther(was: Elem, now: Elem, i: nat, id: Id, arrivals: seq<Message>, n: nat, fits: Fits)
    requires n < |arrivals| && Settled(was, now, i, id, arrivals[..n], fits) && IdOf(arrivals[n]) != id
    ensures Settled(was, now, i, id, arrivals[..n + 1], fits)
  {
    var before, after := arrivals[..n], arrivals[..n + 1];
    forall k: int ensures Carries(before, k, id) <==> Carries(after, k, id) {
    }
    assert forall k {:trigger Carries(after, k, id)} :: Carries(after, k, id) ==> after[k] == before[k];
  }

  lemma SettledNow(was: Elem, i: nat, id: Id, arrivals: seq<Message>, n: nat, fits: Fits)
    requires n < |arrivals| && IdOf(arrivals[n]) == id
    requires forall k :: 0 <= k < n ==> IdOf(arrivals[k]) != id
    ensures Settled(was, Settle(was, i, arrivals[n], fits), i, id, arrivals[..n + 1], fits)
  {
    assert Carries(arrivals[..n + 1], n, id);
  }

  /** When the loop ends without error, every element has been settled by exactly one response. */
  lemma EveryElementSettled(was: seq<Elem>, now: seq<Elem>, ids: seq<Id>, arrivals: seq<Message>, fits: Fits, i: nat)
    requires |was| == |now| == |ids| == |arrivals| && i < |ids|
    requires Distinct(IdsOf(arrivals)) && forall k :: 0 <= k < |arrivals| ==> IdOf(arrivals[k]) in ids
    requires Settled(was[i], now[i], i, ids[i], arrivals, fits)
    ensures exists k :: Carries(arrivals, k, ids[i]) && now[i] == Settle(was[i], i, arrivals[k], fits) &&
                        (forall l :: Carries(arrivals, l, ids[i]) ==> l == k)
  {
    FullSelection(IdsOf(arrivals), ids, ids[i]);
    var k :| 0 <= k < |arrivals| && IdsOf(arrivals)[k] == ids[i];
    assert Carries(arrivals, k, ids[i]);
    forall l | Carries(arrivals, l, ids[i]) ensures l == k {
      assert IdsOf(arrivals)[l] == IdsOf(arrivals)[k];
    }
  }

  lemma Elsewhere(a: seq<Message>, c: seq<Message>, k: int, id: Id) returns (l: int)
    requires multiset(a) == multiset(c) && Carries(a, k, id)
    ensures Carries(c, l, id) && c[l] == a[k]
  {
    assert a[k] in multiset(c);
    l :| 0 <= l < |c| && c[l] == a[k];
  }

  /** The order of arrival makes no difference. */
  lemma OrderIrrelevant(was: Elem, x: Elem, y: Elem, i: nat, id: Id, a: seq<Message>, c: seq<Message>, fits: Fits)
    requires multiset(a) == multiset(c)
    requires Settled(was, x, i, id, a, fits) && Settled(was, y, i, id, c, fits)
    ensures x == y
  {
    if exists k :: Carries(a, k, id) {
      var k :| Carries(a, k, id);
      var l := Elsewhere(a, c, k, id);
    } else if exists l :: Carries(c, l, id) {
      var l :| Carries(c, l, id);
      var k := Elsewhere(c, a, l, id);
      assert false;
    }
  }

  // ---- the round trip ----

  /** The server answers the requests of a batch one by one, in order, as it would answer them alone. */
  lemma {:induction false} RequestsAnswered(b: seq<Elem>, ids: seq<Id>, serve: Service)
    requires |ids| == |b| && forall i :: 0 <= i < |ids| ==> Numeral(ids[i])
    ensures var answers := Answers(Requests(b, ids), serve);
            |answers| == |b| && forall i :: 0 <= i < |b| ==> answers[i] == Direct(b, ids, i, serve)
    decreases |b|
  {
    if b != [] {
      var n := |b| - 1;
      var front, frontIds := b[..n], ids[..n];
      RequestsAnswered(front, frontIds, serve);
      assert Requests(b, ids)[..n] == Requests(front, frontIds);
      var answers := Answers(Requests(front, frontIds), serve);
      forall i | 0 <= i < n ensures answers[i] == Direct(b, ids, i, serve) {
        assert answers[i] == Direct(front, frontIds, i, serve);
      }
    }
  }

  /** The messages a write amounts to for the reader. */
  function Incoming(written: Written): seq<Message> {
    match written
    case Nothing => []
    case One(m) => [m]
    case Many(msgs) => msgs
  }

  /** respWait holds exactly the batch's ids for op, whatever it holds for other ops. */
  ghost predicate WaitsFor(w: map<Id, nat>, op: nat, ids: seq<Id>) {
    && (forall i :: 0 <= i < |ids| ==> Numeral(ids[i]) && ids[i] in w && w[ids[i]] == op)
    && (forall id :: id in w && w[id] == op ==> id in ids)
  }

  /**
    A batch of any size over a stream: however respWait looks otherwise, the server's answers all
    reach the op, and every element ends up with what calling it alone would have given.
   */
  method BatchCall(b: array<Elem>, ids: seq<Id>, w: map<Id, nat>, op: nat, serve: Service, fits: Fits) returns (failed: bool)
    requires |ids| == b.Length && Distinct(ids) && WaitsFor(w, op, ids) && Proper(serve)
    modifies b
    ensures !failed
    ensures forall i :: 0 <= i < b.Length ==> AsCalledAlone(old(b[i]), b[i], i, serve, fits)
  {
    ghost var was := b[..];
    var msgs := BuildRequests(b, ids);
    var written, _, _ := HandleBatch(msgs, serve);
    var arrivals := Delivered(w, op, Incoming(written));
    BatchArrivals(was, ids, w, op, serve);
    failed := Assemble(b, ids, arrivals, fits);
    forall i | 0 <= i < b.Length ensures AsCalledAlone(was[i], b[i], i, serve, fits) {
      assert Carries(arrivals, i, ids[i]);
      SettledAlone(was, ids, i, serve, fits);
    }
  }

  /** The element holds what the service says to its own request, and says so in its error if that is of no use. */
  predicate AsCalledAlone(was: Elem, now: Elem, i: nat, serve: Service, fits: Fits) {
    && now.name == was.name && now.args == was.args
    && (was.name == "" ==> now.error == Some(Server(INVALID_REQUEST)) && now.result == was.result)
    && (was.name != "" ==>
          match serve(was.name, was.args)
          case Fault(e) => now.error == Some(Server(e)) && now.result == was.result
          case Value(text) =>
            if fits(i, text) then now.error.None? && now.result == Some(text)
            else now.error == Some(Undecodable) && now.result == was.result)
  }

  lemma SettledAlone(b: seq<Elem>, ids: seq<Id>, i: nat, serve: Service, fits: Fits)
    requires |ids| == |b| && i < |b| && Proper(serve)
    ensures AsCalledAlone(b[i], Settle(b[i], i, Direct(b, ids, i, serve), fits), i, serve, fits)
  {
    assert !EmptyValue(serve(b[i].name, b[i].args));
  }

  /** addRequestOp for a batch. */
  function Register(w: map<Id, nat>, ids: seq<Id>, op: nat): map<Id, nat> {
    map id | id in w.Keys + Elements(ids) :: if id in ids then op else w[id]
  }

  /** The same with the ids the client counts off, whatever else is pending: BatchCallContext as a whole. */
  method BatchCallContext(counter: I.IdCounter, b: array<Elem>, w: map<Id, nat>, op: nat, serve: Service, fits: Fits)
    returns (failed: bool)
    requires counter.counter < I.WRAP && b.Length <= I.WRAP
    requires op !in w.Values && Proper(serve)
    modifies b, counter
    ensures !failed && counter.counter == (old(counter.counter) + b.Length) % I.WRAP
    ensures forall i :: 0 <= i < b.Length ==> AsCalledAlone(old(b[i]), b[i], i, serve, fits)
  {
    var ids := counter.NextIds(b.Length);
    forall i | 0 <= i < |ids| ensures Numeral(ids[i]) {
      assert I.AllDigits(ids[i]);
    }
    forall id | id in w ensures w[id] != op {
      assert w[id] in w.Values;
    }
    failed := BatchCall(b, ids, Register(w, ids, op), op, serve, fits);
  }

  /** What op's channel receives: the direct answers, element by element. */
  lemma BatchArrivals(b: seq<Elem>, ids: seq<Id>, w: map<Id, nat>, op: nat, serve: Service)
    requires |ids| == |b| && Distinct(ids) && WaitsFor(w, op, ids) && Proper(serve)
    ensures var arrivals := Delivered(w, op, Incoming(BatchReply(Requests(b, ids), serve)));
            && |arrivals| == |b| && Distinct(IdsOf(arrivals))
            && forall i :: 0 <= i < |b| ==> arrivals[i] == Direct(b, ids, i, serve) && IdOf(arrivals[i]) == ids[i]
  {
    if b == [] {
      var incoming := Incoming(BatchReply(Requests(b, ids), serve));
      DeliveredOnce(w, op, incoming);
      SelectionSize(IdsOf(Delivered(w, op, incoming)), ids);
    } else {
      AnswersGetThrough(b, ids, w, op, serve);
      RequestsAnswered(b, ids, serve);
      AnswersCarryIds(Answers(Requests(b, ids), serve), ids);
    }
  }

  lemma AnswersCarryIds(answers: seq<Message>, ids: seq<Id>)
    requires IdsOf(answers) == ids
    ensures |answers| == |ids| && forall i :: 0 <= i < |ids| ==> IdOf(answers[i]) == ids[i]
  {
    forall i | 0 <= i < |ids| ensures IdOf(answers[i]) == ids[i] {
      assert IdsOf(answers)[i] == ids[i];
    }
  }

  method BuildRequests(b: array<Elem>, ids: seq<Id>) returns (msgs: seq<Message>)
    requires |ids| == b.Length
    ensures msgs == Requests(b[..], ids)
  {
    msgs := [];
    var n := 0;
    while n < b.Length
      invariant 0 <= n <= b.Length == |ids| && |msgs| == n
      invariant forall i :: 0 <= i < n ==> msgs[i] == Request(b[i], ids[i])
    {
      msgs := msgs + [Request(b[n], ids[n])];
      n := n + 1;
    }
  }

  lemma AnswersGetThrough(b: seq<Elem>, ids: seq<Id>, w: map<Id, nat>, op: nat, serve: Service)
    requires |ids| == |b| && Distinct(ids) && WaitsFor(w, op, ids) && Proper(serve)
    ensures var answers := Answers(Requests(b, ids), serve);
            && |answers| == |b| && IdsOf(answers) == ids
            && Delivered(w, op, answers) == answers
  {
    RequestsAnswered(b, ids, serve);
    var answers := Answers(Requests(b, ids), serve);
    forall i | 0 <= i < |b| ensures IsResponse(answers[i]) && IdOf(answers[i]) == ids[i] {
      assert answers[i] == Direct(b, ids, i, serve);
    }
    assert IdsOf(answers) == ids;
    DeliveredAll(w, op, answers);
  }
}
