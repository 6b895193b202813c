/** JSON-RPC messages, how they are told apart, and how a server answers them. */
module JsonRpc {
  import opened Wrappers

  datatype JsonError = JsonError(code: int, message: string)

  /** jsonrpcMessage; name is its method, None is a nil field, texts are raw JSON. */
  datatype Message = Message(
    id: Option<string>, name: string, params: Option<string>, error: Option<JsonError>, result: Option<string>)

  const NULL_ID: string := "null"
  const INVALID_REQUEST_CODE: int := -32600

  predicate HasValidId(m: Message) {
    m.id.Some? && m.id.value != "" && m.id.value[0] != '{' && m.id.value[0] != '['
  }

  predicate IsNotification(m: Message) {
    m.id.None? && m.name != ""
  }

  predicate IsCall(m: Message) {
    HasValidId(m) && m.name != ""
  }

  predicate IsResponse(m: Message) {
    HasValidId(m) && m.name == "" && m.params.None? && (m.result.Some? || m.error.Some?)
  }

  predicate HasSuffix(s: string, suffix: string) {
    |s| >= |suffix| && s[|s| - |suffix|..] == suffix
  }

  /** What a service makes of a call; a result is never an empty text. */
  datatype Reply = Value(text: string) | Fault(error: JsonError)

  type Service = (string, Option<string>) -> Reply

  predicate EmptyValue(r: Reply) { r.Value? && r.text == "" }

  ghost predicate Proper(serve: Service) {
    forall name, params :: !EmptyValue(serve(name, params))
  }

  function ErrorMessage(e: JsonError): Message {
    Message(Some(NULL_ID), "", None, Some(e), None)
  }

  function ErrorResponse(m: Message, e: JsonError): Message {
    ErrorMessage(e).(id := m.id)
  }

  function Respond(m: Message, r: Reply): Message {
    match r
    case Value(text) => Message(m.id, "", None, None, Some(text))
    case Fault(e) => ErrorResponse(m, e)
  }

  const INVALID_REQUEST := JsonError(INVALID_REQUEST_CODE, "invalid request")
  const EMPTY_BATCH := JsonError(INVALID_REQUEST_CODE, "empty batch")

  /** Handled at once, without a reply: responses and the notifications of client subscriptions. */
  predicate HandledNow(m: Message) {
    if IsNotification(m) then HasSuffix(m.name, "_subscription") else IsResponse(m)
  }

  /** handleCallMsg: nothing for a notification, one answer for everything else. */
  function HandleCallMsg(m: Message, serve: Service): Option<Message> {
    if IsNotification(m) then None
    else if IsCall(m) then Some(Respond(m, serve(m.name, m.params)))
    else if HasValidId(m) then Some(ErrorResponse(m, INVALID_REQUEST))
    else Some(ErrorMessage(INVALID_REQUEST))
  }

  /** Messages the specification wants an answer for: neither notifications nor responses. */
  predicate WantsAnswer(m: Message) {
    !IsNotification(m) && !IsResponse(m)
  }

  /** The messages the handler runs code for. */
  predicate Runs(m: Message) {
    IsCall(m) || (IsNotification(m) && !HandledNow(m))
  }

  datatype Kind = Wanting | Immediate | Deferred | Running

  predicate Is(m: Message, kind: Kind) {
    match kind
    case Wanting => WantsAnswer(m)
    case Immediate => HandledNow(m)
    case Deferred => !HandledNow(m)
    case Running => Runs(m)
  }

  /** The messages of one kind, in order. */
  function Filter(msgs: seq<Message>, kind: Kind): seq<Message> {
    if msgs == [] then []
    else
      var last := msgs[|msgs| - 1];
      Filter(msgs[..|msgs| - 1], kind) + (if Is(last, kind) then [last] else [])
  }

  /** The answers of a batch, in the order of its messages. */
  function Answers(msgs: seq<Message>, serve: Service): seq<Message> {
    if msgs == [] then []
    else
      var last := msgs[|msgs| - 1];
      Answers(msgs[..|msgs| - 1], serve) +
      (if HandledNow(last) || HandleCallMsg(last, serve).None? then [] else [HandleCallMsg(last, serve).value])
  }

  /** What goes back over the connection. */
  datatype Written = Nothing | One(msg: Message) | Many(msgs: seq<Message>)

  function BatchReply(msgs: seq<Message>, serve: Service): Written {
    if msgs == [] then One(ErrorMessage(EMPTY_BATCH))
    else if Answers(msgs, serve) == [] then Nothing
    else Many(Answers(msgs, serve))
  }

  /** Every message is of one kind and one only. */
  lemma OneKind(m: Message)
    ensures var kinds := [IsNotification(m), IsCall(m), IsResponse(m),
                          !IsNotification(m) && !IsCall(m) && !IsResponse(m)];
            exists k :: 0 <= k < 4 && kinds[k] && forall j :: 0 <= j < 4 && kinds[j] ==> j == k
  {
    var kinds := [IsNotification(m), IsCall(m), IsResponse(m), !IsNotification(m) && !IsCall(m) && !IsResponse(m)];
    var k := if IsNotification(m) then 0 else if IsCall(m) then 1 else if IsResponse(m) then 2 else 3;
    assert kinds[k];
  }

  /** What the answer to one message must look like. */
  ghost predicate RightAnswer(m: Message, a: Message, serve: Service) {
    && (HasValidId(m) ==> a.id == m.id)
    && (!HasValidId(m) ==> a.id == Some("null"))
    && (IsCall(m) ==>
          match serve(m.name, m.params)
          case Value(text) => a.result == Some(text) && a.error.None?
          case Fault(e) => a.error == Some(e) && a.result.None?)
    && (!IsCall(m) ==> a.error == Some(JsonError(-32600, "invalid request")) && a.result.None?)
    && (Proper(serve) ==> IsResponse(a) && (a.result.Some? <==> a.error.None?) && a.result != Some(""))
  }

  /**
    Sections 5 and 6 of the JSON-RPC 2.0 specification: one answer for every message that wants one,
    in order, with its id (or null), none for notifications and responses; and nothing is written at
    all when there is nothing to answer.
   */
  lemma {:induction false} BatchAnswersMatch(msgs: seq<Message>, serve: Service)
    ensures var wanting := Filter(msgs, Wanting);
            && |Answers(msgs, serve)| == |wanting|
            && (forall k :: 0 <= k < |wanting| ==> RightAnswer(wanting[k], Answers(msgs, serve)[k], serve))
            && BatchReply(msgs, serve) ==
               (if msgs == [] then One(Message(Some("null"), "", None, Some(JsonError(-32600, "empty batch")), None))
                else if wanting == [] then Nothing
                else Many(Answers(msgs, serve)))
  {
    if msgs != [] {
      var front, last := msgs[..|msgs| - 1], msgs[|msgs| - 1];
      BatchAnswersMatch(front, serve);
      if WantsAnswer(last) {
        AnswerIsRight(last, serve);
      }
    }
  }

  lemma AnswerIsRight(m: Message, serve: Service)
    requires WantsAnswer(m)
    ensures HandleCallMsg(m, serve).Some? && !HandledNow(m)
    ensures RightAnswer(m, HandleCallMsg(m, serve).value, serve)
  {
    assert Proper(serve) && IsCall(m) ==> !EmptyValue(serve(m.name, m.params));
  }

  // ---- who is handled how, in terms of the message's fields ----

  ghost predicate EndsIn(name: string, suffix: string) {
    exists ns :: name == ns + suffix
  }

  /** Neither an object nor an array, nor empty. */
  ghost predicate ValidIdText(text: string) {
    exists c, rest :: text == [c] + rest && c !in "{["
  }

  /** A value for a client subscription, or a response. */
  ghost predicate GoesNow(m: Message) {
    || (m.id.None? && EndsIn(m.name, "_subscription"))
    || (m.id.Some? && ValidIdText(m.id.value) && m.name == "" && m.params.None? && !(m.result.None? && m.error.None?))
  }

  /** A named message that is no such value: a call if it has a valid id, a notification if it has none. */
  ghost predicate GoesToCode(m: Message) {
    m.name != "" && if m.id.None? then !EndsIn(m.name, "_subscription") else ValidIdText(m.id.value)
  }

  lemma SuffixMeans(s: string, suffix: string)
    ensures HasSuffix(s, suffix) <==> EndsIn(s, suffix)
  {
    if HasSuffix(s, suffix) {
      assert s == s[..|s| - |suffix|] + suffix;
    }
  }

  lemma KindsMean(m: Message)
    ensures HandledNow(m) <==> GoesNow(m)
    ensures Runs(m) <==> GoesToCode(m)
  {
    SuffixMeans(m.name, "_subscription");
    if m.id.Some? && m.id.value != "" {
      assert m.id.value == [m.id.value[0]] + m.id.value[1..];
    }
  }

  /** part is what msgs holds at these places, in the same order. */
  ghost predicate Picks(part: seq<Message>, msgs: seq<Message>, at: seq<nat>) {
    && |part| == |at|
    && (forall k :: 0 <= k < |at| ==> at[k] < |msgs| && part[k] == msgs[at[k]])
    && (forall j, k :: 0 <= j < k < |at| ==> at[j] < at[k])
  }

  lemma PicksGrow(part: seq<Message>, msgs: seq<Message>, at: seq<nat>, last: Message)
    requires Picks(part, msgs, at)
    ensures Picks(part, msgs + [last], at) && |msgs| !in at
    ensures Picks(part + [last], msgs + [last], at + [|msgs|])
  {
  }

  lemma {:induction false} FilterPicks(msgs: seq<Message>, kind: Kind) returns (at: seq<nat>)
    ensures Picks(Filter(msgs, kind), msgs, at)
    ensures forall i :: 0 <= i < |msgs| ==> (i in at <==> Is(msgs[i], kind))
  {
    at := [];
    if msgs != [] {
      var n := |msgs| - 1;
      var front := Filter(msgs[..n], kind);
      at := FilterPicks(msgs[..n], kind);
      PicksGrow(front, msgs[..n], at, msgs[n]);
      assert msgs == msgs[..n] + [msgs[n]];
      if Is(msgs[n], kind) {
        at := at + [n];
      } else {
        assert Filter(msgs, kind) == front;
      }
    }
  }

  /** Exactly the messages handled at once, in order. */
  ghost predicate AllHandledNow(part: seq<Message>, msgs: seq<Message>) {
    exists at :: Picks(part, msgs, at) && forall i :: 0 <= i < |msgs| ==> (i in at <==> GoesNow(msgs[i]))
  }

  /** Exactly the messages that code is run for, in order. */
  ghost predicate AllRun(part: seq<Message>, msgs: seq<Message>) {
    exists at :: Picks(part, msgs, at) && forall i :: 0 <= i < |msgs| ==> (i in at <==> GoesToCode(msgs[i]))
  }

  /**
    What HandleBatch handles on the spot are exactly the responses and the subscription values of the
    batch, in order; what it runs code for are exactly its calls and its other notifications.
   */
  lemma FiltersMean(msgs: seq<Message>)
    ensures AllHandledNow(Filter(msgs, Immediate), msgs)
    ensures AllRun(Filter(msgs, Running), msgs)
  {
    var now := FilterPicks(msgs, Immediate);
    var ran := FilterPicks(msgs, Running);
    forall i | 0 <= i < |msgs| ensures (i in now <==> GoesNow(msgs[i])) && (i in ran <==> GoesToCode(msgs[i])) {
      KindsMean(msgs[i]);
    }
  }

  /**
    handleBatch.  `now` are the messages handled on the spot, `ran` those that code was run for,
    both in order; the connection gets at most one write.
   */
  method HandleBatch(msgs: seq<Message>, serve: Service) returns (written: Written, now: seq<Message>, ran: seq<Message>)
    ensures written == BatchReply(msgs, serve)
    ensures now == Filter(msgs, Immediate)
    ensures ran == Filter(msgs, Running)
  {
    now, ran := [], [];
    if |msgs| == 0 {
      return One(ErrorMessage(EMPTY_BATCH)), now, ran;
    }
    var calls := [];
    var i := 0;
    while i < |msgs|
      invariant 0 <= i <= |msgs|
      invariant now == Filter(msgs[..i], Immediate)
      invariant calls == Filter(msgs[..i], Deferred)
    {
      assert msgs[..i + 1][..i] == msgs[..i];
      if HandledNow(msgs[i]) {
        now := now + [msgs[i]];
      } else {
        calls := calls + [msgs[i]];
      }
      i := i + 1;
    }
    assert msgs[..i] == msgs;
    CallsOnly(msgs, serve);
    if |calls| == 0 {
      return Nothing, now, ran;
    }
    var answers := [];
    var j := 0;
    while j < |calls|
      invariant 0 <= j <= |calls|
      invariant answers == Answers(calls[..j], serve)
      invariant ran == Filter(calls[..j], Running)
    {
      assert calls[..j + 1][..j] == calls[..j];
      NotNow(msgs, j);
      var answer := HandleCallMsg(calls[j], serve);
      if answer.Some? {
        answers := answers + [answer.value];
      }
      if Runs(calls[j]) {
        ran := ran + [calls[j]];
      }
      j := j + 1;
    }
    assert calls[..j] == calls;
    if |answers| > 0 {
      written := Many(answers);
    } else {
      written := Nothing;
    }
  }

  /** Taking out what is handled on the spot changes neither the answers nor the code run. */
  lemma {:induction false} CallsOnly(msgs: seq<Message>, serve: Service)
    ensures var calls := Filter(msgs, Deferred);
            && Answers(calls, serve) == Answers(msgs, serve)
            && Filter(calls, Running) == Filter(msgs, Running)
  {
    if msgs != [] {
      var front, last := msgs[..|msgs| - 1], msgs[|msgs| - 1];
      CallsOnly(front, serve);
      var calls := Filter(front, Deferred);
      var all := Filter(msgs, Deferred);
      if HandledNow(last) {
        assert all == calls + [] == calls;
      } else {
        assert all == calls + [last];
        assert all[..|all| - 1] == calls && all[|all| - 1] == last;
      }
    }
  }

  lemma {:induction false} NotNow(msgs: seq<Message>, k: nat)
    requires k < |Filter(msgs, Deferred)|
    ensures !HandledNow(Filter(msgs, Deferred)[k])
  {
    var front := Filter(msgs[..|msgs| - 1], Deferred);
    if k < |front| {
      NotNow(msgs[..|msgs| - 1], k);
    }
  }
}
