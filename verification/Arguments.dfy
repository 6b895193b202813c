/** Parsing the params of a call into positional arguments. */
module Arguments {
  import opened Wrappers

  /** One raw JSON array item. */
  datatype Raw = Raw(text: string)

  /** Params after the syntax check: absent, null, an array or something else. */
  datatype Params = Absent | Null | Array(items: seq<Raw>) | Other

  /** A Go type as the parser sees it. */
  datatype Type = Type(name: string, pointer: bool)

  /** An argument value; Zero is the zero value of a pointer type, nil. */
  datatype Value = Decoded(raw: Raw, of: Type) | Zero(of: Type)

  datatype Error = NonArray | TooMany | Invalid(at: nat) | Missing(at: nat)

  /** Does the item decode into a value of the type? */
  type Decodes = (Raw, Type) -> bool

  function Items(p: Params): seq<Raw> {
    if p.Array? then p.items else []
  }

  ghost predicate Parses(p: Params, types: seq<Type>, decodes: Decodes) {
    && !p.Other?
    && |Items(p)| <= |types|
    && (forall i :: 0 <= i < |Items(p)| ==> decodes(Items(p)[i], types[i]))
    && (forall i :: |Items(p)| <= i < |types| ==> types[i].pointer)
  }

  /** The supplied values in order, then nil for every missing one. */
  function Padded(items: seq<Raw>, types: seq<Type>): (args: seq<Value>)
    requires |items| <= |types|
    ensures |args| == |types|
  {
    seq(|types|, i requires 0 <= i < |types| => if i < |items| then Decoded(items[i], types[i]) else Zero(types[i]))
  }

  /** parsePositionalArguments: success exactly when the arguments fit, and then one value per type. */
  method ParsePositional(p: Params, types: seq<Type>, decodes: Decodes) returns (r: Result<seq<Value>, Error>)
    ensures r.Ok? <==> Parses(p, types, decodes)
    ensures r.Ok? ==> r.value == Padded(Items(p), types)
    ensures r == Err(NonArray) <==> p.Other?
    ensures r == Err(TooMany) ==> |Items(p)| > |types|
    ensures r.Err? && r.error.Invalid? ==>
              r.error.at < |Items(p)| && r.error.at < |types| && !decodes(Items(p)[r.error.at], types[r.error.at])
    ensures r.Err? && r.error.Missing? ==> |Items(p)| <= r.error.at < |types| && !types[r.error.at].pointer
  {
    var args := [];
    match p {
      case Absent =>
      case Null =>
      case Other => return Err(NonArray);
      case Array(items) =>
        var parsed := ParseArray(items, types, decodes);
        if parsed.Err? {
          return parsed;
        }
        args := parsed.value;
    }
    var i := |args|;
    while i < |types|
      invariant |Items(p)| <= i <= |types| && |args| == i
      invariant forall k :: 0 <= k < |Items(p)| ==> args[k] == Decoded(Items(p)[k], types[k])
      invariant forall k :: |Items(p)| <= k < i ==> args[k] == Zero(types[k]) && types[k].pointer
    {
      if !types[i].pointer {
        return Err(Missing(i));
      }
      args := args + [Zero(types[i])];
      i := i + 1;
    }
    assert args == Padded(Items(p), types);
    return Ok(args);
  }

  /** parseArgumentArray: the items one after another, up to the first that is too many or does not decode. */
  method ParseArray(items: seq<Raw>, types: seq<Type>, decodes: Decodes) returns (r: Result<seq<Value>, Error>)
    ensures r.Ok? <==> |items| <= |types| && forall i :: 0 <= i < |items| ==> decodes(items[i], types[i])
    ensures r.Ok? ==> |r.value| == |items| && forall i :: 0 <= i < |items| ==> r.value[i] == Decoded(items[i], types[i])
    ensures r.Err? ==> r.error.TooMany? || r.error.Invalid?
    ensures r == Err(TooMany) ==> |items| > |types|
    ensures r.Err? && r.error.Invalid? ==>
              r.error.at < |items| && r.error.at < |types| && !decodes(items[r.error.at], types[r.error.at])
  {
    var args := [];
    var i := 0;
    while i < |items|
      invariant 0 <= i <= |items| && i <= |types| && |args| == i
      invariant forall k :: 0 <= k < i ==> decodes(items[k], types[k]) && args[k] == Decoded(items[k], types[k])
    {
      if i >= |types| {
        return Err(TooMany);
      }
      if !decodes(items[i], types[i]) {
        return Err(Invalid(i));
      }
      args := args + [Decoded(items[i], types[i])];
      i := i + 1;
    }
    return Ok(args);
  }

  /**
    handleSubscribe puts the subscription name's type in front and drops the first value again: the
    slice is in range, and what remains is one value per type of the callback.
   */
  method SubscribeArguments(p: Params, nameType: Type, types: seq<Type>, decodes: Decodes) returns (r: Result<seq<Value>, Error>)
    ensures r.Ok? <==> Parses(p, [nameType] + types, decodes)
    ensures r.Ok? && !nameType.pointer ==>
              |Items(p)| > 0 && decodes(Items(p)[0], nameType) && r.value == Padded(Items(p)[1..], types)
  {
    var all := ParsePositional(p, [nameType] + types, decodes);
    if all.Err? {
      return all;
    }
    var args := all.value[1..];
    if !nameType.pointer {
      assert ([nameType] + types)[0] == nameType;
      assert args == Padded(Items(p)[1..], types);
    }
    return Ok(args);
  }
}
