/** Confirmation risks looked up one by one and in de-duplicated batches. */
module RiskLookup {
  import opened Wrappers
  import opened Rlp

  type Hash = string

  /** What a node answers to one request: JSON null, a value, or an error. */
  datatype Reply<T> = Null | Value(value: T) | Failure

  /** Of a block summary only the epoch number matters here. */
  datatype Block = Block(epochNumber: Option<nat>)

  const ZERO_BLOCK := Block(None)

  /** The node's answers as a fixed function of the hash, and hexutil.DecodeBig. */
  datatype Node = Node(risk: Hash -> Reply<string>, block: Hash -> Reply<Block>, decodeBig: string -> Option<nat>)

  datatype Error = Rpc | BadNumber

  const MAX_UINT256: nat := 0x1_0000_0000_0000_0000_0000_0000_0000_0000_0000_0000_0000_0000_0000_0000_0000_0000 - 1

  lemma MaxIsMax()
    ensures MAX_UINT256 == Pow256(32) - 1
  {
    assert Pow256(8) == 0x1_0000_0000_0000_0000 by {
      assert Pow256(4) == 0x1_0000_0000;
    }
    assert Pow256(16) == 0x1_0000_0000_0000_0000_0000_0000_0000_0000 by {
      assert Pow256(12) == 0x1_0000_0000_0000_0000_0000_0000;
    }
    assert Pow256(24) == 0x1_0000_0000_0000_0000_0000_0000_0000_0000_0000_0000_0000_0000 by {
      assert Pow256(20) == 0x1_0000_0000_0000_0000_0000_0000_0000_0000_0000_0000;
    }
    assert Pow256(28) == 0x1_0000_0000_0000_0000_0000_0000_0000_0000_0000_0000_0000_0000_0000_0000;
  }

  // ---- one by one ----

  function RiskOfBlock(b: Block): nat {
    if b.epochNumber.Some? then 0 else MAX_UINT256
  }

  /** GetRawBlockConfirmationRisk */
  function Single(node: Node, h: Hash): Result<nat, Error> {
    match node.risk(h)
    case Failure => Err(Rpc)
    case Value(text) =>
      if node.decodeBig(text).None? then Err(BadNumber) else Ok(node.decodeBig(text).value)
    case Null =>
      match node.block(h)
      case Failure => Err(Rpc)
      case Null => Ok(MAX_UINT256)
      case Value(b) => Ok(RiskOfBlock(b))
  }

  // ---- in a batch ----

  /** The variable behind a batch element's Result pointer. */
  class Variable<T> {
    var value: T

    constructor (value: T)
      ensures this.value == value
    {
      this.value := value;
    }
  }

  /** What a reply leaves in the variable: null and errors leave it alone. */
  function Stored<T>(reply: Reply<T>, was: T): T {
    if reply.Value? then reply.value else was
  }

  /** One request per distinct hash, each with a variable of its own. */
  ghost predicate IsCache<T>(cache: map<Hash, Variable<T>>, hashes: seq<Hash>) {
    && cache.Keys == Elements(hashes)
    && forall g, h :: g in cache && h in cache && g != h ==> cache[g] != cache[h]
  }

  method MakeCache<T>(hashes: seq<Hash>, zero: T) returns (cache: map<Hash, Variable<T>>)
    ensures IsCache(cache, hashes) && fresh(cache.Values)
    ensures forall h :: h in cache ==> cache[h].value == zero
  {
    cache := map[];
    var i := 0;
    while i < |hashes|
      invariant 0 <= i <= |hashes|
      invariant IsCache(cache, hashes[..i]) && fresh(cache.Values)
      invariant forall h :: h in cache ==> cache[h].value == zero
    {
      if hashes[i] !in cache {
        var v := new Variable(zero);
        forall h | h in cache ensures cache[h] != v {
          assert cache[h] in cache.Values;
        }
        assert cache[hashes[i] := v].Values <= cache.Values + {v};
        cache := cache[hashes[i] := v];
      }
      assert hashes[..i + 1] == hashes[..i] + [hashes[i]];
      i := i + 1;
    }
    assert hashes[..i] == hashes;
  }

  /**
    The batch elements in whatever order the cache yields them, and BatchCallRPC on them: each
    distinct hash is asked once, and the answers are stored through the pointers.
   */
  method Ask<T>(cache: map<Hash, Variable<T>>, ghost hashes: seq<Hash>, reply: Hash -> Reply<T>) returns (sent: seq<Hash>)
    requires IsCache(cache, hashes)
    modifies cache.Values
    ensures Distinct(sent) && Elements(sent) == Elements(hashes)
    ensures forall h :: h in cache ==> cache[h].value == Stored(reply(h), old(cache[h].value))
  {
    sent := [];
    var todo := cache.Keys;
    while todo != {}
      invariant todo <= cache.Keys
      invariant Distinct(sent) && Elements(sent) == cache.Keys - todo
      invariant forall h :: h in cache ==>
                  cache[h].value == if h in todo then old(cache[h].value) else Stored(reply(h), old(cache[h].value))
      decreases todo
    {
      var h :| h in todo;
      var answer := reply(h);
      if answer.Value? {
        cache[h].value := answer.value;
      }
      assert h !in Elements(sent) && Elements(sent + [h]) == Elements(sent) + {h};
      sent := sent + [h];
      todo := todo - {h};
    }
  }

  function TextOf(node: Node, h: Hash): string {
    Stored(node.risk(h), "")
  }

  function BlockOf(node: Node, h: Hash): Block {
    Stored(node.block(h), ZERO_BLOCK)
  }

  function BatchValue(node: Node, h: Hash): Result<nat, Error> {
    var text := TextOf(node, h);
    if text == "" then Ok(RiskOfBlock(BlockOf(node, h)))
    else if node.decodeBig(text).None? then Err(BadNumber)
    else Ok(node.decodeBig(text).value)
  }

  /** BatchGetBlockSummarys: a pointer for every hash, to a zero summary where the node had none. */
  method BatchSummaries(hashes: seq<Hash>, node: Node) returns (summaries: map<Hash, Block>, sent: seq<Hash>)
    ensures summaries == map h | h in Elements(hashes) :: BlockOf(node, h)
    ensures Distinct(sent) && Elements(sent) == Elements(hashes)
  {
    if |hashes| == 0 {
      return map[], [];
    }
    var cache := MakeCache(hashes, ZERO_BLOCK);
    sent := Ask(cache, hashes, node.block);
    summaries := map[];
    var i := 0;
    while i < |hashes|
      invariant 0 <= i <= |hashes|
      invariant summaries == map h | h in Elements(hashes[..i]) :: BlockOf(node, h)
    {
      var h := hashes[i];
      summaries := summaries[h := cache[h].value];
      assert Elements(hashes[..i + 1]) == Elements(hashes[..i]) + {h};
      i := i + 1;
    }
    assert hashes[..i] == hashes;
  }

  function Unresolved(node: Node, hashes: seq<Hash>): seq<Hash> {
    if hashes == [] then []
    else
      var last := hashes[|hashes| - 1];
      Unresolved(node, hashes[..|hashes| - 1]) + (if TextOf(node, last) == "" then [last] else [])
  }

  lemma {:induction false} UnresolvedElements(node: Node, hashes: seq<Hash>)
    ensures Elements(Unresolved(node, hashes)) == set h | h in Elements(hashes) && TextOf(node, h) == ""
  {
    if hashes != [] {
      var last := hashes[|hashes| - 1];
      var front := hashes[..|hashes| - 1];
      UnresolvedElements(node, front);
      var unresolved := Unresolved(node, front);
      assert Elements(unresolved + [last]) == Elements(unresolved) + {last};
      assert unresolved + [] == unresolved;
      assert forall h :: h in Elements(hashes) <==> h in Elements(front) || h == last by {
        assert hashes == front + [last];
      }
    }
  }

  /** The outcome of looking up every hash by `value`: a map, or an error if any of them fails. */
  ghost predicate Outcome(r: Result<map<Hash, nat>, Error>, hashes: seq<Hash>, value: Hash -> Result<nat, Error>) {
    && (r.Err? <==> exists h :: h in hashes && value(h).Err?)
    && (r.Ok? ==> r.value.Keys == Elements(hashes) && forall h :: h in hashes ==> Ok(r.value[h]) == value(h))
  }

  /** The node knows the block and the epoch it is in. */
  predicate Placed(reply: Reply<Block>) {
    reply.Value? && reply.value.epochNumber.Some?
  }

  /** The first phase is over: the cache holds every hash's text. */
  ghost predicate Holds(cache: map<Hash, Variable<string>>, hashes: seq<Hash>, node: Node)
    reads cache.Values
  {
    cache.Keys == Elements(hashes) && forall h :: h in cache ==> cache[h].value == TextOf(node, h)
  }

  method CollectUnresolved(cache: map<Hash, Variable<string>>, hashes: seq<Hash>, ghost node: Node) returns (unresolved: seq<Hash>)
    requires Holds(cache, hashes, node)
    ensures unresolved == Unresolved(node, hashes)
  {
    unresolved := [];
    var i := 0;
    while i < |hashes|
      invariant 0 <= i <= |hashes|
      invariant unresolved == Unresolved(node, hashes[..i])
    {
      assert hashes[..i + 1][..i] == hashes[..i];
      if |cache[hashes[i]].value| == 0 {
        unresolved := unresolved + [hashes[i]];
      }
      i := i + 1;
    }
    assert hashes[..i] == hashes;
  }

  method Combine(cache: map<Hash, Variable<string>>, hashes: seq<Hash>, summaries: map<Hash, Block>, node: Node)
    returns (r: Result<map<Hash, nat>, Error>)
    requires Holds(cache, hashes, node)
    requires forall h :: h in hashes && TextOf(node, h) == "" ==> h in summaries && summaries[h] == BlockOf(node, h)
    ensures Outcome(r, hashes, h => BatchValue(node, h))
  {
    var risks: map<Hash, nat> := map[];
    var j := 0;
    while j < |hashes|
      invariant 0 <= j <= |hashes|
      invariant risks.Keys == Elements(hashes[..j])
      invariant forall h :: h in risks ==> BatchValue(node, h) == Ok(risks[h])
    {
      var h := hashes[j];
      assert Elements(hashes[..j + 1]) == Elements(hashes[..j]) + {h};
      var text := cache[h].value;
      if |text| == 0 {
        risks := risks[h := RiskOfBlock(summaries[h])];
      } else {
        var n := node.decodeBig(text);
        if n.None? {
          assert BatchValue(node, h).Err?;
          return Err(BadNumber);
        }
        risks := risks[h := n.value];
      }
      j := j + 1;
    }
    assert hashes[..j] == hashes;
    return Ok(risks);
  }

  /**
    BatchGetRawBlockConfirmationRisk.  Every distinct hash is sent once in the first phase, and those
    without a risk once more in the second.
   */
  method BatchRisks(hashes: seq<Hash>, node: Node)
    returns (r: Result<map<Hash, nat>, Error>, phase1: seq<Hash>, phase2: seq<Hash>)
    ensures Outcome(r, hashes, h => BatchValue(node, h))
    ensures r.Ok? ==> forall h :: h in hashes && TextOf(node, h) == "" ==>
                      r.value[h] == if Placed(node.block(h)) then 0 else Pow256(32) - 1
    ensures Distinct(phase1) && Elements(phase1) == Elements(hashes)
    ensures Distinct(phase2) && Elements(phase2) == set h | h in Elements(hashes) && TextOf(node, h) == ""
  {
    if |hashes| == 0 {
      return Ok(map[]), [], [];
    }
    var cache := MakeCache(hashes, "");
    phase1 := Ask(cache, hashes, node.risk);
    var unresolved := CollectUnresolved(cache, hashes, node);
    UnresolvedElements(node, hashes);
    var summaries;
    summaries, phase2 := BatchSummaries(unresolved, node);
    MaxIsMax();
    r := Combine(cache, hashes, summaries, node);
  }

  // ---- the two agree ----

  /** A number the node sent that is no hex quantity: both lookups fail. */
  predicate Malformed(node: Node, h: Hash) {
    node.risk(h).Value? && node.risk(h).value != "" && node.decodeBig(node.risk(h).value).None?
  }

  /** A failure the batch takes for a missing risk or a missing block. */
  predicate Swallowed(node: Node, h: Hash) {
    node.risk(h).Failure? || node.risk(h) == Value("") || (node.risk(h).Null? && node.block(h).Failure?)
  }

  lemma ValuesCompared(node: Node, h: Hash)
    requires node.decodeBig("").None?
    ensures BatchValue(node, h).Err? <==> Malformed(node, h)
    ensures Single(node, h).Err? <==> Malformed(node, h) || Swallowed(node, h)
    ensures !Swallowed(node, h) ==> BatchValue(node, h) == Single(node, h)
  {
  }

  /** The loop a caller would write: single lookups in order, up to the first error. */
  function OneByOne(node: Node, hashes: seq<Hash>): Result<map<Hash, nat>, Error> {
    if hashes == [] then Ok(map[])
    else
      var last := hashes[|hashes| - 1];
      var r := OneByOne(node, hashes[..|hashes| - 1]);
      if r.Err? then r
      else if Single(node, last).Err? then Err(Single(node, last).error)
      else Ok(r.value[last := Single(node, last).value])
  }

  lemma {:induction false} OneByOneOutcome(node: Node, hashes: seq<Hash>)
    ensures Outcome(OneByOne(node, hashes), hashes, h => Single(node, h))
  {
    if hashes != [] {
      var front, last := hashes[..|hashes| - 1], hashes[|hashes| - 1];
      OneByOneOutcome(node, front);
      assert hashes == front + [last];
      assert Elements(hashes) == Elements(front) + {last};
    }
  }

  /** Both fail, or both yield the same map. */
  predicate Agree(a: Result<map<Hash, nat>, Error>, b: Result<map<Hash, nat>, Error>) {
    (a.Err? && b.Err?) || (a.Ok? && b.Ok? && a.value == b.value)
  }

  /**
    On any list, duplicates included, the batch comes out as the single lookups do, error for error
    and value for value, exactly when no failure is swallowed or some number is malformed anyway.
   */
  lemma BatchAgreesWithSingle(node: Node, hashes: seq<Hash>, batch: Result<map<Hash, nat>, Error>)
    requires node.decodeBig("").None?
    requires Outcome(batch, hashes, h => BatchValue(node, h))
    ensures Agree(batch, OneByOne(node, hashes)) <==>
            (forall h :: h in hashes ==> !Swallowed(node, h)) || (exists h :: h in hashes && Malformed(node, h))
  {
    var single := h => Single(node, h);
    var value := h => BatchValue(node, h);
    var all := OneByOne(node, hashes);
    OneByOneOutcome(node, hashes);
    forall h | h in hashes
      ensures (value(h).Err? <==> Malformed(node, h)) && (single(h).Err? <==> Malformed(node, h) || Swallowed(node, h))
      ensures !Swallowed(node, h) ==> value(h) == single(h)
    {
      ValuesCompared(node, h);
    }
    if batch.Ok? && all.Ok? {
      forall h | h in hashes ensures batch.value[h] == all.value[h] {
        assert Ok(batch.value[h]) == value(h) && Ok(all.value[h]) == single(h);
      }
      assert batch.value == all.value;
    }
  }
}
