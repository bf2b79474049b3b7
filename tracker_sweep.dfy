/**
 * The sweep `getCollectionsList` and `getAuthorsList` share: every supported
 * chain, and for each every registered content type, contributes what the
 * tracker for its configured contract lists, when there is a configured
 * contract, the tracker offers the listing, and nothing throws.
 */
module TrackerSweep {
  import opened Json
  import opened Core

  /** The sweep's chains, in the order they are visited. */
  const SupportedChains: seq<string> := ["base", "ethereum", "optimism", "zora", "polygon"]

  /** The listing a sweep asks for: `getCollections` or `getAuthors`. */
  datatype Listing = Collections | Authors

  /** The listing method of a tracker, when it has one. */
  function Offered(t: Tracker, listing: Listing): Option<Result<seq<Value>>>
  {
    match listing
    case Collections => t.collections
    case Authors => t.authors
  }

  /** What one (chain, content type) pair adds. `contractFor(chain, type)` is
      the `<CHAIN>_<TYPE>_CONTRACT` environment variable, empty when unset. */
  function PairYield(contractFor: (string, string) -> string, factory: Factory, listing: Listing,
                     chain: string, contentType: string): seq<Value>
  {
    var address := contractFor(chain, contentType);
    if address == "" then []
    else match factory(address, contentType, chain)
      case Fail(_) => []
      case Ok(tracker) =>
        match Offered(tracker, listing)
        case None => []
        case Some(Fail(_)) => []
        case Some(Ok(items)) => items
  }

  /** The parts of the given keys, one after the other, in key order. */
  function Concat(keys: seq<string>, part: string -> seq<Value>): seq<Value>
  {
    if keys == [] then []
    else Concat(keys[..|keys| - 1], part) + part(keys[|keys| - 1])
  }

  /** An item is in the concatenation exactly when some key's part holds it. */
  lemma {:induction false} ConcatMember(keys: seq<string>, part: string -> seq<Value>, x: Value)
    ensures x in Concat(keys, part) <==> exists k :: 0 <= k < |keys| && x in part(keys[k])
  {
    if keys != [] {
      var init := keys[..|keys| - 1];
      ConcatMember(init, part, x);
      if x in Concat(init, part) {
        var k :| 0 <= k < |init| && x in part(init[k]);
        assert keys[k] == init[k];
      }
      if exists k :: 0 <= k < |keys| && x in part(keys[k]) {
        var k :| 0 <= k < |keys| && x in part(keys[k]);
        if k < |init| { assert init[k] == keys[k]; }
      }
    }
  }

  /** What one chain adds over the given content types. */
  function RowYield(contractFor: (string, string) -> string, factory: Factory, listing: Listing,
                    chain: string, types: seq<string>): seq<Value>
  {
    Concat(types, t => PairYield(contractFor, factory, listing, chain, t))
  }

  /** What the whole sweep over the given chains adds. */
  function SweepYield(contractFor: (string, string) -> string, factory: Factory, listing: Listing,
                      chains: seq<string>, types: seq<string>): seq<Value>
  {
    Concat(chains, c => RowYield(contractFor, factory, listing, c, types))
  }

  /** One pass of the outer loop: every registered type on one chain. */
  method SweepChain(contractFor: (string, string) -> string, factory: Factory, listing: Listing,
                    chain: string, types: seq<string>)
    returns (row: seq<Value>)
    ensures row == RowYield(contractFor, factory, listing, chain, types)
  {
    row := [];
    var j := 0;
    while j < |types|
      invariant 0 <= j <= |types|
      invariant row == RowYield(contractFor, factory, listing, chain, types[..j])
    {
      var contentType := types[j];
      var address := contractFor(chain, contentType);
      if address != "" {
        match factory(address, contentType, chain) {
          case Fail(_) =>
          case Ok(tracker) =>
            match Offered(tracker, listing) {
              case None =>
              case Some(Fail(_)) =>
              case Some(Ok(items)) => row := row + items;
            }
        }
      }
      assert types[..j + 1][..j] == types[..j];
      j := j + 1;
    }
    assert types[..j] == types;
  }

  /** The nested loop over chains and registered types. */
  method Sweep(contractFor: (string, string) -> string, factory: Factory, listing: Listing, types: seq<string>)
    returns (all: seq<Value>)
    ensures all == SweepYield(contractFor, factory, listing, SupportedChains, types)
  {
    all := [];
    var i := 0;
    while i < |SupportedChains|
      invariant 0 <= i <= |SupportedChains|
      invariant all == SweepYield(contractFor, factory, listing, SupportedChains[..i], types)
    {
      var row := SweepChain(contractFor, factory, listing, SupportedChains[i], types);
      all := all + row;
      assert SupportedChains[..i + 1][..i] == SupportedChains[..i];
      i := i + 1;
    }
    assert SupportedChains[..i] == SupportedChains;
  }

  /** An item is listed exactly when some chain and type pair listed it. */
  lemma RowMember(contractFor: (string, string) -> string, factory: Factory, listing: Listing,
                  chain: string, types: seq<string>, x: Value)
    ensures x in RowYield(contractFor, factory, listing, chain, types)
        <==> exists k :: 0 <= k < |types| && x in PairYield(contractFor, factory, listing, chain, types[k])
  {
    ConcatMember(types, t => PairYield(contractFor, factory, listing, chain, t), x);
  }

  /** An item is in the sweep exactly when some visited chain's row holds it. */
  lemma SweepRowMember(contractFor: (string, string) -> string, factory: Factory, listing: Listing,
                       chains: seq<string>, types: seq<string>, x: Value)
    ensures x in SweepYield(contractFor, factory, listing, chains, types)
        <==> exists c :: 0 <= c < |chains| && x in RowYield(contractFor, factory, listing, chains[c], types)
  {
    ConcatMember(chains, c => RowYield(contractFor, factory, listing, c, types), x);
  }

  /** An item is in the sweep exactly when some visited (chain, type) pair
      listed it: nothing is invented and nothing a working pair lists is lost. */
  lemma SweepMember(contractFor: (string, string) -> string, factory: Factory, listing: Listing,
                    chains: seq<string>, types: seq<string>, x: Value)
    ensures x in SweepYield(contractFor, factory, listing, chains, types)
        <==> exists c, k :: 0 <= c < |chains| && 0 <= k < |types|
                            && x in PairYield(contractFor, factory, listing, chains[c], types[k])
  {
    SweepRowMember(contractFor, factory, listing, chains, types, x);
    if x in SweepYield(contractFor, factory, listing, chains, types) {
      var c :| 0 <= c < |chains| && x in RowYield(contractFor, factory, listing, chains[c], types);
      RowMember(contractFor, factory, listing, chains[c], types, x);
    }
    if exists c, k :: 0 <= c < |chains| && 0 <= k < |types|
                      && x in PairYield(contractFor, factory, listing, chains[c], types[k]) {
      var c, k :| 0 <= c < |chains| && 0 <= k < |types|
                  && x in PairYield(contractFor, factory, listing, chains[c], types[k]);
      RowMember(contractFor, factory, listing, chains[c], types, x);
    }
  }

  /** A pair without a configured contract, or whose tracker lacks the listing,
      adds nothing. */
  lemma SkippedPairs(contractFor: (string, string) -> string, factory: Factory, listing: Listing,
                     chain: string, contentType: string)
    requires contractFor(chain, contentType) == ""
          || factory(contractFor(chain, contentType), contentType, chain).Fail?
          || Offered(factory(contractFor(chain, contentType), contentType, chain).value, listing).None?
    ensures PairYield(contractFor, factory, listing, chain, contentType) == []
  {
  }
}
