/**
 * The collections function: the list sweep, `getCollectionDetails` (one
 * chain, or the first adapter that knows the address), and
 * `getCollectionItems`, which first discovers the chain of a collection when
 * none is given.
 */
module Collections {
  import opened Json
  import opened Core
  import opened Netlify
  import opened TrackerSweep

  /** An adapter knows the address when `getCollectionByAddress` answers with a
      truthy value; an adapter that throws does not. */
  predicate Hit(a: Adapter, address: string)
  {
    a.collectionByAddress(address).Ok? && Truthy(a.collectionByAddress(address).value)
  }

  /** The first adapter that knows the address, with its index, or `None`. */
  function FirstHit(adapters: seq<Adapter>, address: string): (r: Option<(nat, Value)>)
    ensures r.Some? ==> r.value.0 < |adapters| && Hit(adapters[r.value.0], address)
                        && adapters[r.value.0].collectionByAddress(address) == Ok(r.value.1)
    ensures r.Some? ==> forall j :: 0 <= j < r.value.0 ==> !Hit(adapters[j], address)
    ensures r.None? <==> forall j :: 0 <= j < |adapters| ==> !Hit(adapters[j], address)
  {
    if adapters == [] then None
    else if Hit(adapters[0], address) then Some((0, adapters[0].collectionByAddress(address).value))
    else match FirstHit(adapters[1..], address)
      case None => None
      case Some((i, c)) => Some((i + 1, c))
  }

  /** `getCollectionsList()`: the sweep over `getCollections`, after
      `getRegisteredTypes()`, whose failure propagates. */
  method GetCollectionsList(types: Result<seq<string>>, contractFor: (string, string) -> string, factory: Factory)
    returns (r: Result<seq<Value>>)
    ensures types.Fail? ==> r == Fail(types.error)
    ensures types.Ok? ==> r == Ok(SweepYield(contractFor, factory, Collections, SupportedChains, types.value))
  {
    match types {
      case Fail(e) => r := Fail(e);
      case Ok(ts) =>
        var all := Sweep(contractFor, factory, Collections, ts);
        r := Ok(all);
    }
  }

  /** What `getCollectionDetails(address, chain)` answers. */
  function CollectionDetails(adapters: Adapters, address: string, chain: string): Result<Value>
  {
    if chain != "" && chain != "all" then
      match adapters.forChain(Str(chain))
      case Fail(e) => Fail(e)
      case Ok(None) => Fail(Throw("INVALID_PARAM", "Invalid chain: " + chain))
      case Ok(Some(adapter)) => adapter.collectionByAddress(address)
    else
      match adapters.all
      case Fail(e) => Fail(e)
      case Ok(list) =>
        match FirstHit(list, address)
        case None => Ok(Null)
        case Some((_, collection)) => Ok(collection)
  }

  /** `getCollectionDetails`: a named chain asks that chain's adapter alone;
      otherwise the adapters are asked in order until one knows the address. */
  method GetCollectionDetails(adapters: Adapters, address: string, chain: string) returns (r: Result<Value>)
    ensures r == CollectionDetails(adapters, address, chain)
  {
    if chain != "" && chain != "all" {
      var found := adapters.forChain(Str(chain));
      if found.Fail? {
        return Fail(found.error);
      }
      if found.value.None? {
        return Fail(Throw("INVALID_PARAM", "Invalid chain: " + chain));
      }
      return found.value.value.collectionByAddress(address);
    }
    if adapters.all.Fail? {
      return Fail(adapters.all.error);
    }
    var list := adapters.all.value;
    var i := 0;
    while i < |list|
      invariant 0 <= i <= |list|
      invariant forall j :: 0 <= j < i ==> !Hit(list[j], address)
    {
      var answer := list[i].collectionByAddress(address);
      if answer.Ok? && Truthy(answer.value) {
        return Ok(answer.value);
      }
      i := i + 1;
    }
    return Ok(Null);
  }

  /** A named chain: an unknown chain is an INVALID_PARAM error, a known one
      gives its adapter's answer as it is, falsy or not. */
  lemma DetailsOnNamedChain(adapters: Adapters, address: string, chain: string)
    requires chain != "" && chain != "all"
    ensures adapters.forChain(Str(chain)) == Ok(None) ==>
              CollectionDetails(adapters, address, chain).Fail?
              && CollectionDetails(adapters, address, chain).error.code == "INVALID_PARAM"
    ensures adapters.forChain(Str(chain)).Ok? && adapters.forChain(Str(chain)).value.Some? ==>
              CollectionDetails(adapters, address, chain)
              == adapters.forChain(Str(chain)).value.value.collectionByAddress(address)
  {
  }

  /** Searching every chain: the answer is the first truthy collection any
      adapter gives, skipping adapters that throw, and `null` when none does. */
  lemma DetailsOnAllChains(adapters: Adapters, address: string, chain: string)
    requires chain == "" || chain == "all"
    requires adapters.all.Ok?
    ensures CollectionDetails(adapters, address, chain).Ok?
    ensures var v := CollectionDetails(adapters, address, chain).value;
            var list := adapters.all.value;
            (v == Null <==> forall j :: 0 <= j < |list| ==> !Hit(list[j], address))
            && (v != Null ==> exists i :: 0 <= i < |list| && list[i].collectionByAddress(address) == Ok(v)
                                          && Truthy(v)
                                          && forall j :: 0 <= j < i ==> !Hit(list[j], address))
  {
    var list := adapters.all.value;
    match FirstHit(list, address)
    case None =>
    case Some((i, c)) =>
      assert list[i].collectionByAddress(address) == Ok(c);
  }

  /** The `{ items, pagination, collection }` envelope of `getCollectionItems`. */
  datatype ItemsPage = ItemsPage(
    items: seq<Value>, total: nat, limit: nat, offset: nat, hasMore: bool,
    address: string, chain: Value)

  function ItemsPageValue(p: ItemsPage): Value
  {
    Obj(map[
      "items" := Arr(p.items),
      "pagination" := Obj(map["total" := Num(p.total), "limit" := Num(p.limit),
                              "offset" := Num(p.offset), "hasMore" := Bool(p.hasMore)]),
      "collection" := Obj(map["address" := Str(p.address), "chain" := p.chain])])
  }

  /** The chain `getCollectionItems` reads the items from: the one given, or
      the `chain` of the first collection any adapter knows. */
  function DiscoveredChain(adapters: Adapters, address: string, chain: string): Result<Value>
  {
    if chain != "" && chain != "all" then Ok(Str(chain))
    else match adapters.all
      case Fail(e) => Fail(e)
      case Ok(list) =>
        var found := match FirstHit(list, address)
                     case None => Str(chain)
                     case Some((_, collection)) => Get(collection, "chain");
        if !Truthy(found) || found == Str("all") then Fail(Throw("NOT_FOUND", "Collection not found on any chain"))
        else Ok(found)
  }

  /** What `getCollectionItems(address, chain, limit, offset)` answers. */
  function CollectionItems(adapters: Adapters, address: string, chain: string, limit: nat, offset: nat): Result<ItemsPage>
  {
    match DiscoveredChain(adapters, address, chain)
    case Fail(e) => Fail(e)
    case Ok(ch) =>
      match adapters.forChain(ch)
      case Fail(e) => Fail(e)
      case Ok(None) => Fail(Throw("INVALID_PARAM", "Invalid chain: " + Show(ch)))
      case Ok(Some(adapter)) =>
        match adapter.collectionItems(address, limit, offset)
        case Fail(e) => Fail(e)
        case Ok(items) => Ok(ItemsPage(items, |items|, limit, offset, |items| == limit, address, ch))
  }

  /** `getCollectionItems`: the discovery loop stops at the first adapter that
      knows the address, whatever `chain` that collection carries. */
  method GetCollectionItems(adapters: Adapters, address: string, chain: string, limit: nat, offset: nat)
    returns (r: Result<ItemsPage>)
    ensures r == CollectionItems(adapters, address, chain, limit, offset)
  {
    var ch := Str(chain);
    if chain == "" || chain == "all" {
      if adapters.all.Fail? {
        return Fail(adapters.all.error);
      }
      var list := adapters.all.value;
      var i := 0;
      while i < |list|
        invariant 0 <= i <= |list|
        invariant forall j :: 0 <= j < i ==> !Hit(list[j], address)
      {
        var answer := list[i].collectionByAddress(address);
        if answer.Ok? && Truthy(answer.value) {
          ch := Get(answer.value, "chain");
          break;
        }
        i := i + 1;
      }
      if !Truthy(ch) || ch == Str("all") {
        return Fail(Throw("NOT_FOUND", "Collection not found on any chain"));
      }
    }
    var found := adapters.forChain(ch);
    if found.Fail? {
      return Fail(found.error);
    }
    if found.value.None? {
      return Fail(Throw("INVALID_PARAM", "Invalid chain: " + Show(ch)));
    }
    var items := found.value.value.collectionItems(address, limit, offset);
    if items.Fail? {
      return Fail(items.error);
    }
    r := Ok(ItemsPage(items.value, |items.value|, limit, offset, |items.value| == limit, address, ch));
  }

  /** The envelope: the total is the length of the page fetched, `hasMore`
      holds exactly when the page is full, and the chain reported is a real
      chain name, never a falsy value or 'all'. */
  lemma ItemsEnvelope(adapters: Adapters, address: string, chain: string, limit: nat, offset: nat)
    requires CollectionItems(adapters, address, chain, limit, offset).Ok?
    ensures var p := CollectionItems(adapters, address, chain, limit, offset).value;
            p.total == |p.items| && (p.hasMore <==> |p.items| == limit)
            && p.limit == limit && p.offset == offset && p.address == address
            && Truthy(p.chain) && p.chain != Str("all")
  {
  }

  /** Discovery: with no chain or 'all', the items come from the chain of the
      first collection any adapter knows; when there is none, or that first
      collection has no usable chain, the request fails with NOT_FOUND even if a
      later adapter's collection names a chain. */
  lemma DiscoveryUsesFirstHit(adapters: Adapters, address: string, chain: string)
    requires chain == "" || chain == "all"
    requires adapters.all.Ok?
    ensures FirstHit(adapters.all.value, address).None? ==>
              DiscoveredChain(adapters, address, chain) == Fail(Throw("NOT_FOUND", "Collection not found on any chain"))
    ensures FirstHit(adapters.all.value, address).Some? ==>
              var c := Get(FirstHit(adapters.all.value, address).value.1, "chain");
              DiscoveredChain(adapters, address, chain)
              == if !Truthy(c) || c == Str("all") then Fail(Throw("NOT_FOUND", "Collection not found on any chain"))
                 else Ok(c)
  {
  }

  /** The route the collections handler computes, before the response envelope. */
  function Outcome(path: seq<string>, q: map<string, string>, adapters: Adapters,
                   types: Result<seq<string>>, contractFor: (string, string) -> string, factory: Factory): Result<Value>
  {
    var address := Segment(path, 0);
    var chain := OrStr(Param(q, "chain"), "all");
    if address == "" then
      match types
      case Fail(e) => Fail(e)
      case Ok(ts) => Ok(Arr(SweepYield(contractFor, factory, Collections, SupportedChains, ts)))
    else if Segment(path, 1) == "items" then
      match CollectionItems(adapters, address, chain, LimitParam(q), OffsetParam(q))
      case Fail(e) => Fail(e)
      case Ok(p) => Ok(ItemsPageValue(p))
    else
      match CollectionDetails(adapters, address, chain)
      case Fail(e) => Fail(e)
      case Ok(collection) =>
        if !Truthy(collection) then Fail(Throw("NOT_FOUND", "Collection not found")) else Ok(collection)
  }

  /** The routing of the collections handler. */
  method Route(path: seq<string>, q: map<string, string>, adapters: Adapters,
               types: Result<seq<string>>, contractFor: (string, string) -> string, factory: Factory)
    returns (r: Result<Value>)
    ensures r == Outcome(path, q, adapters, types, contractFor, factory)
  {
    var address := Segment(path, 0);
    var subResource := Segment(path, 1);
    var limit := LimitParam(q);
    var offset := OffsetParam(q);
    var chain := OrStr(Param(q, "chain"), "all");
    if address == "" {
      var collections := GetCollectionsList(types, contractFor, factory);
      r := if collections.Fail? then Fail(collections.error) else Ok(Arr(collections.value));
    } else if subResource == "items" {
      var items := GetCollectionItems(adapters, address, chain, limit, offset);
      r := if items.Fail? then Fail(items.error) else Ok(ItemsPageValue(items.value));
    } else {
      var collection := GetCollectionDetails(adapters, address, chain);
      if collection.Fail? {
        r := Fail(collection.error);
      } else if !Truthy(collection.value) {
        r := Fail(Throw("NOT_FOUND", "Collection not found"));
      } else {
        r := Ok(collection.value);
      }
    }
  }

  /** The list ignores the chain, limit and offset of the query: it is the
      whole sweep, as a plain array. */
  lemma ListIgnoresQuery(path: seq<string>, q1: map<string, string>, q2: map<string, string>, adapters: Adapters,
                         types: Result<seq<string>>, contractFor: (string, string) -> string, factory: Factory)
    requires Segment(path, 0) == ""
    ensures Outcome(path, q1, adapters, types, contractFor, factory)
         == Outcome(path, q2, adapters, types, contractFor, factory)
  {
  }

  /** A collection nobody knows is NOT_FOUND; without a `chain` query every
      adapter is searched. */
  lemma UnknownCollection(path: seq<string>, q: map<string, string>, adapters: Adapters,
                          types: Result<seq<string>>, contractFor: (string, string) -> string, factory: Factory)
    requires Segment(path, 0) != "" && Segment(path, 1) != "items"
    requires "chain" !in q && adapters.all.Ok?
    requires forall j :: 0 <= j < |adapters.all.value| ==> !Hit(adapters.all.value[j], Segment(path, 0))
    ensures Outcome(path, q, adapters, types, contractFor, factory) == Fail(Throw("NOT_FOUND", "Collection not found"))
  {
  }
  /** Without a query, the items route searches every chain and reads the
      first twenty items. */
  lemma ItemsDefaults(path: seq<string>, adapters: Adapters,
                      types: Result<seq<string>>, contractFor: (string, string) -> string, factory: Factory)
    requires Segment(path, 0) != "" && Segment(path, 1) == "items"
    ensures Outcome(path, map[], adapters, types, contractFor, factory)
         == match CollectionItems(adapters, Segment(path, 0), "all", 20, 0)
            case Fail(e) => Fail(e)
            case Ok(p) => Ok(ItemsPageValue(p))
  {
  }
}
