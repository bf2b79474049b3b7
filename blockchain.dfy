/**
 * The blockchain function: `/{chain}/{address}/[{method}/[{params}]]`,
 * choosing a content tracker for the contract and dispatching the method to
 * it.
 */
module Blockchain {
  import opened Json
  import opened Core
  import opened Netlify

  /** `getTracker` returned a tracker for this content type. */
  predicate Constructs(factory: Factory, address: string, chain: string, contentType: string)
  {
    factory(address, contentType, chain).Ok?
  }

  /** `getTracker` returned a tracker whose `getCollectionInfo` answered. */
  predicate Validates(factory: Factory, address: string, chain: string, contentType: string)
  {
    factory(address, contentType, chain).Ok? && factory(address, contentType, chain).value.collectionInfo.Ok?
  }

  /** The tracker the loop over registered types leaves assigned, starting
      from `current`: the first one that validates, or else the last one
      constructed, or else `current`. */
  function SelectByTypes(factory: Factory, address: string, chain: string, types: seq<string>,
                         current: Option<Tracker>): Option<Tracker>
  {
    if types == [] then current
    else match factory(address, types[0], chain)
      case Fail(_) => SelectByTypes(factory, address, chain, types[1..], current)
      case Ok(tracker) =>
        if tracker.collectionInfo.Ok? then Some(tracker)
        else SelectByTypes(factory, address, chain, types[1..], Some(tracker))
  }

  /** The tracker `processBlockchainRequest` works with: the hinted type's
      tracker as soon as it is constructed, otherwise the registered types'
      choice; CONTRACT_ERROR when no tracker was constructed at all. */
  function SelectTracker(factory: Factory, registered: Result<seq<string>>,
                         address: string, chain: string, hint: string): Result<Tracker>
  {
    if hint != "" && factory(address, hint, chain).Ok? then Ok(factory(address, hint, chain).value)
    else match registered
      case Fail(e) => Fail(e)
      case Ok(types) =>
        match SelectByTypes(factory, address, chain, types, None)
        case None => Fail(Throw("CONTRACT_ERROR", "Could not create tracker for this contract"))
        case Some(tracker) => Ok(tracker)
  }

  /** The `maxTokens` of the 'tokens' method: 100 unless a first parameter is
      given, then `parseInt` of it. */
  function MaxTokensOf(params: seq<string>): MaxTokens
  {
    if |params| > 0 && params[0] != "" then ParseInt(params[0]) else Some(100)
  }

  /** The `switch (method)` of `processBlockchainRequest`. */
  function Dispatch(tracker: Tracker, address: string, chain: string, methodName: string, params: seq<string>): (r: Result<Value>)
    ensures methodName == "info" && tracker.collectionInfo.Ok? ==>
              r.Ok? && r.value.Obj?
              && Get(r.value, "address") == Str(address) && Get(r.value, "chain") == Str(chain)
              && Get(r.value, "type") == Str(tracker.contentType)
              && forall k :: k in Spread(tracker.collectionInfo.value) && k !in {"address", "chain", "type"} ==>
                   Get(r.value, k) == Get(tracker.collectionInfo.value, k)
    ensures methodName == "info" && tracker.collectionInfo.Fail? ==> r == Fail(tracker.collectionInfo.error)
    ensures methodName in {"metadata", "ownership", "rights", "ownerTokens"} && params == [] ==>
              r.Fail? && r.error.code == "MISSING_PARAM"
    ensures methodName == "metadata" && params != [] ==> r == tracker.metadata(Str(params[0]))
    ensures methodName == "ownership" && params != [] ==> r == tracker.ownership(Str(params[0]))
    ensures methodName == "rights" && params != [] ==> r == tracker.rights(Str(params[0]))
    ensures methodName == "ownerTokens" && params != [] ==> r == tracker.tokensByOwner(Str(params[0]))
    ensures methodName == "tokens" ==>
              var tokens := tracker.allTokens(MaxTokensOf(params));
              (tokens.Ok? ==> r == Ok(Arr(tokens.value))) && (tokens.Fail? ==> r == Fail(tokens.error))
    ensures methodName !in {"info", "metadata", "tokens", "ownership", "rights", "ownerTokens"} ==>
              r == Fail(Throw("INVALID_METHOD", "Unknown method: " + methodName))
  {
    if methodName == "info" then
      match tracker.collectionInfo
      case Fail(e) => Fail(e)
      case Ok(info) =>
        Ok(Obj(Spread(info)["address" := Str(address)]["chain" := Str(chain)]["type" := Str(tracker.contentType)]))
    else if methodName == "metadata" then
      if |params| < 1 then Fail(Throw("MISSING_PARAM", "Token ID is required for metadata"))
      else tracker.metadata(Str(params[0]))
    else if methodName == "tokens" then
      match tracker.allTokens(MaxTokensOf(params))
      case Fail(e) => Fail(e)
      case Ok(tokens) => Ok(Arr(tokens))
    else if methodName == "ownership" then
      if |params| < 1 then Fail(Throw("MISSING_PARAM", "Token ID is required for ownership"))
      else tracker.ownership(Str(params[0]))
    else if methodName == "rights" then
      if |params| < 1 then Fail(Throw("MISSING_PARAM", "Token ID is required for rights"))
      else tracker.rights(Str(params[0]))
    else if methodName == "ownerTokens" then
      if |params| < 1 then Fail(Throw("MISSING_PARAM", "Owner address is required"))
      else tracker.tokensByOwner(Str(params[0]))
    else Fail(Throw("INVALID_METHOD", "Unknown method: " + methodName))
  }

  /** What `processBlockchainRequest(chain, address, methodName, params, hint)` answers. */
  function BlockchainRequest(factory: Factory, registered: Result<seq<string>>, chain: string, address: string,
                             methodName: string, params: seq<string>, hint: string): Result<Value>
  {
    match SelectTracker(factory, registered, address, chain, hint)
    case Fail(e) => Fail(e)
    case Ok(tracker) => Dispatch(tracker, address, chain, methodName, params)
  }

  /** `processBlockchainRequest`: the hinted tracker, or the loop over the
      registered types that stops at the first tracker whose info answers. */
  method ProcessBlockchainRequest(factory: Factory, registered: Result<seq<string>>, chain: string, address: string,
                                  methodName: string, params: seq<string>, hint: string)
    returns (r: Result<Value>)
    ensures r == BlockchainRequest(factory, registered, chain, address, methodName, params, hint)
  {
    var tracker: Option<Tracker> := None;
    if hint != "" {
      var made := factory(address, hint, chain);
      if made.Ok? {
        tracker := Some(made.value);
      }
    }
    if tracker.None? {
      if registered.Fail? {
        return Fail(registered.error);
      }
      var types := registered.value;
      var i := 0;
      while i < |types|
        invariant 0 <= i <= |types|
        invariant SelectByTypes(factory, address, chain, types, None)
               == SelectByTypes(factory, address, chain, types[i..], tracker)
      {
        assert types[i..][1..] == types[i + 1..];
        var made := factory(address, types[i], chain);
        if made.Ok? {
          tracker := Some(made.value);
          if made.value.collectionInfo.Ok? {
            break;
          }
        }
        i := i + 1;
      }
      if i == |types| {
        assert types[i..] == [];
      }
    }
    if tracker.None? {
      return Fail(Throw("CONTRACT_ERROR", "Could not create tracker for this contract"));
    }
    r := Dispatch(tracker.value, address, chain, methodName, params);
  }

  /** Without a usable hint, the first registered type whose tracker
      validates is the one used. */
  lemma {:induction false} FirstValidatingWins(factory: Factory, address: string, chain: string,
                                               types: seq<string>, current: Option<Tracker>, i: nat)
    requires i < |types| && Validates(factory, address, chain, types[i])
    requires forall j :: 0 <= j < i ==> !Validates(factory, address, chain, types[j])
    ensures SelectByTypes(factory, address, chain, types, current) == Some(factory(address, types[i], chain).value)
  {
    if i > 0 {
      var next := if Constructs(factory, address, chain, types[0]) then Some(factory(address, types[0], chain).value)
                  else current;
      FirstValidatingWins(factory, address, chain, types[1..], next, i - 1);
    }
  }

  /** When no type validates, the tracker of the last type that constructed
      one stays assigned and is used. */
  lemma {:induction false} LastConstructedKept(factory: Factory, address: string, chain: string,
                                               types: seq<string>, current: Option<Tracker>, k: nat)
    requires forall j :: 0 <= j < |types| ==> !Validates(factory, address, chain, types[j])
    requires k < |types| && Constructs(factory, address, chain, types[k])
    requires forall j :: k < j < |types| ==> !Constructs(factory, address, chain, types[j])
    ensures SelectByTypes(factory, address, chain, types, current) == Some(factory(address, types[k], chain).value)
  {
    var next := if Constructs(factory, address, chain, types[0]) then Some(factory(address, types[0], chain).value)
                else current;
    if k > 0 {
      LastConstructedKept(factory, address, chain, types[1..], next, k - 1);
    } else {
      NoneConstructedKeepsCurrent(factory, address, chain, types[1..], next);
    }
  }

  /** When no type constructs a tracker, the loop leaves `tracker` as it was. */
  lemma {:induction false} NoneConstructedKeepsCurrent(factory: Factory, address: string, chain: string,
                                                       types: seq<string>, current: Option<Tracker>)
    requires forall j :: 0 <= j < |types| ==> !Constructs(factory, address, chain, types[j])
    ensures SelectByTypes(factory, address, chain, types, current) == current
  {
    if types != [] {
      NoneConstructedKeepsCurrent(factory, address, chain, types[1..], current);
    }
  }

  /** A tracker left over from the loop is one a type constructed. */
  lemma {:induction false} SelectedWasConstructed(factory: Factory, address: string, chain: string,
                                                  types: seq<string>)
    ensures SelectByTypes(factory, address, chain, types, None).Some? <==>
              exists j :: 0 <= j < |types| && Constructs(factory, address, chain, types[j])
  {
    if types != [] {
      SelectedWasConstructed(factory, address, chain, types[1..]);
      if Constructs(factory, address, chain, types[0]) && !Validates(factory, address, chain, types[0]) {
        SomeStaysSome(factory, address, chain, types[1..], factory(address, types[0], chain).value);
      }
      if exists j :: 1 <= j < |types| && Constructs(factory, address, chain, types[j]) {
        var j :| 1 <= j < |types| && Constructs(factory, address, chain, types[j]);
        assert types[1..][j - 1] == types[j];
      }
      if exists j :: 0 <= j < |types| - 1 && Constructs(factory, address, chain, types[1..][j]) {
        var j :| 0 <= j < |types| - 1 && Constructs(factory, address, chain, types[1..][j]);
        assert types[j + 1] == types[1..][j];
      }
    }
  }

  lemma {:induction false} SomeStaysSome(factory: Factory, address: string, chain: string,
                                         types: seq<string>, t: Tracker)
    ensures SelectByTypes(factory, address, chain, types, Some(t)).Some?
  {
    if types != [] {
      var made := factory(address, types[0], chain);
      var next := if made.Ok? then made.value else t;
      SomeStaysSome(factory, address, chain, types[1..], next);
    }
  }

  /** A hinted type is used as soon as its tracker is constructed, without
      asking for its info. */
  lemma HintAcceptedUnchecked(factory: Factory, registered: Result<seq<string>>, address: string, chain: string, hint: string)
    requires hint != "" && Constructs(factory, address, chain, hint)
    ensures SelectTracker(factory, registered, address, chain, hint) == Ok(factory(address, hint, chain).value)
  {
  }

  /** CONTRACT_ERROR is thrown exactly when neither the hint nor any
      registered type constructed a tracker. */
  lemma ContractErrorIffNoneConstructed(factory: Factory, types: seq<string>, address: string, chain: string, hint: string)
    ensures SelectTracker(factory, Ok(types), address, chain, hint).Fail?
        <==> (hint == "" || !Constructs(factory, address, chain, hint))
             && forall j :: 0 <= j < |types| ==> !Constructs(factory, address, chain, types[j])
    ensures SelectTracker(factory, Ok(types), address, chain, hint).Fail? ==>
              SelectTracker(factory, Ok(types), address, chain, hint).error.code == "CONTRACT_ERROR"
  {
    SelectedWasConstructed(factory, address, chain, types);
  }

  /** A tracker kept although its info failed makes 'info' fail with that
      same error. */
  lemma UnvalidatedTrackerFailsInfo(factory: Factory, types: seq<string>, address: string, chain: string, k: nat)
    requires forall j :: 0 <= j < |types| ==> !Validates(factory, address, chain, types[j])
    requires k < |types| && Constructs(factory, address, chain, types[k])
    requires forall j :: k < j < |types| ==> !Constructs(factory, address, chain, types[j])
    ensures var info := factory(address, types[k], chain).value.collectionInfo;
            info.Fail? && BlockchainRequest(factory, Ok(types), chain, address, "info", [], "") == Fail(info.error)
  {
    assert !Validates(factory, address, chain, types[k]);
    LastConstructedKept(factory, address, chain, types, None, k);
  }

  /** The route the blockchain handler computes, before the response envelope. */
  function Outcome(path: seq<string>, q: map<string, string>, factory: Factory, registered: Result<seq<string>>): Result<Value>
  {
    if |path| < 2 then
      Fail(Throw("INVALID_PATH", "Invalid path format. Expected /{chain}/{address}/[{method}/[{params}]]"))
    else
      var chain := path[0];
      var address := path[1];
      var methodName := OrStr(Segment(path, 2), "info");
      var params := if |path| > 3 then path[3..] else [];
      if chain == "" then Fail(Throw("MISSING_PARAM", "Chain is required"))
      else if address == "" then Fail(Throw("MISSING_PARAM", "Contract address is required"))
      else BlockchainRequest(factory, registered, chain, address, methodName, params, Param(q, "type"))
  }

  /** The routing of the blockchain handler. */
  method Route(path: seq<string>, q: map<string, string>, factory: Factory, registered: Result<seq<string>>)
    returns (r: Result<Value>)
    ensures r == Outcome(path, q, factory, registered)
  {
    if |path| < 2 {
      return Fail(Throw("INVALID_PATH", "Invalid path format. Expected /{chain}/{address}/[{method}/[{params}]]"));
    }
    var chain := path[0];
    var address := path[1];
    var methodName := OrStr(Segment(path, 2), "info");
    var params := if |path| > 3 then path[3..] else [];
    var contentType := Param(q, "type");
    if chain == "" {
      return Fail(Throw("MISSING_PARAM", "Chain is required"));
    }
    if address == "" {
      return Fail(Throw("MISSING_PARAM", "Contract address is required"));
    }
    r := ProcessBlockchainRequest(factory, registered, chain, address, methodName, params, contentType);
  }

  /** Path validation: fewer than two segments is INVALID_PATH; an empty
      chain or address is MISSING_PARAM; a missing method is 'info'; the
      parameters are the segments after the third. */
  lemma PathShape(path: seq<string>, q: map<string, string>, factory: Factory, registered: Result<seq<string>>)
    ensures |path| < 2 ==> Outcome(path, q, factory, registered).Fail?
                           && Outcome(path, q, factory, registered).error.code == "INVALID_PATH"
    ensures |path| >= 2 && (path[0] == "" || path[1] == "") ==>
              Outcome(path, q, factory, registered).Fail?
              && Outcome(path, q, factory, registered).error.code == "MISSING_PARAM"
    ensures |path| == 2 && path[0] != "" && path[1] != "" ==>
              Outcome(path, q, factory, registered)
              == BlockchainRequest(factory, registered, path[0], path[1], "info", [], Param(q, "type"))
    ensures |path| > 3 && path[0] != "" && path[1] != "" && path[2] != "" ==>
              Outcome(path, q, factory, registered)
              == BlockchainRequest(factory, registered, path[0], path[1], path[2], path[3..], Param(q, "type"))
  {
  }
}
