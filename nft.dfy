/**
 * The nft function: token metadata, collection info from a representative
 * token, ownership queries, and batches of at most twenty tokens. Every
 * answer, errors included, is formatted with `createResponse`; nothing here
 * goes through `optimizeForFrame`.
 */
module Nft {
  import opened Json
  import opened Core
  import opened Netlify
  import opened ResponseFormatter
  import opened FrameDetection

  /** The `@pagedao/core` calls this function makes, as oracles.
      `fetchMetadata(contract, assetType, chain, tokenId, includeOwnership)`
      has `None` for a call without an options object. */
  datatype NftOracles = NftOracles(
    fetchMetadata: (string, string, string, string, Option<bool>) -> Result<Value>,
    tokensForOwner: (string, string, string, string) -> Result<Value>,
    isOwnedBy: (string, string, string, string, string) -> Result<Value>)

  const MaxBatchSize: nat := 20

  /** `createResponse(data, status, {}, isFrame)` */
  function Reply(data: Value, status: int, isFrame: bool, ctx: Context): Response
  {
    CreateResponse(data, status, map[], isFrame, ctx)
  }

  function ErrorData(message: string): Value
  {
    Obj(map["error" := Str(message)])
  }

  function FailureData(message: string, e: Thrown): Value
  {
    Obj(map["error" := Str(message), "details" := Str(e.message)])
  }

  /** The fixed arguments of every fetch in a batch. */
  datatype Batch = Batch(contract: string, assetType: string, chain: string, includeOwnership: bool)

  function FetchOne(fetch: (string, string, string, string, Option<bool>) -> Result<Value>, b: Batch, id: string): Result<Value>
  {
    fetch(b.contract, b.assetType, b.chain, id, Some(b.includeOwnership))
  }

  /** `Promise.all(limitedTokenIds.map(fetchNFTMetadata …))`: all the
      answers in token order, or the failure of the first token that failed. */
  function BatchResults(fetch: (string, string, string, string, Option<bool>) -> Result<Value>, b: Batch, ids: seq<string>)
    : (r: Result<seq<Value>>)
    ensures r.Ok? ==> |r.value| == |ids|
                      && forall k :: 0 <= k < |ids| ==> FetchOne(fetch, b, ids[k]) == Ok(r.value[k])
    ensures r.Fail? ==> exists k :: 0 <= k < |ids| && FetchOne(fetch, b, ids[k]) == Fail(r.error)
                                    && forall j :: 0 <= j < k ==> FetchOne(fetch, b, ids[j]).Ok?
    ensures r.Ok? <==> forall k :: 0 <= k < |ids| ==> FetchOne(fetch, b, ids[k]).Ok?
  {
    if ids == [] then Ok([])
    else
      var init := ids[..|ids| - 1];
      assert forall k :: 0 <= k < |init| ==> init[k] == ids[k];
      match BatchResults(fetch, b, init)
      case Fail(e) => Fail(e)
      case Ok(firsts) =>
        match FetchOne(fetch, b, ids[|ids| - 1])
        case Fail(e) => Fail(e)
        case Ok(last) => Ok(firsts + [last])
  }

  /** The first `MaxBatchSize` token ids, in order. */
  function Limited(tokenIds: seq<string>): (r: seq<string>)
    ensures |r| == if |tokenIds| < MaxBatchSize then |tokenIds| else MaxBatchSize
    ensures r == tokenIds[..|r|]
  {
    if |tokenIds| <= MaxBatchSize then tokenIds else tokenIds[..MaxBatchSize]
  }

  /** The token ids of a batch: `tokenIds` split on ',' when given. */
  function TokenIds(q: map<string, string>): seq<string>
  {
    if Param(q, "tokenIds") != "" then Split(q["tokenIds"], ',') else []
  }

  /** What a route answers before the envelope: a status and the data. */
  datatype Answer = Answer(status: int, data: Value)

  /** The fixed arguments of the batch route, `/batch/{contract}/{chain}`. */
  function BatchOf(path: seq<string>, q: map<string, string>): Batch
  {
    Batch(OrStr(Segment(path, 1), Param(q, "contract")), OrStr(Param(q, "assetType"), "nft"),
          OrStr(OrStr(Segment(path, 2), Param(q, "chain")), "ethereum"), Param(q, "includeOwnership") == "true")
  }

  /** The batch summary for the fetched items. */
  function BatchData(b: Batch, tokenIds: seq<string>, items: seq<Value>): Value
  {
    Obj(map[
      "contractAddress" := Str(b.contract), "chain" := Str(b.chain), "assetType" := Str(b.assetType),
      "items" := Arr(items), "count" := Num(|items|),
      "request" := Obj(map["requested" := Num(|tokenIds|), "processed" := Num(|Limited(tokenIds)|)])])
  }

  /** The batch route. */
  function BatchAnswer(fetch: (string, string, string, string, Option<bool>) -> Result<Value>,
                       path: seq<string>, q: map<string, string>): Answer
  {
    var b := BatchOf(path, q);
    var tokenIds := TokenIds(q);
    if b.contract == "" then Answer(400, ErrorData("Contract address is required for batch requests"))
    else if |tokenIds| == 0 then Answer(400, ErrorData("No token IDs provided for batch request"))
    else match BatchResults(fetch, b, Limited(tokenIds))
      case Fail(e) => Answer(500, FailureData("Failed to fetch batch metadata", e))
      case Ok(items) => Answer(200, BatchData(b, tokenIds, items))
  }

  /** The collection-info answer built from a representative token's
      metadata, with its defaults. */
  function CollectionInfoData(metadata: Value, contract: string, chain: string, assetType: string): Value
  {
    Obj(map[
      "name" := Or(Get(metadata, "title"), Str("Unknown Collection")),
      "description" := Or(Get(metadata, "description"), Str("")),
      "contractAddress" := Str(contract), "chain" := Str(chain), "assetType" := Str(assetType),
      "imageURI" := Or(Get(metadata, "imageURI"), Str("")),
      "creator" := Or(Get(metadata, "creator"), Str("")),
      "symbol" := Or(Get(Get(metadata, "additionalData"), "symbol"), Str("")),
      "totalSupply" := Or(Get(metadata, "totalSupply"), Undefined),
      "maxSupply" := Or(Get(metadata, "maxSupply"), Undefined),
      "format" := Or(Get(metadata, "format"), Str("nft")),
      "collectionData" := Obj(map["representativeTokenId" := Str("1"), "representativeMetadata" := metadata])])
  }

  /** The non-batch routes. */
  function SingleAnswer(oracles: NftOracles, path: seq<string>, q: map<string, string>): Answer
  {
    var contract := OrStr(Segment(path, 0), Param(q, "contract"));
    var chain := OrStr(OrStr(Segment(path, 1), Param(q, "chain")), "ethereum");
    var assetType := OrStr(Param(q, "assetType"), "nft");
    var action := Segment(path, 2);
    if contract == "" then Answer(400, ErrorData("Contract address is required"))
    else if action == "collection-info" then
      match oracles.fetchMetadata(contract, assetType, chain, "1", None)
      case Fail(e) => Answer(500, FailureData("Failed to fetch collection info", e))
      case Ok(metadata) =>
        if metadata == Null || metadata == Undefined then
          Answer(500, FailureData("Failed to fetch collection info", TypeError()))
        else Answer(200, CollectionInfoData(metadata, contract, chain, assetType))
    else if action == "owner" && Segment(path, 3) != "" then
      match oracles.tokensForOwner(contract, assetType, chain, Segment(path, 3))
      case Fail(e) => Answer(500, FailureData("Failed to get tokens", e))
      case Ok(tokens) => Answer(200, Obj(map["tokens" := tokens]))
    else if action == "check-ownership" && Segment(path, 3) != "" && Param(q, "address") != "" then
      match oracles.isOwnedBy(contract, assetType, chain, Segment(path, 3), Param(q, "address"))
      case Fail(e) => Answer(500, FailureData("Failed to check ownership", e))
      case Ok(owned) => Answer(200, Obj(map["owned" := owned]))
    else
      var tokenId := OrStr(action, Param(q, "tokenId"));
      if tokenId == "" then Answer(400, ErrorData("Token ID is required"))
      else match oracles.fetchMetadata(contract, assetType, chain, tokenId, Some(Param(q, "includeOwnership") == "true"))
        case Fail(e) => Answer(500, FailureData("Failed to fetch metadata", e))
        case Ok(metadata) => Answer(200, metadata)
  }

  /** What the nft handler answers once past the rate limiter: the batch route
      whenever the first segment is 'batch'. */
  function NftAnswer(oracles: NftOracles, path: seq<string>, q: map<string, string>): Answer
  {
    if Segment(path, 0) == "batch" then BatchAnswer(oracles.fetchMetadata, path, q)
    else SingleAnswer(oracles, path, q)
  }

  /** The nft handler's response. `rateLimit` is what
      `rateLimitCheck(event)` answered, and it short-circuits; every other
      answer is wrapped by `createResponse`, and none goes through
      `optimizeForFrame`. */
  function NftResponse(oracles: NftOracles, event: Event, rateLimit: Option<Response>, ctx: Context): (r: Response)
    ensures rateLimit.Some? ==> r == rateLimit.value
    ensures rateLimit.None? ==>
              var a := NftAnswer(oracles, event.path, QueryOf(event));
              && r.statusCode == a.status
              && Get(r.body, "success") == Bool(200 <= a.status < 300)
              && Get(r.body, "data") == a.data
              && "X-Frame-Optimized" !in r.headers
  {
    if rateLimit.Some? then rateLimit.value
    else
      var a := NftAnswer(oracles, event.path, QueryOf(event));
      Reply(a.data, a.status, IsFrameRequest(Some(event)), ctx)
  }

  /** A successful batch processes the first twenty ids at most, in order:
      `count` and `processed` are both that number, `requested` the number
      given, and item k is the metadata of token k. */
  lemma BatchLimits(fetch: (string, string, string, string, Option<bool>) -> Result<Value>,
                    path: seq<string>, q: map<string, string>)
    requires BatchAnswer(fetch, path, q).status == 200
    ensures var data := BatchAnswer(fetch, path, q).data;
            var tokenIds := TokenIds(q);
            var processed := if |tokenIds| < MaxBatchSize then |tokenIds| else MaxBatchSize;
            && 0 < |tokenIds|
            && Get(data, "count") == Num(processed)
            && Get(Get(data, "request"), "processed") == Num(processed)
            && Get(Get(data, "request"), "requested") == Num(|tokenIds|)
            && Get(data, "items").Arr? && |Get(data, "items").elems| == processed
            && forall k :: 0 <= k < processed ==>
                 FetchOne(fetch, BatchOf(path, q), tokenIds[k]) == Ok(Get(data, "items").elems[k])
  {
    var b := BatchOf(path, q);
    var tokenIds := TokenIds(q);
    var limited := Limited(tokenIds);
    var r := BatchResults(fetch, b, limited);
    assert r.Ok? && BatchAnswer(fetch, path, q).data == BatchData(b, tokenIds, r.value);
    forall k | 0 <= k < |limited| ensures limited[k] == tokenIds[k] {
      assert limited == tokenIds[..|limited|];
    }
  }

  /** A batch fails with a 500 exactly when one of its first twenty ids fails
      to fetch; ids past the twentieth are never fetched. */
  lemma BatchFailsAsWhole(fetch: (string, string, string, string, Option<bool>) -> Result<Value>,
                          path: seq<string>, q: map<string, string>)
    requires BatchOf(path, q).contract != "" && |TokenIds(q)| > 0
    ensures BatchAnswer(fetch, path, q).status == 500 <==>
            exists k :: 0 <= k < |TokenIds(q)| && k < MaxBatchSize && FetchOne(fetch, BatchOf(path, q), TokenIds(q)[k]).Fail?
  {
    var limited := Limited(TokenIds(q));
    assert forall k :: 0 <= k < |limited| ==> limited[k] == TokenIds(q)[k];
  }

  /** Whenever the first segment is 'batch' the batch route answers, and
      without a contract it is a 400 whatever else the request holds. */
  lemma BatchNeedsContract(oracles: NftOracles, path: seq<string>, q: map<string, string>)
    requires Segment(path, 0) == "batch" && Segment(path, 1) == "" && "contract" !in q
    ensures NftAnswer(oracles, path, q) == Answer(400, ErrorData("Contract address is required for batch requests"))
  {
  }

  /** A single token is fetched on 'ethereum' as an 'nft', without ownership,
      unless the path or query say otherwise. */
  lemma SingleTokenDefaults(oracles: NftOracles, contract: string, tokenId: string)
    requires contract != "" && contract != "batch" && tokenId != ""
    requires tokenId != "collection-info" && tokenId != "owner" && tokenId != "check-ownership"
    requires oracles.fetchMetadata(contract, "nft", "ethereum", tokenId, Some(false)).Ok?
    ensures NftAnswer(oracles, [contract, "", tokenId], map[])
         == Answer(200, oracles.fetchMetadata(contract, "nft", "ethereum", tokenId, Some(false)).value)
  {
  }

  /** Collection info reads token '1' and falls back to 'Unknown Collection',
      an empty description and the 'nft' format. */
  lemma CollectionInfoDefaults(oracles: NftOracles, contract: string, chain: string)
    requires contract != "" && contract != "batch" && chain != ""
    requires oracles.fetchMetadata(contract, "nft", chain, "1", None) == Ok(Obj(map[]))
    ensures var a := NftAnswer(oracles, [contract, chain, "collection-info"], map[]);
            && a.status == 200
            && Get(a.data, "name") == Str("Unknown Collection")
            && Get(a.data, "description") == Str("")
            && Get(a.data, "format") == Str("nft")
            && Get(Get(a.data, "collectionData"), "representativeTokenId") == Str("1")
  {
    var path := [contract, chain, "collection-info"];
    assert Segment(path, 0) == contract && Segment(path, 1) == chain && Segment(path, 2) == "collection-info";
    assert NftAnswer(oracles, path, map[]) == Answer(200, CollectionInfoData(Obj(map[]), contract, chain, "nft"));
    EmptyMetadataDefaults(contract, chain, "nft");
  }

  /** Metadata with no fields gives the default name, description and format. */
  lemma EmptyMetadataDefaults(contract: string, chain: string, assetType: string)
    ensures var d := CollectionInfoData(Obj(map[]), contract, chain, assetType);
            && Get(d, "name") == Str("Unknown Collection")
            && Get(d, "description") == Str("")
            && Get(d, "format") == Str("nft")
            && Get(Get(d, "collectionData"), "representativeTokenId") == Str("1")
  {
  }

  /** Null metadata for the representative token is a 500, not a crash. */
  lemma NullCollectionMetadata(oracles: NftOracles, contract: string, chain: string)
    requires contract != "" && contract != "batch" && chain != ""
    requires oracles.fetchMetadata(contract, "nft", chain, "1", None) == Ok(Null)
    ensures NftAnswer(oracles, [contract, chain, "collection-info"], map[]).status == 500
  {
  }

  /** Without a token id in the path or the query the answer is a 400. */
  lemma TokenIdRequired(oracles: NftOracles, contract: string)
    requires contract != "" && contract != "batch"
    ensures NftAnswer(oracles, [contract], map[]) == Answer(400, ErrorData("Token ID is required"))
  {
  }

  /** `/{contract}/{chain}/owner` with no owner segment falls through to the
      metadata route and fetches the token whose id is 'owner'. */
  lemma OwnerWithoutAddress(oracles: NftOracles, contract: string, chain: string)
    requires contract != "" && contract != "batch" && chain != ""
    requires oracles.fetchMetadata(contract, "nft", chain, "owner", Some(false)).Ok?
    ensures NftAnswer(oracles, [contract, chain, "owner"], map[])
         == Answer(200, oracles.fetchMetadata(contract, "nft", chain, "owner", Some(false)).value)
  {
  }
  /** `/{contract}/{chain}/owner/{owner}` answers the owner's tokens, or a 500
      carrying the failure's message. */
  lemma OwnerRoute(oracles: NftOracles, contract: string, chain: string, owner: string)
    requires contract != "" && contract != "batch" && chain != "" && owner != ""
    ensures var a := NftAnswer(oracles, [contract, chain, "owner", owner], map[]);
            var tokens := oracles.tokensForOwner(contract, "nft", chain, owner);
            && (a.status == 200 <==> tokens.Ok?)
            && (tokens.Ok? ==> Get(a.data, "tokens") == tokens.value)
            && (tokens.Fail? ==> a.status == 500 && Get(a.data, "details") == Str(tokens.error.message))
  {
  }

  /** An ownership check without an `address` query parameter is not a check:
      it falls through to the metadata route and fetches the token whose id
      is 'check-ownership'. With the address, the check is made. */
  lemma CheckOwnershipNeedsAddress(oracles: NftOracles, contract: string, chain: string, tokenId: string,
                                   address: string)
    requires contract != "" && contract != "batch" && chain != "" && tokenId != ""
    requires oracles.fetchMetadata(contract, "nft", chain, "check-ownership", Some(false)).Ok?
    requires oracles.isOwnedBy(contract, "nft", chain, tokenId, address).Ok?
    ensures NftAnswer(oracles, [contract, chain, "check-ownership", tokenId], map[])
         == Answer(200, oracles.fetchMetadata(contract, "nft", chain, "check-ownership", Some(false)).value)
    ensures address != "" ==>
              NftAnswer(oracles, [contract, chain, "check-ownership", tokenId], map["address" := address])
              == Answer(200, Obj(map["owned" := oracles.isOwnedBy(contract, "nft", chain, tokenId, address).value]))
  {
  }
}
