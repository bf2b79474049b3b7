/**
 * The books function: mapping listed addresses to chains, resolving one book
 * by trying the book content types in order, the sorted and paginated list,
 * the featured list, and the routing of `/books`, `/books/featured` and
 * `/books/:id`.
 */
module Books {
  import opened Json
  import opened Core
  import opened Netlify
  import opened Sorting
  import opened Pagination

  /** The content types a book may be, in the order they are tried. */
  const BookContentTypes: seq<string> := ["book", "alexandria_book"]

  /** `chains[index] || chains[0] || 'ethereum'` */
  function ChainAt(chains: seq<string>, index: nat): (c: string)
    ensures index < |chains| && chains[index] != "" ==> c == chains[index]
    ensures (index >= |chains| || chains[index] == "") && |chains| > 0 && chains[0] != "" ==> c == chains[0]
    ensures (index >= |chains| || chains[index] == "") && (|chains| == 0 || chains[0] == "") ==> c == "ethereum"
    ensures c != ""
  {
    if index < |chains| && chains[index] != "" then chains[index]
    else if |chains| > 0 && chains[0] != "" then chains[0]
    else "ethereum"
  }

  /** `chainsByAddress` once the `forEach` has visited the given addresses. */
  function ChainsByAddress(addresses: seq<string>, chains: seq<string>): map<string, string>
  {
    if addresses == [] then map[]
    else
      var n := |addresses| - 1;
      ChainsByAddress(addresses[..n], chains)[addresses[n] := ChainAt(chains, n)]
  }

  /** The `forEach` that fills `chainsByAddress`. */
  method MapChains(addresses: seq<string>, chains: seq<string>) returns (chainsByAddress: map<string, string>)
    ensures chainsByAddress == ChainsByAddress(addresses, chains)
  {
    chainsByAddress := map[];
    var index := 0;
    while index < |addresses|
      invariant 0 <= index <= |addresses|
      invariant chainsByAddress == ChainsByAddress(addresses[..index], chains)
    {
      assert addresses[..index + 1][..index] == addresses[..index];
      chainsByAddress := chainsByAddress[addresses[index] := ChainAt(chains, index)];
      index := index + 1;
    }
    assert addresses[..index] == addresses;
  }

  /** Every listed address is mapped, and nothing else is. */
  lemma {:induction false} EveryAddressMapped(addresses: seq<string>, chains: seq<string>)
    ensures forall a :: a in ChainsByAddress(addresses, chains) <==> a in addresses
  {
    if addresses != [] {
      var n := |addresses| - 1;
      EveryAddressMapped(addresses[..n], chains);
      assert addresses == addresses[..n] + [addresses[n]];
    }
  }

  /** An address listed more than once takes the chain of its last position. */
  lemma {:induction false} LastPositionWins(addresses: seq<string>, chains: seq<string>, i: nat)
    requires i < |addresses|
    requires forall j :: i < j < |addresses| ==> addresses[j] != addresses[i]
    ensures addresses[i] in ChainsByAddress(addresses, chains)
    ensures ChainsByAddress(addresses, chains)[addresses[i]] == ChainAt(chains, i)
  {
    var n := |addresses| - 1;
    if i < n {
      LastPositionWins(addresses[..n], chains, i);
    }
  }

  /** The `address`, `chain` and `type` fields written last into a book. */
  function Identity(address: string, chain: string, contentType: string): Record
  {
    map["address" := Str(address), "chain" := Str(chain), "type" := Str(contentType)]
  }

  /** One pass of the loop in `getBookDetails`: the book read with one content
      type, or the error that made that type fail. */
  function TryType(factory: Factory, address: string, chain: string, contentType: string): Result<Record>
  {
    match factory(address, contentType, chain)
    case Fail(e) => Fail(e)
    case Ok(tracker) =>
      match tracker.collectionInfo
      case Fail(e) => Fail(e)
      case Ok(info) =>
        match tracker.allTokens(Some(1))
        case Fail(e) => Fail(e)
        case Ok(tokenIds) =>
          if |tokenIds| == 0 then Ok(Spread(info) + Identity(address, chain, contentType))
          else
            match tracker.metadata(tokenIds[0])
            case Fail(e) => Fail(e)
            case Ok(metadata) =>
              Ok(Spread(info) + Spread(metadata) + Identity(address, chain, contentType)["tokenId" := tokenIds[0]])
  }

  /** The book the first working content type gives, or `None` for `null`. */
  function FirstBook(factory: Factory, address: string, chain: string, types: seq<string>): Option<Record>
  {
    if types == [] then None
    else match TryType(factory, address, chain, types[0])
      case Ok(book) => Some(book)
      case Fail(_) => FirstBook(factory, address, chain, types[1..])
  }

  /** What `getBookDetails(address, chain)` answers. Every failure inside the
      loop is caught, so it never throws. */
  function BookDetails(factory: Factory, address: string, chain: string): Option<Record>
  {
    FirstBook(factory, address, chain, BookContentTypes)
  }

  /** `getBookDetails`: tries each book content type and returns the first
      book one of them yields. */
  method GetBookDetails(factory: Factory, address: string, chain: string) returns (book: Option<Record>)
    ensures book == BookDetails(factory, address, chain)
  {
    var i := 0;
    while i < |BookContentTypes|
      invariant 0 <= i <= |BookContentTypes|
      invariant BookDetails(factory, address, chain)
             == FirstBook(factory, address, chain, BookContentTypes[i..])
    {
      var contentType := BookContentTypes[i];
      var tracker := factory(address, contentType, chain);
      if tracker.Ok? {
        var collectionInfo := tracker.value.collectionInfo;
        if collectionInfo.Ok? {
          var tokenIds := tracker.value.allTokens(Some(1));
          if tokenIds.Ok? {
            if |tokenIds.value| == 0 {
              return Some(Spread(collectionInfo.value) + Identity(address, chain, contentType));
            }
            var metadata := tracker.value.metadata(tokenIds.value[0]);
            if metadata.Ok? {
              return Some(Spread(collectionInfo.value) + Spread(metadata.value)
                          + Identity(address, chain, contentType)["tokenId" := tokenIds.value[0]]);
            }
          }
        }
      }
      assert BookContentTypes[i..][1..] == BookContentTypes[i + 1..];
      i := i + 1;
    }
    return None;
  }

  /** 'book' is tried first; 'alexandria_book' only when 'book' fails; the
      result is `null` exactly when both fail. */
  lemma BookTypeOrder(factory: Factory, address: string, chain: string)
    ensures TryType(factory, address, chain, "book").Ok? ==>
              BookDetails(factory, address, chain) == Some(TryType(factory, address, chain, "book").value)
    ensures TryType(factory, address, chain, "book").Fail? && TryType(factory, address, chain, "alexandria_book").Ok? ==>
              BookDetails(factory, address, chain) == Some(TryType(factory, address, chain, "alexandria_book").value)
    ensures BookDetails(factory, address, chain).None?
        <==> TryType(factory, address, chain, "book").Fail? && TryType(factory, address, chain, "alexandria_book").Fail?
  {
    var rest := BookContentTypes[1..];
    assert rest == ["alexandria_book"] && rest[1..] == [];
    assert FirstBook(factory, address, chain, rest[1..]) == None;
    assert FirstBook(factory, address, chain, rest)
        == if TryType(factory, address, chain, "alexandria_book").Ok?
           then Some(TryType(factory, address, chain, "alexandria_book").value) else None;
  }

  /** Field precedence of a resolved book: `address`, `chain` and `type`
      override everything; with a token, `tokenId` is that token and metadata
      fields override collection-info fields; without one, the collection
      info supplies every other field, `tokenId` included when it has one. */
  lemma BookFields(factory: Factory, address: string, chain: string, contentType: string, key: string)
    requires TryType(factory, address, chain, contentType).Ok?
    ensures var book := TryType(factory, address, chain, contentType).value;
            && book["address"] == Str(address) && book["chain"] == Str(chain) && book["type"] == Str(contentType)
    ensures var tracker := factory(address, contentType, chain).value;
            var info := Spread(tracker.collectionInfo.value);
            var tokenIds := tracker.allTokens(Some(1)).value;
            var book := TryType(factory, address, chain, contentType).value;
            && (|tokenIds| == 0 && key !in {"address", "chain", "type"} ==>
                  (key in book <==> key in info) && (key in info ==> book[key] == info[key]))
            && (|tokenIds| > 0 ==> book["tokenId"] == tokenIds[0])
            && (|tokenIds| > 0 && key !in {"address", "chain", "type", "tokenId"} ==>
                  var metadata := Spread(tracker.metadata(tokenIds[0]).value);
                  (key in book <==> key in info || key in metadata)
                  && (key in metadata ==> book[key] == metadata[key])
                  && (key in info && key !in metadata ==> book[key] == info[key]))
  {
  }

  /** `chainsByAddress[address]`; an address without an entry reads as the
      empty string. */
  function Lookup(chainsByAddress: map<string, string>, address: string): string
  {
    if address in chainsByAddress then chainsByAddress[address] else ""
  }

  /** `allBooks` after the loop over the given addresses: one entry per
      address that resolved to a book, in address order. */
  function Collected(factory: Factory, addresses: seq<string>, chainsByAddress: map<string, string>): seq<Value>
  {
    if addresses == [] then []
    else
      var n := |addresses| - 1;
      Collected(factory, addresses[..n], chainsByAddress)
      + (match BookDetails(factory, addresses[n], Lookup(chainsByAddress, addresses[n]))
         case Some(book) => [Obj(book)]
         case None => [])
  }

  /** `a.title || ''` as a sort key; a title that is not a string sorts as
      the empty string. */
  function TitleOf(book: Value): string
  {
    var t := Or(Get(book, "title"), Str(""));
    if t.Str? then t.s else ""
  }

  /** `(a, b) => (a.title || '').localeCompare(b.title || '')`, given the
      string order `titleLe` as "may come first". */
  function ByTitle(titleLe: (string, string) -> bool): (Value, Value) -> bool
  {
    ByKey(TitleOf, titleLe)
  }

  /** What `getBooksList(addresses, chainsByAddress, limit, offset)` answers. */
  function BooksList(factory: Factory, addresses: seq<string>, chainsByAddress: map<string, string>,
                     limit: nat, offset: nat, titleLe: (string, string) -> bool): Page<Value>
  {
    Paginate(SortBy(Collected(factory, addresses, chainsByAddress), ByTitle(titleLe)), limit, offset)
  }

  /** `getBooksList`: resolves every address, keeps the books found, sorts
      them by title and cuts one page. */
  method GetBooksList(factory: Factory, addresses: seq<string>, chainsByAddress: map<string, string>,
                      limit: nat, offset: nat, titleLe: (string, string) -> bool)
    returns (page: Page<Value>)
    ensures page == BooksList(factory, addresses, chainsByAddress, limit, offset, titleLe)
  {
    var allBooks := [];
    var i := 0;
    while i < |addresses|
      invariant 0 <= i <= |addresses|
      invariant allBooks == Collected(factory, addresses[..i], chainsByAddress)
    {
      assert addresses[..i + 1][..i] == addresses[..i];
      var address := addresses[i];
      var chain := Lookup(chainsByAddress, address);
      var book := GetBookDetails(factory, address, chain);
      if book.Some? {
        allBooks := allBooks + [Obj(book.value)];
      }
      i := i + 1;
    }
    assert addresses[..i] == addresses;
    var sorted := SortBy(allBooks, ByTitle(titleLe));
    page := Paginate(sorted, limit, offset);
  }

  /** Every collected entry is the book some listed address resolved to: the
      failed-fetch placeholder can never appear, since resolution never throws. */
  lemma {:induction false} CollectedAreBooks(factory: Factory, addresses: seq<string>,
                                             chainsByAddress: map<string, string>, x: Value)
    ensures x in Collected(factory, addresses, chainsByAddress)
        <==> exists i :: 0 <= i < |addresses|
                         && BookDetails(factory, addresses[i], Lookup(chainsByAddress, addresses[i])).Some?
                         && x == Obj(BookDetails(factory, addresses[i], Lookup(chainsByAddress, addresses[i])).value)
  {
    if addresses != [] {
      var n := |addresses| - 1;
      var init := addresses[..n];
      CollectedAreBooks(factory, init, chainsByAddress, x);
      if x in Collected(factory, init, chainsByAddress) {
        var i :| 0 <= i < |init|
                 && BookDetails(factory, init[i], Lookup(chainsByAddress, init[i])).Some?
                 && x == Obj(BookDetails(factory, init[i], Lookup(chainsByAddress, init[i])).value);
        assert addresses[i] == init[i];
      }
      if exists i :: 0 <= i < |addresses|
                     && BookDetails(factory, addresses[i], Lookup(chainsByAddress, addresses[i])).Some?
                     && x == Obj(BookDetails(factory, addresses[i], Lookup(chainsByAddress, addresses[i])).value) {
        var i :| 0 <= i < |addresses|
                 && BookDetails(factory, addresses[i], Lookup(chainsByAddress, addresses[i])).Some?
                 && x == Obj(BookDetails(factory, addresses[i], Lookup(chainsByAddress, addresses[i])).value);
        if i < n { assert init[i] == addresses[i]; }
      }
    }
  }

  /** At most one entry per address. */
  lemma {:induction false} CollectedBound(factory: Factory, addresses: seq<string>, chainsByAddress: map<string, string>)
    ensures |Collected(factory, addresses, chainsByAddress)| <= |addresses|
  {
    if addresses != [] {
      CollectedBound(factory, addresses[..|addresses| - 1], chainsByAddress);
    }
  }

  /** The list page: at most one book per address in total, items in title
      order, every item a resolved book, and the exact `hasMore` rule. */
  lemma BooksListShape(factory: Factory, addresses: seq<string>, chainsByAddress: map<string, string>,
                       limit: nat, offset: nat, titleLe: (string, string) -> bool)
    requires TotalPreorder(titleLe)
    ensures var p := BooksList(factory, addresses, chainsByAddress, limit, offset, titleLe);
            && p.total <= |addresses|
            && (p.hasMore <==> p.total > offset + limit)
            && (forall i, j :: 0 <= i < j < |p.items| ==> titleLe(TitleOf(p.items[i]), TitleOf(p.items[j])))
            && (forall i :: 0 <= i < |p.items| ==> p.items[i] in Collected(factory, addresses, chainsByAddress))
  {
    var all := Collected(factory, addresses, chainsByAddress);
    var sorted := SortBy(all, ByTitle(titleLe));
    CollectedBound(factory, addresses, chainsByAddress);
    ByKeyPreorder(TitleOf, titleLe);
    SortBySorted(all, ByTitle(titleLe));
    var p := Paginate(sorted, limit, offset);
    forall i, j | 0 <= i < j < |p.items| ensures titleLe(TitleOf(p.items[i]), TitleOf(p.items[j])) {
      assert p.items[i] == sorted[offset + i] && p.items[j] == sorted[offset + j];
      assert ByTitle(titleLe)(sorted[offset + i], sorted[offset + j]);
    }
    forall i | 0 <= i < |p.items| ensures p.items[i] in all {
      assert p.items[i] == sorted[offset + i];
      assert sorted[offset + i] in multiset(sorted);
    }
  }

  /** `{...book, featured: true}` */
  function MarkFeatured(book: Value): Value
  {
    Obj(Spread(book)["featured" := Bool(true)])
  }

  /** A page with each item marked as featured. */
  function Featured(page: Page<Value>): Page<Value>
  {
    page.(items := seq(|page.items|, k requires 0 <= k < |page.items| => MarkFeatured(page.items[k])))
  }

  /** What `getFeaturedBooks(addresses, chainsByAddress, limit)` answers: the
      first page, each item marked as featured. */
  function FeaturedBooks(factory: Factory, addresses: seq<string>, chainsByAddress: map<string, string>,
                         limit: nat, titleLe: (string, string) -> bool): Page<Value>
  {
    Featured(BooksList(factory, addresses, chainsByAddress, limit, 0, titleLe))
  }

  /** `getFeaturedBooks`: the list from offset 0, then `books.items.map(…)`. */
  method GetFeaturedBooks(factory: Factory, addresses: seq<string>, chainsByAddress: map<string, string>,
                          limit: nat, titleLe: (string, string) -> bool)
    returns (books: Page<Value>)
    ensures books == FeaturedBooks(factory, addresses, chainsByAddress, limit, titleLe)
  {
    var listed := GetBooksList(factory, addresses, chainsByAddress, limit, 0, titleLe);
    var items := [];
    var k := 0;
    while k < |listed.items|
      invariant 0 <= k <= |listed.items|
      invariant |items| == k
      invariant forall j :: 0 <= j < k ==> items[j] == MarkFeatured(listed.items[j])
    {
      items := items + [MarkFeatured(listed.items[k])];
      k := k + 1;
    }
    books := listed.(items := items);
    assert books == Featured(listed);
  }

  /** The featured page starts at offset 0, keeps the pagination of the plain
      list, and marks every item featured while keeping its other fields. */
  lemma FeaturedShape(factory: Factory, addresses: seq<string>, chainsByAddress: map<string, string>,
                      limit: nat, titleLe: (string, string) -> bool)
    ensures var f := FeaturedBooks(factory, addresses, chainsByAddress, limit, titleLe);
            var p := BooksList(factory, addresses, chainsByAddress, limit, 0, titleLe);
            && f.offset == 0 && f.total == p.total && f.limit == limit && f.hasMore == p.hasMore
            && |f.items| == |p.items|
            && forall k :: 0 <= k < |f.items| ==>
                 Get(f.items[k], "featured") == Bool(true)
                 && forall key :: key != "featured" && key in Spread(p.items[k]) ==>
                      Get(f.items[k], key) == Get(p.items[k], key)
  {
    FeaturedMarks(BooksList(factory, addresses, chainsByAddress, limit, 0, titleLe));
  }

  /** Marking a page keeps its envelope and marks every item featured while
      keeping its other fields. */
  lemma FeaturedMarks(p: Page<Value>)
    ensures var f := Featured(p);
            && f.offset == p.offset && f.total == p.total && f.limit == p.limit && f.hasMore == p.hasMore
            && |f.items| == |p.items|
            && forall k :: 0 <= k < |f.items| ==>
                 Get(f.items[k], "featured") == Bool(true)
                 && forall key :: key != "featured" && key in Spread(p.items[k]) ==>
                      Get(f.items[k], key) == Get(p.items[k], key)
  {
    var f := Featured(p);
    forall k | 0 <= k < |f.items|
      ensures Get(f.items[k], "featured") == Bool(true)
      ensures forall key :: key != "featured" && key in Spread(p.items[k]) ==>
                Get(f.items[k], key) == Get(p.items[k], key)
    {
      assert f.items[k] == MarkFeatured(p.items[k]);
    }
  }

  /** The list routes: `addresses` (or `featuredAddresses`) split on ',',
      `chains` split on ',' when given. */
  function ListChains(q: map<string, string>): seq<string>
  {
    if Param(q, "chains") != "" then Split(q["chains"], ',') else []
  }

  /** The chain and address of `/books/:id`: `chain:address`, or the address
      alone with the chain from the query. */
  function IdParts(segment: string, q: map<string, string>): (string, string)
  {
    if ':' in segment then
      var parts := Split(segment, ':');
      (parts[0], parts[1])
    else (Param(q, "chain"), segment)
  }

  /** The route the books handler computes, before the response envelope. */
  function Outcome(path: seq<string>, q: map<string, string>, factory: Factory,
                   titleLe: (string, string) -> bool): Result<Value>
  {
    var segment := Segment(path, 0);
    if segment == "" then
      if Param(q, "addresses") == "" then Fail(Throw("MISSING_PARAM", "Book addresses are required"))
      else
        var addresses := Split(q["addresses"], ',');
        var chainsByAddress := ChainsByAddress(addresses, ListChains(q));
        Ok(Obj(PageFields(BooksList(factory, addresses, chainsByAddress, LimitParam(q), OffsetParam(q), titleLe))))
    else if segment == "featured" then
      if Param(q, "featuredAddresses") == "" then Fail(Throw("MISSING_PARAM", "Featured book addresses are required"))
      else
        var addresses := Split(q["featuredAddresses"], ',');
        var chainsByAddress := ChainsByAddress(addresses, ListChains(q));
        Ok(Obj(PageFields(FeaturedBooks(factory, addresses, chainsByAddress, LimitParam(q), titleLe))))
    else
      var (chain, address) := IdParts(segment, q);
      if ':' !in segment && chain == "" then Fail(Throw("MISSING_PARAM", "Chain parameter is required"))
      else match BookDetails(factory, address, chain)
        case None => Fail(Throw("NOT_FOUND", "Book not found"))
        case Some(book) => Ok(Obj(book))
  }

  /** The routing of the books handler. */
  method Route(path: seq<string>, q: map<string, string>, factory: Factory, titleLe: (string, string) -> bool)
    returns (r: Result<Value>)
    ensures r == Outcome(path, q, factory, titleLe)
  {
    var segment := Segment(path, 0);
    var limit := LimitParam(q);
    var offset := OffsetParam(q);
    if segment == "" {
      if Param(q, "addresses") == "" {
        return Fail(Throw("MISSING_PARAM", "Book addresses are required"));
      }
      var addresses := Split(q["addresses"], ',');
      var chainsByAddress := MapChains(addresses, ListChains(q));
      var books := GetBooksList(factory, addresses, chainsByAddress, limit, offset, titleLe);
      r := Ok(Obj(PageFields(books)));
    } else if segment == "featured" {
      if Param(q, "featuredAddresses") == "" {
        return Fail(Throw("MISSING_PARAM", "Featured book addresses are required"));
      }
      var addresses := Split(q["featuredAddresses"], ',');
      var chainsByAddress := MapChains(addresses, ListChains(q));
      var featuredBooks := GetFeaturedBooks(factory, addresses, chainsByAddress, limit, titleLe);
      r := Ok(Obj(PageFields(featuredBooks)));
    } else {
      var (chain, bookAddress) := IdParts(segment, q);
      if ':' !in segment && chain == "" {
        return Fail(Throw("MISSING_PARAM", "Chain parameter is required"));
      }
      var book := GetBookDetails(factory, bookAddress, chain);
      if book.None? {
        return Fail(Throw("NOT_FOUND", "Book not found"));
      }
      r := Ok(Obj(book.value));
    }
  }

  /** `/books/<chain>:<address>` reads the book at that address on that chain. */
  lemma ColonIdResolves(path: seq<string>, q: map<string, string>, factory: Factory,
                        titleLe: (string, string) -> bool, chain: string, address: string)
    requires ':' !in chain && ':' !in address && chain + address != "" && chain != "featured"
    requires |path| > 0 && path[0] == chain + ":" + address
    ensures Outcome(path, q, factory, titleLe)
         == match BookDetails(factory, address, chain)
            case None => Fail(Throw("NOT_FOUND", "Book not found"))
            case Some(book) => Ok(Obj(book))
  {
    var segment := chain + ":" + address;
    SplitAfterPlain(chain, ':', address);
    SplitPlain(address, ':');
    assert segment == chain + ([':'] + address);
    assert Split(segment, ':') == [chain, address];
    assert ':' in segment by { assert segment[|chain|] == ':'; }
    assert Segment(path, 0) == segment;
    assert segment != "" && segment != "featured" by { assert ':' !in "featured"; }
    assert IdParts(segment, q) == (chain, address);
  }

  /** A bare address with no `chain` in the query is MISSING_PARAM. */
  lemma BareIdNeedsChain(path: seq<string>, q: map<string, string>, factory: Factory,
                         titleLe: (string, string) -> bool)
    requires |path| > 0 && path[0] != "" && path[0] != "featured" && ':' !in path[0]
    requires "chain" !in q
    ensures Outcome(path, q, factory, titleLe) == Fail(Throw("MISSING_PARAM", "Chain parameter is required"))
  {
  }
}
