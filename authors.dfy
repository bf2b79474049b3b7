/**
 * The authors function: the list sweep, `getAuthorDetails`, which merges what
 * every adapter knows about an author, and `getAuthorPublications`, which
 * gathers, sorts newest first and paginates an author's publications.
 */
module Authors {
  import opened Json
  import opened Core
  import opened Netlify
  import opened Sorting
  import opened Pagination
  import opened TrackerSweep

  /** `getAuthorsList()`: the sweep over `getAuthors`, after
      `getRegisteredTypes()`, whose failure propagates. */
  method GetAuthorsList(types: Result<seq<string>>, contractFor: (string, string) -> string, factory: Factory)
    returns (r: Result<seq<Value>>)
    ensures types.Fail? ==> r == Fail(types.error)
    ensures types.Ok? ==> r == Ok(SweepYield(contractFor, factory, Authors, SupportedChains, types.value))
  {
    match types {
      case Fail(e) => r := Fail(e);
      case Ok(ts) =>
        var all := Sweep(contractFor, factory, Authors, ts);
        r := Ok(all);
    }
  }

  /** The `authorDetails` object. The merged profile fields start absent
      (`Undefined`); `publications` is always the empty array. */
  datatype AuthorDetails = AuthorDetails(
    address: string,
    chains: seq<Value>,
    name: Value,
    bio: Value,
    avatar: Value,
    website: Value,
    social: Value,
    totalPublications: int)

  function AuthorValue(d: AuthorDetails): Value
  {
    Obj(map[
      "address" := Str(d.address), "chains" := Arr(d.chains), "publications" := Arr([]),
      "totalPublications" := Num(d.totalPublications),
      "name" := d.name, "bio" := d.bio, "avatar" := d.avatar, "website" := d.website, "social" := d.social])
  }

  /** The profile fields merged first-truthy-wins. */
  const ProfileFields: set<string> := {"name", "bio", "avatar", "website", "social"}

  function Profile(d: AuthorDetails, key: string): Value
    requires key in ProfileFields
  {
    if key == "name" then d.name
    else if key == "bio" then d.bio
    else if key == "avatar" then d.avatar
    else if key == "website" then d.website
    else d.social
  }

  /** An adapter knows the author when `getAuthorByAddress` answers with a
      truthy value; an adapter that throws does not. */
  predicate Knows(a: Adapter, authorId: string)
  {
    a.authorByAddress(authorId).Ok? && Truthy(a.authorByAddress(authorId).value)
  }

  /** The records the adapters that know the author gave, in adapter order. */
  function Found(adapters: seq<Adapter>, authorId: string): seq<Value>
  {
    if adapters == [] then []
    else
      var last := adapters[|adapters| - 1];
      Found(adapters[..|adapters| - 1], authorId)
      + (if Knows(last, authorId) then [last.authorByAddress(authorId).value] else [])
  }

  /** `chainAuthor.publicationCount || 0`, where a count that is not a number
      adds nothing. */
  function PublicationCount(record: Value): int
  {
    var c := Or(Get(record, "publicationCount"), Num(0));
    if c.Num? then c.n else 0
  }

  /** The details after folding in one more record: its chain is appended,
      each profile field keeps its first truthy value, and its count is added. */
  function Absorb(d: AuthorDetails, r: Value): AuthorDetails
  {
    d.(chains := d.chains + [Get(r, "chain")],
       name := Or(d.name, Get(r, "name")),
       bio := Or(d.bio, Get(r, "bio")),
       avatar := Or(d.avatar, Get(r, "avatar")),
       website := Or(d.website, Get(r, "website")),
       social := Or(d.social, Get(r, "social")),
       totalPublications := d.totalPublications + PublicationCount(r))
  }

  /** The details after merging the given records one after the other. */
  function Merged(authorId: string, records: seq<Value>): AuthorDetails
  {
    if records == [] then
      AuthorDetails(authorId, [], Undefined, Undefined, Undefined, Undefined, Undefined, 0)
    else Absorb(Merged(authorId, records[..|records| - 1]), records[|records| - 1])
  }

  /** What `getAuthorDetails(authorId)` answers; `None` is `null`. */
  function AuthorDetailsOf(adapters: Adapters, authorId: string): Result<Option<AuthorDetails>>
  {
    match adapters.all
    case Fail(e) => Fail(e)
    case Ok(list) =>
      var found := Found(list, authorId);
      if found == [] then Ok(None) else Ok(Some(Merged(authorId, found)))
  }

  /** `getAuthorDetails`: asks every adapter in turn and folds each truthy
      answer into the details. */
  method GetAuthorDetails(adapters: Adapters, authorId: string) returns (r: Result<Option<AuthorDetails>>)
    ensures r == AuthorDetailsOf(adapters, authorId)
  {
    if adapters.all.Fail? {
      return Fail(adapters.all.error);
    }
    var list := adapters.all.value;
    var details := AuthorDetails(authorId, [], Undefined, Undefined, Undefined, Undefined, Undefined, 0);
    var foundOnAnyChain := false;
    var i := 0;
    while i < |list|
      invariant 0 <= i <= |list|
      invariant details == Merged(authorId, Found(list[..i], authorId))
      invariant foundOnAnyChain <==> Found(list[..i], authorId) != []
    {
      assert list[..i + 1][..i] == list[..i];
      ghost var before := Found(list[..i], authorId);
      var chainAuthor := list[i].authorByAddress(authorId);
      if chainAuthor.Ok? && Truthy(chainAuthor.value) {
        var rec := chainAuthor.value;
        foundOnAnyChain := true;
        ghost var prior := details;
        details := details.(chains := details.chains + [Get(rec, "chain")]);
        details := details.(name := Or(details.name, Get(rec, "name")));
        details := details.(bio := Or(details.bio, Get(rec, "bio")));
        details := details.(avatar := Or(details.avatar, Get(rec, "avatar")));
        details := details.(website := Or(details.website, Get(rec, "website")));
        details := details.(social := Or(details.social, Get(rec, "social")));
        details := details.(totalPublications := details.totalPublications + PublicationCount(rec));
        assert details == Absorb(prior, rec);
        assert Found(list[..i + 1], authorId) == before + [rec];
        assert (before + [rec])[..|before|] == before;
      } else {
        assert Found(list[..i + 1], authorId) == before;
      }
      i := i + 1;
    }
    assert list[..i] == list;
    r := if foundOnAnyChain then Ok(Some(details)) else Ok(None);
  }

  /** A record is found exactly when some adapter knows the author and gave it. */
  lemma {:induction false} FoundMember(adapters: seq<Adapter>, authorId: string, x: Value)
    ensures x in Found(adapters, authorId)
        <==> exists j :: 0 <= j < |adapters| && Knows(adapters[j], authorId)
                         && adapters[j].authorByAddress(authorId).value == x
  {
    if adapters != [] {
      var init := adapters[..|adapters| - 1];
      FoundMember(init, authorId, x);
      if exists j :: 0 <= j < |adapters| && Knows(adapters[j], authorId)
                     && adapters[j].authorByAddress(authorId).value == x {
        var j :| 0 <= j < |adapters| && Knows(adapters[j], authorId)
                 && adapters[j].authorByAddress(authorId).value == x;
        if j < |init| { assert init[j] == adapters[j]; }
      }
      if x in Found(init, authorId) {
        var j :| 0 <= j < |init| && Knows(init[j], authorId) && init[j].authorByAddress(authorId).value == x;
        assert adapters[j] == init[j];
      }
    }
  }

  /** The details are `null` exactly when no adapter knows the author;
      adapters that throw are skipped. */
  lemma NullIffUnknown(adapters: Adapters, authorId: string)
    requires adapters.all.Ok?
    ensures AuthorDetailsOf(adapters, authorId).Ok?
    ensures AuthorDetailsOf(adapters, authorId).value.None?
        <==> forall j :: 0 <= j < |adapters.all.value| ==> !Knows(adapters.all.value[j], authorId)
  {
    var list := adapters.all.value;
    var found := Found(list, authorId);
    if found != [] {
      FoundMember(list, authorId, found[0]);
    }
    if exists j :: 0 <= j < |list| && Knows(list[j], authorId) {
      var j :| 0 <= j < |list| && Knows(list[j], authorId);
      FoundMember(list, authorId, list[j].authorByAddress(authorId).value);
    }
  }

  /** Merging two runs of records one after the other appends their chains and
      adds their publication counts: `chains` holds one entry per record, in
      order, and `totalPublications` is the sum of the counts. */
  lemma {:induction false} MergeSplits(authorId: string, a: seq<Value>, b: seq<Value>)
    ensures Merged(authorId, a + b).chains == Merged(authorId, a).chains + Merged(authorId, b).chains
    ensures Merged(authorId, a + b).totalPublications
         == Merged(authorId, a).totalPublications + Merged(authorId, b).totalPublications
    decreases |b|
  {
    if b == [] {
      assert a + b == a;
    } else {
      var init := b[..|b| - 1];
      assert (a + b)[..|a + b| - 1] == a + init;
      assert (a + b)[|a + b| - 1] == b[|b| - 1];
      MergeSplits(authorId, a, init);
    }
  }

  /** One record contributes its chain and its count. */
  lemma MergeOne(authorId: string, r: Value)
    ensures Merged(authorId, [r]).chains == [Get(r, "chain")]
    ensures Merged(authorId, [r]).totalPublications == PublicationCount(r)
  {
    assert [r][..0] == [];
  }

  /** No record has a truthy value for the field. */
  predicate NoneTruthy(records: seq<Value>, key: string)
  {
    forall k :: 0 <= k < |records| ==> !Truthy(Get(records[k], key))
  }

  /** A profile field is the first truthy value the records give for it;
      later records never overwrite it. */
  lemma {:induction false} FirstTruthyWins(authorId: string, records: seq<Value>, key: string, i: nat)
    requires key in ProfileFields
    requires i < |records| && Truthy(Get(records[i], key))
    requires NoneTruthy(records[..i], key)
    ensures Profile(Merged(authorId, records), key) == Get(records[i], key)
    decreases |records|
  {
    var init := records[..|records| - 1];
    if i < |init| {
      assert init[..i] == records[..i];
      FirstTruthyWins(authorId, init, key, i);
    } else {
      assert init == records[..i];
      AllFalsyKeepsLast(authorId, init, key);
    }
  }

  /** With no truthy value among the records, a profile field is falsy: the
      last record's own value, or absent when there is no record. */
  lemma {:induction false} AllFalsyKeepsLast(authorId: string, records: seq<Value>, key: string)
    requires key in ProfileFields
    requires NoneTruthy(records, key)
    ensures !Truthy(Profile(Merged(authorId, records), key))
    ensures records == [] ==> Profile(Merged(authorId, records), key) == Undefined
    ensures records != [] ==> Profile(Merged(authorId, records), key) == Get(records[|records| - 1], key)
    decreases |records|
  {
    if records != [] {
      var init := records[..|records| - 1];
      AllFalsyKeepsLast(authorId, init, key);
    }
  }

  /** The timestamp `new Date(p.publishedAt || 0)` denotes, in milliseconds
      since the epoch. A missing or falsy date is the epoch, a number is that
      many milliseconds, and any other value (an ISO date string, say) is
      what `dateOf` parses it to. */
  function PublishedAt(dateOf: Value -> int, p: Value): int
  {
    var d := Get(p, "publishedAt");
    if !Truthy(d) then 0 else if d.Num? then d.n else dateOf(d)
  }

  /** `(a, b) => new Date(b.publishedAt || 0) - new Date(a.publishedAt || 0)`
      as the relation "a may come first". */
  function NewestFirst(dateOf: Value -> int): (Value, Value) -> bool
  {
    ByKey(p => PublishedAt(dateOf, p), (x: int, y: int) => x >= y)
  }

  /** The publications the adapters gave, in adapter order; an adapter that
      throws gives none. */
  function Gathered(adapters: seq<Adapter>, authorId: string): seq<Value>
  {
    if adapters == [] then []
    else
      var last := adapters[|adapters| - 1];
      Gathered(adapters[..|adapters| - 1], authorId)
      + (match last.contentByAuthor(authorId) case Ok(ps) => ps case Fail(_) => [])
  }

  /** The `{ items, pagination, author }` envelope. */
  datatype PublicationsPage = PublicationsPage(page: Page<Value>, address: string, publicationCount: nat)

  function PublicationsValue(p: PublicationsPage): Value
  {
    Obj(PageFields(p.page)["author" := Obj(map["address" := Str(p.address),
                                                "publicationCount" := Num(p.publicationCount)])])
  }

  /** The entries `sort` hands to the comparator: all but `undefined`, in
      order. */
  function Defined(s: seq<Value>): (r: seq<Value>)
    ensures forall x :: x in r <==> x in s && x != Undefined
  {
    if s == [] then []
    else (if s[0] != Undefined then [s[0]] else []) + Defined(s[1..])
  }

  /** The `undefined` entries, which `sort` sets aside and places after all
      the others without calling the comparator (CompareArrayElements,
      section 23.1.3.30.2 of ECMA-262). */
  function SetAside(s: seq<Value>): (r: seq<Value>)
    ensures forall k :: 0 <= k < |r| ==> r[k] == Undefined
  {
    if s == [] then []
    else (if s[0] == Undefined then [s[0]] else []) + SetAside(s[1..])
  }

  /** `publications.sort(newestFirst)`. Once two entries reach the comparator,
      every such entry is read by it, and reading `publishedAt` of a `null`
      entry throws a TypeError. */
  function SortedPublications(all: seq<Value>, dateOf: Value -> int): Result<seq<Value>>
  {
    var defined := Defined(all);
    if |defined| >= 2 && Null in defined then Fail(TypeError())
    else Ok(SortBy(defined, NewestFirst(dateOf)) + SetAside(all))
  }

  /** What `getAuthorPublications(authorId, limit, offset)` answers. */
  function AuthorPublications(adapters: Adapters, authorId: string, limit: nat, offset: nat,
                              dateOf: Value -> int): Result<PublicationsPage>
  {
    match adapters.all
    case Fail(e) => Fail(e)
    case Ok(list) =>
      var all := Gathered(list, authorId);
      match SortedPublications(all, dateOf)
      case Fail(e) => Fail(e)
      case Ok(sorted) => Ok(PublicationsPage(Paginate(sorted, limit, offset), authorId, |all|))
  }

  /** `getAuthorPublications`: gathers every adapter's list, sorts the whole,
      then cuts one page out of it. */
  method GetAuthorPublications(adapters: Adapters, authorId: string, limit: nat, offset: nat,
                               dateOf: Value -> int)
    returns (r: Result<PublicationsPage>)
    ensures r == AuthorPublications(adapters, authorId, limit, offset, dateOf)
  {
    if adapters.all.Fail? {
      return Fail(adapters.all.error);
    }
    var list := adapters.all.value;
    var publications := [];
    var i := 0;
    while i < |list|
      invariant 0 <= i <= |list|
      invariant publications == Gathered(list[..i], authorId)
    {
      assert list[..i + 1][..i] == list[..i];
      var chainPublications := list[i].contentByAuthor(authorId);
      if chainPublications.Ok? {
        publications := publications + chainPublications.value;
      }
      i := i + 1;
    }
    assert list[..i] == list;
    var sorted := SortedPublications(publications, dateOf);
    if sorted.Fail? {
      return Fail(sorted.error);
    }
    r := Ok(PublicationsPage(Paginate(sorted.value, limit, offset), authorId, |publications|));
  }

  /** Splitting off the `undefined` entries loses and adds nothing. */
  lemma {:induction false} DefinedSplit(s: seq<Value>)
    ensures multiset(Defined(s)) + multiset(SetAside(s)) == multiset(s)
  {
    if s != [] {
      DefinedSplit(s[1..]);
      assert s == [s[0]] + s[1..];
    }
  }

  /** The entries that reach the comparator come out newest first. */
  lemma DefinedNewestFirst(all: seq<Value>, dateOf: Value -> int)
    ensures forall k :: 0 <= k < |SortBy(Defined(all), NewestFirst(dateOf))|
              ==> SortBy(Defined(all), NewestFirst(dateOf))[k] != Undefined
    ensures forall i, j :: 0 <= i < j < |SortBy(Defined(all), NewestFirst(dateOf))|
              ==> PublishedAt(dateOf, SortBy(Defined(all), NewestFirst(dateOf))[i])
                  >= PublishedAt(dateOf, SortBy(Defined(all), NewestFirst(dateOf))[j])
  {
    var d := SortBy(Defined(all), NewestFirst(dateOf));
    ByKeyPreorder(p => PublishedAt(dateOf, p), (x: int, y: int) => x >= y);
    SortBySorted(Defined(all), NewestFirst(dateOf));
    forall k | 0 <= k < |d| ensures d[k] != Undefined {
      assert d[k] in multiset(Defined(all));
      assert d[k] in Defined(all);
    }
    forall i, j | 0 <= i < j < |d| ensures PublishedAt(dateOf, d[i]) >= PublishedAt(dateOf, d[j]) {
      assert NewestFirst(dateOf)(d[i], d[j]);
    }
  }

  /** Newest first with the `undefined` entries last. */
  predicate NewestFirstUndefinedLast(s: seq<Value>, dateOf: Value -> int)
  {
    forall i, j :: 0 <= i < j < |s| && s[j] != Undefined
      ==> s[i] != Undefined && PublishedAt(dateOf, s[i]) >= PublishedAt(dateOf, s[j])
  }

  /** Appending `undefined` entries to defined ones in date order keeps that
      order. */
  lemma AppendSetAside(d: seq<Value>, rest: seq<Value>, dateOf: Value -> int)
    requires forall k :: 0 <= k < |d| ==> d[k] != Undefined
    requires forall i, j :: 0 <= i < j < |d| ==> PublishedAt(dateOf, d[i]) >= PublishedAt(dateOf, d[j])
    requires forall k :: 0 <= k < |rest| ==> rest[k] == Undefined
    ensures NewestFirstUndefinedLast(d + rest, dateOf)
  {
    var s := d + rest;
    forall i, j | 0 <= i < j < |s| && s[j] != Undefined
      ensures s[i] != Undefined && PublishedAt(dateOf, s[i]) >= PublishedAt(dateOf, s[j])
    {
      if j < |d| {
        assert s[i] == d[i] && s[j] == d[j];
      }
    }
  }

  /** A sort that does not throw permutes the publications; its entries are
      newest first, and the `undefined` ones come after all the others. */
  lemma SortedPublicationsOrder(all: seq<Value>, dateOf: Value -> int)
    requires SortedPublications(all, dateOf).Ok?
    ensures multiset(SortedPublications(all, dateOf).value) == multiset(all)
    ensures NewestFirstUndefinedLast(SortedPublications(all, dateOf).value, dateOf)
  {
    var d := SortBy(Defined(all), NewestFirst(dateOf));
    var rest := SetAside(all);
    assert SortedPublications(all, dateOf).value == d + rest;
    DefinedSplit(all);
    DefinedNewestFirst(all, dateOf);
    AppendSetAside(d, rest, dateOf);
  }

  /** The request fails with the comparator's TypeError exactly when some
      gathered publication is `null` and at least two are not `undefined`. */
  lemma NullPublicationThrows(adapters: Adapters, authorId: string, limit: nat, offset: nat,
                              dateOf: Value -> int)
    requires adapters.all.Ok?
    ensures var r := AuthorPublications(adapters, authorId, limit, offset, dateOf);
            var all := Gathered(adapters.all.value, authorId);
            && (r.Fail? <==> |Defined(all)| >= 2 && Null in all)
            && (r.Fail? ==> r.error == TypeError())
  {
  }

  /** The page is cut from all gathered publications sorted newest first: its
      items are in non-increasing date order with the `undefined` entries
      last, the total and the author's `publicationCount` are both the number
      gathered, and every item is one some adapter gave. */
  lemma PublicationsPageShape(adapters: Adapters, authorId: string, limit: nat, offset: nat,
                              dateOf: Value -> int)
    requires AuthorPublications(adapters, authorId, limit, offset, dateOf).Ok?
    ensures adapters.all.Ok?
    ensures var p := AuthorPublications(adapters, authorId, limit, offset, dateOf).value;
            var all := Gathered(adapters.all.value, authorId);
            && p.page.total == p.publicationCount == |all|
            && (p.page.hasMore <==> |all| > offset + limit)
            && (forall i, j :: 0 <= i < j < |p.page.items| && p.page.items[j] != Undefined
                  ==> p.page.items[i] != Undefined
                      && PublishedAt(dateOf, p.page.items[i]) >= PublishedAt(dateOf, p.page.items[j]))
            && (forall i :: 0 <= i < |p.page.items| ==> p.page.items[i] in multiset(all))
  {
    var all := Gathered(adapters.all.value, authorId);
    var sorted := SortedPublications(all, dateOf).value;
    SortedPublicationsOrder(all, dateOf);
    var p := Paginate(sorted, limit, offset);
    forall i, j | 0 <= i < j < |p.items| && p.items[j] != Undefined
      ensures p.items[i] != Undefined && PublishedAt(dateOf, p.items[i]) >= PublishedAt(dateOf, p.items[j])
    {
      assert p.items[i] == sorted[offset + i] && p.items[j] == sorted[offset + j];
    }
    forall i | 0 <= i < |p.items| ensures p.items[i] in multiset(all) {
      assert p.items[i] == sorted[offset + i];
      assert sorted[offset + i] in multiset(sorted);
    }
  }

  /** Publications without a date sort after every publication dated after
      the epoch, whether its date is a number or a string. */
  lemma UndatedLast(adapters: Adapters, authorId: string, dateOf: Value -> int, i: nat, j: nat)
    requires adapters.all.Ok?
    requires var r := SortedPublications(Gathered(adapters.all.value, authorId), dateOf);
             r.Ok? && i < |r.value| && j < |r.value|
             && PublishedAt(dateOf, r.value[i]) > 0 && !Truthy(Get(r.value[j], "publishedAt"))
    ensures i < j
  {
    var all := Gathered(adapters.all.value, authorId);
    var s := SortedPublications(all, dateOf).value;
    SortedPublicationsOrder(all, dateOf);
  }

  /** A gathered publication comes from some adapter's list. */
  lemma {:induction false} GatheredMember(adapters: seq<Adapter>, authorId: string, x: Value)
    ensures x in Gathered(adapters, authorId)
        <==> exists j :: 0 <= j < |adapters| && adapters[j].contentByAuthor(authorId).Ok?
                         && x in adapters[j].contentByAuthor(authorId).value
  {
    if adapters != [] {
      var init := adapters[..|adapters| - 1];
      GatheredMember(init, authorId, x);
      if exists j :: 0 <= j < |adapters| && adapters[j].contentByAuthor(authorId).Ok?
                     && x in adapters[j].contentByAuthor(authorId).value {
        var j :| 0 <= j < |adapters| && adapters[j].contentByAuthor(authorId).Ok?
                 && x in adapters[j].contentByAuthor(authorId).value;
        if j < |init| { assert init[j] == adapters[j]; }
      }
      if x in Gathered(init, authorId) {
        var j :| 0 <= j < |init| && init[j].contentByAuthor(authorId).Ok?
                 && x in init[j].contentByAuthor(authorId).value;
        assert adapters[j] == init[j];
      }
    }
  }

  /** The route the authors handler computes, before the response envelope. */
  function Outcome(path: seq<string>, q: map<string, string>, adapters: Adapters,
                   types: Result<seq<string>>, contractFor: (string, string) -> string, factory: Factory,
                   dateOf: Value -> int): Result<Value>
  {
    var authorId := Segment(path, 0);
    if authorId == "" then
      match types
      case Fail(e) => Fail(e)
      case Ok(ts) => Ok(Arr(SweepYield(contractFor, factory, Authors, SupportedChains, ts)))
    else if Segment(path, 1) == "publications" then
      match AuthorPublications(adapters, authorId, LimitParam(q), OffsetParam(q), dateOf)
      case Fail(e) => Fail(e)
      case Ok(p) => Ok(PublicationsValue(p))
    else
      match AuthorDetailsOf(adapters, authorId)
      case Fail(e) => Fail(e)
      case Ok(None) => Fail(Throw("NOT_FOUND", "Author not found"))
      case Ok(Some(d)) => Ok(AuthorValue(d))
  }

  /** The routing of the authors handler. */
  method Route(path: seq<string>, q: map<string, string>, adapters: Adapters,
               types: Result<seq<string>>, contractFor: (string, string) -> string, factory: Factory,
               dateOf: Value -> int)
    returns (r: Result<Value>)
    ensures r == Outcome(path, q, adapters, types, contractFor, factory, dateOf)
  {
    var authorId := Segment(path, 0);
    var subResource := Segment(path, 1);
    var limit := LimitParam(q);
    var offset := OffsetParam(q);
    if authorId == "" {
      var authors := GetAuthorsList(types, contractFor, factory);
      r := if authors.Fail? then Fail(authors.error) else Ok(Arr(authors.value));
    } else if subResource == "publications" {
      var publications := GetAuthorPublications(adapters, authorId, limit, offset, dateOf);
      r := if publications.Fail? then Fail(publications.error) else Ok(PublicationsValue(publications.value));
    } else {
      var author := GetAuthorDetails(adapters, authorId);
      if author.Fail? {
        r := Fail(author.error);
      } else if author.value.None? {
        r := Fail(Throw("NOT_FOUND", "Author not found"));
      } else {
        r := Ok(AuthorValue(author.value.value));
      }
    }
  }

  /** Without `limit` and `offset` in the query, publications come twenty at a
      time from the start. */
  lemma PublicationsDefaults(path: seq<string>, q: map<string, string>, adapters: Adapters,
                             types: Result<seq<string>>, contractFor: (string, string) -> string, factory: Factory,
                             dateOf: Value -> int)
    requires Segment(path, 0) != "" && Segment(path, 1) == "publications"
    requires "limit" !in q && "offset" !in q
    ensures var r := Outcome(path, q, adapters, types, contractFor, factory, dateOf);
            var p := AuthorPublications(adapters, Segment(path, 0), 20, 0, dateOf);
            && (r.Ok? <==> p.Ok?)
            && (r.Ok? ==> r.value == PublicationsValue(p.value))
  {
  }

  /** An author no adapter knows is NOT_FOUND. */
  lemma UnknownAuthor(path: seq<string>, q: map<string, string>, adapters: Adapters,
                      types: Result<seq<string>>, contractFor: (string, string) -> string, factory: Factory,
                      dateOf: Value -> int)
    requires Segment(path, 0) != "" && Segment(path, 1) != "publications"
    requires adapters.all.Ok?
    requires forall j :: 0 <= j < |adapters.all.value| ==> !Knows(adapters.all.value[j], Segment(path, 0))
    ensures Outcome(path, q, adapters, types, contractFor, factory, dateOf) == Fail(Throw("NOT_FOUND", "Author not found"))
  {
    NullIffUnknown(adapters, Segment(path, 0));
  }
}
