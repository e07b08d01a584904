/** The query layer: `fetchCategories` with its cache, fetch and fallback
    decision, the slug lookup `fetchCategory`, the per-category listing
    `fetchVideos` and the catalogue-wide `searchVideos`. The network fetch,
    `response.text()` and `JSON.parse` together become one input, the
    outcome of the fetch. The two clock readings (when the cache is
    consulted and when the fetched tree is stored, after the awaits) are
    parameters. */
module VideoApi {
  import opened Text
  import opened VideoTypes
  import opened DataTransformer
  import opened CacheService
  import opened FallbackData

  // ---------------------------------------------------------------------
  // What the fetch produced
  // ---------------------------------------------------------------------

  /** The response text: either not JSON at all, or a parsed document. */
  datatype Body = Unparsable | Json(document: RawDocument)

  /** The request either fails before any response arrives, or yields a
      status and a body. */
  datatype FetchOutcome = NetworkFailure | Received(status: int, body: Body)

  /** `response.ok`. */
  predicate IsOk(status: int) {
    200 <= status <= 299
  }

  /** Why `fetchCategories` served the demonstration catalogue. */
  datatype FallbackReason =
    | NetworkError
    | HttpError(status: int)
    | JsonParseError
    | InvalidStructure
    | TransformError
    | EmptyTransform

  /** Which of the three ways out of `fetchCategories` was taken. */
  datatype Decision =
    | CacheHit(cached: seq<ExtendedCategory>)
    | Stored(fetched: seq<ExtendedCategory>)
    | Fallback(reason: FallbackReason)
  {
    /** The list `fetchCategories` resolves to. */
    function Categories(): seq<ExtendedCategory> {
      match this
      case CacheHit(cached) => cached
      case Stored(fetched) => fetched
      case Fallback(_) => FallbackCategories()
    }
  }

  /** `cachedData && isFresh`. */
  predicate FreshHit(snapshot: CacheSnapshot) {
    snapshot.data.Some? && snapshot.isFresh
  }

  /** The request succeeded with a document whose `categories` is the
      array `raw`. */
  predicate Fetched(outcome: FetchOutcome, raw: seq<RawCategory>) {
    && outcome.Received?
    && IsOk(outcome.status)
    && outcome.body == Json(RawDocument(Some(raw)))
  }

  // ---------------------------------------------------------------------
  // fetchCategories
  // ---------------------------------------------------------------------

  /** The decision `fetchCategories` takes, given what the cache answered
      and what the fetch produced. The fetch is only looked at when the
      cache is not fresh. A throw from the normaliser (a category or direct
      subcategory without a name) is caught like every other failure. */
  function Decide(snapshot: CacheSnapshot, outcome: FetchOutcome): (d: Decision)
    ensures d.CacheHit? <==> FreshHit(snapshot)
    ensures d.CacheHit? ==> snapshot.data == Some(d.cached)
    ensures d.Stored? ==> d.fetched != []
  {
    if FreshHit(snapshot) then CacheHit(snapshot.data.value)
    else
      match outcome
      case NetworkFailure => Fallback(NetworkError)
      case Received(status, body) =>
        if !IsOk(status) then Fallback(HttpError(status))
        else
          match body
          case Unparsable => Fallback(JsonParseError)
          case Json(document) =>
            match document.categories
            case None => Fallback(InvalidStructure)
            case Some(raw) =>
              if !AllTransformable(raw) then Fallback(TransformError)
              else if Transform(raw) == [] then Fallback(EmptyTransform)
              else Stored(Transform(raw))
  }

  /** On a fresh hit the cached list is served whatever the fetch would
      have produced: the fetch is never consulted. */
  lemma DecideFreshHit(snapshot: CacheSnapshot, outcome: FetchOutcome, other: FetchOutcome)
    requires FreshHit(snapshot)
    ensures Decide(snapshot, outcome) == Decide(snapshot, other)
    ensures Decide(snapshot, outcome).Categories() == snapshot.data.value
  {
  }

  /** Without a fresh hit, a fetched list is stored exactly when the
      request succeeded with a non-empty `categories` array the normaliser
      accepts, and what is stored is the normalised list. */
  lemma {:induction false} DecideStoresIff(snapshot: CacheSnapshot, outcome: FetchOutcome, raw: seq<RawCategory>)
    requires !FreshHit(snapshot) && Fetched(outcome, raw)
    ensures Decide(snapshot, outcome).Stored? <==> AllTransformable(raw) && raw != []
    ensures Decide(snapshot, outcome).Stored? ==> Decide(snapshot, outcome).fetched == Transform(raw)
    ensures AllTransformable(raw) && raw == [] ==> Decide(snapshot, outcome) == Fallback(EmptyTransform)
  {
    if AllTransformable(raw) {
      assert |Transform(raw)| == |raw|;
    }
  }

  /** Nothing but a successful request stores anything. */
  lemma {:induction false} DecideStoredOnlyFromFetch(snapshot: CacheSnapshot, outcome: FetchOutcome)
    requires Decide(snapshot, outcome).Stored?
    ensures exists raw ::
      Fetched(outcome, raw) && AllTransformable(raw) && raw != [] && Decide(snapshot, outcome).fetched == Transform(raw)
  {
    var raw := outcome.body.document.categories.value;
    assert Fetched(outcome, raw);
  }

  /** A network error, a non-OK status, a body that is not JSON and a
      document without a `categories` array all end in the demonstration
      catalogue, and nothing is stored. */
  lemma DecideFailuresFallBack(snapshot: CacheSnapshot, outcome: FetchOutcome)
    requires !FreshHit(snapshot)
    requires || outcome.NetworkFailure?
             || (outcome.Received? && !IsOk(outcome.status))
             || (outcome.Received? && outcome.body.Unparsable?)
             || (outcome.Received? && outcome.body.Json? && outcome.body.document.categories.None?)
    ensures Decide(snapshot, outcome).Fallback?
    ensures Decide(snapshot, outcome).Categories() == FallbackCategories()
  {
  }

  /** If what the cache holds is a well-formed catalogue, so is whatever
      `fetchCategories` serves, and so is whatever it stores. In particular
      the cache is never given an empty list. */
  lemma DecideWellFormed(snapshot: CacheSnapshot, outcome: FetchOutcome)
    requires snapshot.data.Some? ==> WellFormedCatalogue(snapshot.data.value)
    ensures WellFormedCatalogue(Decide(snapshot, outcome).Categories())
    ensures Decide(snapshot, outcome).Stored? ==> WellFormedCatalogue(Decide(snapshot, outcome).fetched)
  {
    var d := Decide(snapshot, outcome);
    match d
    case CacheHit(_) =>
    case Fallback(_) => FallbackWellFormed();
    case Stored(_) =>
      var raw := outcome.body.document.categories.value;
      TransformWellFormed(raw);
  }

  /** What the cache holds after `fetchCategories`: the stored list,
      stamped with the time it was stored, on the success path; otherwise
      what it held before. */
  twostate predicate CacheFollows(cache: CategoryCache, d: Decision, completedAt: int)
    reads cache
  {
    if d.Stored? then cache.data == Some(d.fetched) && cache.lastFetchTime == completedAt
    else cache.data == old(cache.data) && cache.lastFetchTime == old(cache.lastFetchTime)
  }

  /** The cache holds nothing or a well-formed catalogue. */
  predicate ServesCatalogue(cache: CategoryCache)
    reads cache
  {
    cache.data.Some? ==> WellFormedCatalogue(cache.data.value)
  }

  /** `fetchCategories()`: the cached list if it is fresh; otherwise the
      normalised fetched list, stored in the cache at `completedAt`;
      otherwise, on any failure or an empty result, the demonstration
      catalogue. It never fails. */
  method FetchCategories(cache: CategoryCache, now: int, outcome: FetchOutcome, completedAt: int)
    returns (categories: seq<ExtendedCategory>)
    modifies cache
    ensures categories == Decide(old(cache.GetCachedData(now)), outcome).Categories()
    ensures CacheFollows(cache, Decide(old(cache.GetCachedData(now)), outcome), completedAt)
    ensures old(ServesCatalogue(cache)) ==> ServesCatalogue(cache) && WellFormedCatalogue(categories)
  {
    if ServesCatalogue(cache) {
      DecideWellFormed(cache.GetCachedData(now), outcome);
    }
    var snapshot := cache.GetCachedData(now);
    if snapshot.data.Some? && snapshot.isFresh {
      return snapshot.data.value;
    }
    match outcome
    case NetworkFailure =>
      categories := FallbackCategories();
    case Received(status, body) =>
      if !IsOk(status) {
        return FallbackCategories();
      }
      match body
      case Unparsable =>
        categories := FallbackCategories();
      case Json(document) =>
        if document.categories.None? {
          return FallbackCategories();
        }
        var raw := document.categories.value;
        if !AllTransformable(raw) {
          return FallbackCategories();
        }
        var transformed := Transform(raw);
        if |transformed| == 0 {
          return FallbackCategories();
        }
        cache.UpdateCache(transformed, completedAt);
        categories := transformed;
  }

  // ---------------------------------------------------------------------
  // fetchCategory
  // ---------------------------------------------------------------------

  /** `xs.find(x => key(x) === wanted)`. */
  function Find<T>(xs: seq<T>, key: T -> string, wanted: string): Option<T> {
    if xs == [] then None
    else if key(xs[0]) == wanted then Some(xs[0])
    else Find(xs[1..], key, wanted)
  }

  /** `i` is the first index whose element has key `wanted`. */
  predicate FirstWithKey<T>(xs: seq<T>, key: T -> string, wanted: string, i: int) {
    && 0 <= i < |xs|
    && key(xs[i]) == wanted
    && forall k :: 0 <= k < i ==> key(xs[k]) != wanted
  }

  /** `Find` answers nothing exactly when no element has the key, and
      otherwise the first element that has it. */
  lemma {:induction false} FindFirst<T>(xs: seq<T>, key: T -> string, wanted: string)
    ensures Find(xs, key, wanted).None? <==> forall k :: 0 <= k < |xs| ==> key(xs[k]) != wanted
    ensures forall i :: FirstWithKey(xs, key, wanted, i) ==> Find(xs, key, wanted) == Some(xs[i])
  {
    if xs != [] && key(xs[0]) != wanted {
      FindFirst(xs[1..], key, wanted);
      forall i | FirstWithKey(xs, key, wanted, i)
        ensures FirstWithKey(xs[1..], key, wanted, i - 1)
      {
        assert i != 0;
      }
      if forall k :: 0 <= k < |xs[1..]| ==> key(xs[1..][k]) != wanted {
        forall k | 0 <= k < |xs|
          ensures key(xs[k]) != wanted
        {
          if k > 0 {
            assert xs[k] == xs[1..][k - 1];
          }
        }
      }
    }
  }

  function CategorySlug(category: ExtendedCategory): string {
    category.slug
  }

  function SubcategorySlug(sub: Subcategory): string {
    sub.slug
  }

  /** `fetchCategory(slug)`: the first served category whose slug is
      exactly `categorySlug`, if any; the cache evolves as in
      `fetchCategories`. */
  method FetchCategory(cache: CategoryCache, categorySlug: string, now: int, outcome: FetchOutcome, completedAt: int)
    returns (category: Option<ExtendedCategory>)
    modifies cache
    ensures category == Find(Decide(old(cache.GetCachedData(now)), outcome).Categories(), CategorySlug, categorySlug)
    ensures CacheFollows(cache, Decide(old(cache.GetCachedData(now)), outcome), completedAt)
  {
    var categories := FetchCategories(cache, now, outcome, completedAt);
    category := Find(categories, CategorySlug, categorySlug);
  }

  // ---------------------------------------------------------------------
  // fetchVideos
  // ---------------------------------------------------------------------

  /** `{...video, category, subcategory}`. */
  function ToResource(video: VideoItem, category: string, subcategory: Option<string>): VideoResource {
    VideoResource(video.id, video.title, video.url, video.description, category, subcategory, video.tags)
  }

  /** The video a resource was made from. */
  function ToVideo(resource: VideoResource): VideoItem {
    VideoItem(resource.id, resource.title, resource.url, resource.description, resource.tags)
  }

  /** `videos.map(...)` labelling each video with where it was listed:
      one resource per video, in order, each carrying the video unchanged
      and the two labels. */
  function Project(videos: seq<VideoItem>, category: string, subcategory: Option<string>): (out: seq<VideoResource>)
    ensures |out| == |videos|
    ensures forall i :: 0 <= i < |out| ==>
      ToVideo(out[i]) == videos[i] && out[i].category == category && out[i].subcategory == subcategory
  {
    seq(|videos|, i requires 0 <= i < |videos| => ToResource(videos[i], category, subcategory))
  }

  /** The videos of a list of subcategories, subcategory by subcategory,
      each labelled with the category name and its subcategory's name. */
  function SubcategoryResources(category: string, subs: seq<Subcategory>): seq<VideoResource> {
    if subs == [] then []
    else
      var last := subs[|subs| - 1];
      SubcategoryResources(category, subs[..|subs| - 1]) + Project(last.videos, category, Some(last.name))
  }

  /** `!subcategorySlug || subcategorySlug === ''`. */
  predicate NoSubcategoryFilter(subcategorySlug: Option<string>) {
    subcategorySlug.None? || subcategorySlug.value == ""
  }

  /** What `fetchVideos` lists for a category it found: its own videos,
      then either the videos of all its subcategories or those of the
      first subcategory with the requested slug. */
  function CategoryResources(category: ExtendedCategory, subcategorySlug: Option<string>): seq<VideoResource> {
    var main := Project(category.videos, category.name, None);
    if NoSubcategoryFilter(subcategorySlug) then
      main + SubcategoryResources(category.name, category.subcategories)
    else
      match Find(category.subcategories, SubcategorySlug, subcategorySlug.value)
      case Some(sub) => main + Project(sub.videos, category.name, Some(sub.name))
      case None => main
  }

  /** What `fetchVideos(categorySlug, subcategorySlug)` resolves to over
      the served list: nothing for an unknown category slug. */
  function ListVideos(categories: seq<ExtendedCategory>, categorySlug: string, subcategorySlug: Option<string>): seq<VideoResource> {
    match Find(categories, CategorySlug, categorySlug)
    case None => []
    case Some(category) => CategoryResources(category, subcategorySlug)
  }

  /** The body of `fetchVideos` once the category is found: push the main
      videos, then loop over the subcategories (or look one up). */
  method CollectCategoryVideos(category: ExtendedCategory, subcategorySlug: Option<string>)
    returns (videos: seq<VideoResource>)
    ensures videos == CategoryResources(category, subcategorySlug)
  {
    videos := [];
    videos := videos + Project(category.videos, category.name, None);
    var subs := category.subcategories;
    if subcategorySlug.None? || subcategorySlug.value == "" {
      var s := 0;
      while s < |subs|
        invariant 0 <= s <= |subs|
        invariant videos == Project(category.videos, category.name, None) + SubcategoryResources(category.name, subs[..s])
      {
        var sub := subs[s];
        assert subs[..s + 1][..s] == subs[..s];
        videos := videos + Project(sub.videos, category.name, Some(sub.name));
        s := s + 1;
      }
      assert subs[..|subs|] == subs;
    } else {
      var subcategory := Find(subs, SubcategorySlug, subcategorySlug.value);
      if subcategory.Some? {
        videos := videos + Project(subcategory.value.videos, category.name, Some(subcategory.value.name));
      }
    }
  }

  /** `fetchVideos(categorySlug, subcategorySlug)`. */
  method FetchVideos(cache: CategoryCache, categorySlug: string, subcategorySlug: Option<string>,
                     now: int, outcome: FetchOutcome, completedAt: int)
    returns (videos: seq<VideoResource>)
    modifies cache
    ensures videos == ListVideos(Decide(old(cache.GetCachedData(now)), outcome).Categories(), categorySlug, subcategorySlug)
    ensures CacheFollows(cache, Decide(old(cache.GetCachedData(now)), outcome), completedAt)
  {
    var category := FetchCategory(cache, categorySlug, now, outcome, completedAt);
    if category.None? {
      return [];
    }
    videos := CollectCategoryVideos(category.value, subcategorySlug);
  }

  /** Listing the subcategories' videos yields one resource per video. */
  lemma {:induction false} SubcategoryResourcesCount(category: string, subs: seq<Subcategory>)
    ensures |SubcategoryResources(category, subs)| == SubcategoryVideoCount(subs)
    decreases |subs|
  {
    if subs != [] {
      SubcategoryResourcesCount(category, subs[..|subs| - 1]);
    }
  }

  /** Every resource listed from a list of subcategories carries the
      category name and the name of one of those subcategories. */
  lemma {:induction false} SubcategoryResourcesLabels(category: string, subs: seq<Subcategory>)
    ensures forall r :: r in SubcategoryResources(category, subs) ==>
      r.category == category && exists s :: 0 <= s < |subs| && r.subcategory == Some(subs[s].name)
    decreases |subs|
  {
    if subs != [] {
      var n := |subs| - 1;
      SubcategoryResourcesLabels(category, subs[..n]);
      forall r | r in SubcategoryResources(category, subs)
        ensures r.category == category && exists s :: 0 <= s < |subs| && r.subcategory == Some(subs[s].name)
      {
        if r in SubcategoryResources(category, subs[..n]) {
          var s :| 0 <= s < n && r.subcategory == Some(subs[..n][s].name);
          assert subs[..n][s] == subs[s];
        } else {
          assert r.subcategory == Some(subs[n].name);
        }
      }
    }
  }

  /** Without a subcategory filter: the category's own videos come first,
      labelled with no subcategory, followed by one resource per
      subcategory video, so the list has as many entries as the category
      holds videos, and each carries the category's name. */
  lemma CategoryResourcesUnfiltered(category: ExtendedCategory, subcategorySlug: Option<string>)
    requires NoSubcategoryFilter(subcategorySlug)
    ensures var r := CategoryResources(category, subcategorySlug);
      && |r| == CategoryVideoCount(category)
      && r[..|category.videos|] == Project(category.videos, category.name, None)
      && (forall i :: 0 <= i < |category.videos| ==> r[i].subcategory.None?)
      && (forall i :: |category.videos| <= i < |r| ==> r[i].subcategory.Some?)
      && forall v :: v in r ==> v.category == category.name
  {
    var r := CategoryResources(category, subcategorySlug);
    var main := Project(category.videos, category.name, None);
    var rest := SubcategoryResources(category.name, category.subcategories);
    assert r == main + rest;
    SubcategoryResourcesCount(category.name, category.subcategories);
    SubcategoryResourcesLabels(category.name, category.subcategories);
    assert r[..|category.videos|] == main;
    forall i | |category.videos| <= i < |r|
      ensures r[i].subcategory.Some?
    {
      assert r[i] == rest[i - |main|];
      assert rest[i - |main|] in rest;
    }
    forall v | v in r
      ensures v.category == category.name
    {
      if v !in main {
        assert v in rest;
      }
    }
  }

  /** With a subcategory slug: the category's own videos, followed by the
      videos of the first subcategory with that slug, or by nothing when no
      subcategory has it. */
  lemma CategoryResourcesFiltered(category: ExtendedCategory, wanted: string)
    requires wanted != ""
    ensures var main := Project(category.videos, category.name, None);
      var r := CategoryResources(category, Some(wanted));
      && ((forall s :: 0 <= s < |category.subcategories| ==> category.subcategories[s].slug != wanted) ==> r == main)
      && forall s :: FirstWithKey(category.subcategories, SubcategorySlug, wanted, s) ==>
           r == main + Project(category.subcategories[s].videos, category.name, Some(category.subcategories[s].name))
  {
    FindFirst(category.subcategories, SubcategorySlug, wanted);
  }

  /** An unknown category slug lists nothing; a known one lists the
      first category with that slug. */
  lemma ListVideosLookup(categories: seq<ExtendedCategory>, categorySlug: string, subcategorySlug: Option<string>)
    ensures (forall c :: 0 <= c < |categories| ==> categories[c].slug != categorySlug) ==>
      ListVideos(categories, categorySlug, subcategorySlug) == []
    ensures forall c :: FirstWithKey(categories, CategorySlug, categorySlug, c) ==>
      ListVideos(categories, categorySlug, subcategorySlug) == CategoryResources(categories[c], subcategorySlug)
  {
    FindFirst(categories, CategorySlug, categorySlug);
  }

  // ---------------------------------------------------------------------
  // searchVideos
  // ---------------------------------------------------------------------

  /** Every video of a list of categories, category by category, each
      category's own videos before its subcategories' videos. */
  function CatalogueResources(categories: seq<ExtendedCategory>): seq<VideoResource> {
    if categories == [] then []
    else CatalogueResources(categories[..|categories| - 1]) + CategoryResources(categories[|categories| - 1], None)
  }

  /** The `forEach` over the categories in `searchVideos`, pushing each
      category's videos and then its subcategories' videos. */
  method CollectAllVideos(categories: seq<ExtendedCategory>) returns (allVideos: seq<VideoResource>)
    ensures allVideos == CatalogueResources(categories)
  {
    allVideos := [];
    var c := 0;
    while c < |categories|
      invariant 0 <= c <= |categories|
      invariant allVideos == CatalogueResources(categories[..c])
    {
      assert categories[..c + 1][..c] == categories[..c];
      var videos := CollectCategoryVideos(categories[c], None);
      allVideos := allVideos + videos;
      c := c + 1;
    }
    assert categories[..|categories|] == categories;
  }

  /** The flattened catalogue has one entry per video of the tree. */
  lemma {:induction false} CatalogueResourcesCount(categories: seq<ExtendedCategory>)
    ensures |CatalogueResources(categories)| == VideoCount(categories)
    decreases |categories|
  {
    if categories != [] {
      CatalogueResourcesCount(categories[..|categories| - 1]);
      CategoryResourcesUnfiltered(categories[|categories| - 1], None);
    }
  }

  /** `` `${title} ${description} ${tags.join(' ')}` ``. */
  function SearchableText(video: VideoResource): string {
    video.title + " " + video.description + " " + Join(video.tags, " ")
  }

  /** The filter of `searchVideos`: the lower-cased searchable text
      contains the lower-cased query. */
  predicate MatchesQuery(video: VideoResource, query: string) {
    Includes(ToLower(SearchableText(video)), ToLower(query))
  }

  /** `videos.filter(...)` with that test. */
  function FilterByQuery(videos: seq<VideoResource>, query: string): seq<VideoResource> {
    if videos == [] then []
    else
      var last := videos[|videos| - 1];
      FilterByQuery(videos[..|videos| - 1], query) + (if MatchesQuery(last, query) then [last] else [])
  }

  /** A video is in the result exactly when it is in the input and
      matches; the result is never longer than the input. */
  lemma {:induction false} FilterByQueryMembership(videos: seq<VideoResource>, query: string)
    ensures forall v :: v in FilterByQuery(videos, query) <==> v in videos && MatchesQuery(v, query)
    ensures |FilterByQuery(videos, query)| <= |videos|
    decreases |videos|
  {
    if videos != [] {
      var n := |videos| - 1;
      FilterByQueryMembership(videos[..n], query);
      assert videos == videos[..n] + [videos[n]];
    }
  }

  /** Filtering keeps the order: filtering two lists one after the other
      is filtering their concatenation. */
  lemma {:induction false} FilterByQueryAppend(a: seq<VideoResource>, b: seq<VideoResource>, query: string)
    ensures FilterByQuery(a + b, query) == FilterByQuery(a, query) + FilterByQuery(b, query)
    decreases |b|
  {
    if b == [] {
      assert a + b == a;
    } else {
      var n := |b| - 1;
      assert (a + b)[..|a + b| - 1] == a + b[..n];
      FilterByQueryAppend(a, b[..n], query);
    }
  }

  /** The empty query matches every video: searching for "" returns the
      whole flattened catalogue. */
  lemma {:induction false} FilterByEmptyQuery(videos: seq<VideoResource>)
    ensures FilterByQuery(videos, "") == videos
    decreases |videos|
  {
    if videos != [] {
      var n := |videos| - 1;
      IncludesEmpty(ToLower(SearchableText(videos[n])));
      FilterByEmptyQuery(videos[..n]);
    }
  }

  /** The search ignores the case of the query's ASCII letters. */
  lemma {:induction false} FilterIgnoresQueryCase(videos: seq<VideoResource>, query: string, other: string)
    requires ToLower(query) == ToLower(other)
    ensures FilterByQuery(videos, query) == FilterByQuery(videos, other)
    decreases |videos|
  {
    if videos != [] {
      FilterIgnoresQueryCase(videos[..|videos| - 1], query, other);
    }
  }

  /** A video whose title contains the query, ignoring case, is always
      found. */
  lemma TitleMatchFound(video: VideoResource, query: string)
    requires Includes(ToLower(video.title), ToLower(query))
    ensures MatchesQuery(video, query)
  {
    var rest := " " + video.description + " " + Join(video.tags, " ");
    assert SearchableText(video) == video.title + rest;
    ToLowerAppend(video.title, rest);
    IncludesInContext([], ToLower(video.title), ToLower(rest), ToLower(query));
    assert [] + ToLower(video.title) + ToLower(rest) == ToLower(SearchableText(video));
  }

  /** A video whose description contains the query, ignoring case, is
      always found. */
  lemma DescriptionMatchFound(video: VideoResource, query: string)
    requires Includes(ToLower(video.description), ToLower(query))
    ensures MatchesQuery(video, query)
  {
    var before := video.title + " ";
    var after := " " + Join(video.tags, " ");
    assert SearchableText(video) == before + video.description + after;
    ToLowerAppend(before + video.description, after);
    ToLowerAppend(before, video.description);
    IncludesInContext(ToLower(before), ToLower(video.description), ToLower(after), ToLower(query));
  }

  /** A video with a tag that contains the query, ignoring case, is always
      found. */
  lemma TagMatchFound(video: VideoResource, query: string, t: nat)
    requires t < |video.tags| && Includes(ToLower(video.tags[t]), ToLower(query))
    ensures MatchesQuery(video, query)
  {
    var before, after := JoinContext(video.tags, " ", t);
    var prefix := video.title + " " + video.description + " " + before;
    assert SearchableText(video) == prefix + video.tags[t] + after;
    ToLowerAppend(prefix + video.tags[t], after);
    ToLowerAppend(prefix, video.tags[t]);
    IncludesInContext(ToLower(prefix), ToLower(video.tags[t]), ToLower(after), ToLower(query));
  }

  /** `searchVideos(query)`: the matching videos of the served list, in
      flattening order; the cache evolves as in `fetchCategories`. */
  method SearchVideos(cache: CategoryCache, query: string, now: int, outcome: FetchOutcome, completedAt: int)
    returns (results: seq<VideoResource>)
    modifies cache
    ensures results == FilterByQuery(CatalogueResources(Decide(old(cache.GetCachedData(now)), outcome).Categories()), query)
    ensures CacheFollows(cache, Decide(old(cache.GetCachedData(now)), outcome), completedAt)
  {
    var categories := FetchCategories(cache, now, outcome, completedAt);
    var allVideos := CollectAllVideos(categories);
    results := FilterByQuery(allVideos, query);
  }

  /** End to end: after a successful fetch, searching for the empty query
      returns one result per item of the raw document on the two levels
      the normaliser reads. */
  lemma SearchEverythingAfterFetch(snapshot: CacheSnapshot, outcome: FetchOutcome, raw: seq<RawCategory>)
    requires !FreshHit(snapshot) && Fetched(outcome, raw) && AllTransformable(raw) && raw != []
    ensures |FilterByQuery(CatalogueResources(Decide(snapshot, outcome).Categories()), "")| == RawItemCount(raw)
  {
    DecideStoresIff(snapshot, outcome, raw);
    FilterByEmptyQuery(CatalogueResources(Transform(raw)));
    CatalogueResourcesCount(Transform(raw));
    TransformPreservesItemCount(raw);
  }
}
