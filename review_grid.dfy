/**
 * The review feed (`components/ReviewGrid.tsx`): the query string each page
 * request carries, the parameter of the next page, the position of a review in
 * the feed, and a tile's "has been played" mark.
 *
 * The page size (`PAGE_SIZE`, from `utils/constants.ts`, which is not part of
 * this model) is a parameter.
 */
module ReviewGrid {
  import opened Wrappers
  import opened Text
  import opened JsNumber
  import opened UrlParams
  import opened GridFilter

  /** `pageParam`: the page number and, after the first page, the id of the last review seen. */
  datatype PageParam = PageParam(page: int, cursor: Option<int>)

  /** The ids of the search entries of one type, in order. */
  function IdsOf(search: seq<SearchResult>, kind: SearchKind): (ids: seq<int>)
    ensures |ids| <= |search|
    decreases |search|
  {
    if search == [] then []
    else
      var rest := IdsOf(search[1..], kind);
      if search[0].kind == kind then [search[0].id] + rest else rest
  }

  /** An id is listed exactly when some entry of that type carries it. */
  lemma {:induction false} IdsOfMembers(search: seq<SearchResult>, kind: SearchKind)
    ensures forall i :: 0 <= i < |search| && search[i].kind == kind ==> search[i].id in IdsOf(search, kind)
    ensures forall id :: id in IdsOf(search, kind) ==> exists i :: 0 <= i < |search| && search[i].kind == kind && search[i].id == id
    decreases |search|
  {
    if search != [] {
      IdsOfMembers(search[1..], kind);
      assert forall i :: 1 <= i < |search| ==> search[i] == search[1..][i - 1];
    }
  }

  /** Partitioning is done entry by entry, so each id list follows the order of the search list. */
  lemma {:induction false} IdsOfAppend(a: seq<SearchResult>, b: seq<SearchResult>, kind: SearchKind)
    ensures IdsOf(a + b, kind) == IdsOf(a, kind) + IdsOf(b, kind)
    decreases |a|
  {
    if a == [] {
      assert a + b == b;
    } else {
      assert (a + b)[1..] == a[1..] + b;
      IdsOfAppend(a[1..], b, kind);
    }
  }

  /** Every search entry lands in exactly one of the two id lists. */
  lemma {:induction false} IdsPartition(search: seq<SearchResult>)
    ensures |IdsOf(search, Artist)| + |IdsOf(search, Label)| == |search|
    decreases |search|
  {
    if search != [] {
      IdsPartition(search[1..]);
    }
  }

  /** Each id printed with `String`. */
  function Shown(ids: seq<int>): (r: seq<string>)
    ensures |r| == |ids|
    ensures forall i :: 0 <= i < |ids| ==> r[i] == Str(Whole(ids[i]))
    decreases |ids|
  {
    if ids == [] then [] else [Str(Whole(ids[0]))] + Shown(ids[1..])
  }

  /** `ids.join(",")`. */
  function IdList(ids: seq<int>): string {
    Join(Shown(ids), ",")
  }

  /** The keys the fetcher may set. */
  datatype RequestKey =
    | CursorKey | PageKey | GenreKey | BestNewKey | YearStartKey | YearEndKey
    | ScoreStartKey | ScoreEndKey | ArtistsKey | LabelsKey

  /** The parameter name of a key. */
  function Name(k: RequestKey): string {
    match k
    case CursorKey => "cursor"
    case PageKey => "page"
    case GenreKey => "genre"
    case BestNewKey => "isBestNew"
    case YearStartKey => "yearStart"
    case YearEndKey => "yearEnd"
    case ScoreStartKey => "scoreStart"
    case ScoreEndKey => "scoreEnd"
    case ArtistsKey => "artists"
    case LabelsKey => "labels"
  }

  lemma NameInjective(a: RequestKey, b: RequestKey)
    ensures Name(a) == Name(b) ==> a == b
  {
    if a != b {
      assert Name(a) != Name(b) by {
        match a
        case CursorKey => assert Name(a)[0] == 'c';
        case PageKey => assert Name(a)[0] == 'p';
        case GenreKey => assert Name(a)[0] == 'g';
        case BestNewKey => assert Name(a)[0] == 'i';
        case YearStartKey => assert Name(a)[..5] == "yearS";
        case YearEndKey => assert Name(a)[..5] == "yearE";
        case ScoreStartKey => assert Name(a)[..6] == "scoreS";
        case ScoreEndKey => assert Name(a)[..6] == "scoreE";
        case ArtistsKey => assert Name(a)[0] == 'a';
        case LabelsKey => assert Name(a)[0] == 'l';
      }
    }
  }

  /** The cursor is sent when truthy. */
  predicate HasCursor(pp: Option<PageParam>) {
    pp.Some? && pp.value.cursor.Some? && pp.value.cursor.value != 0
  }

  /** The value the fetcher sets under a key, or `None` when it leaves the key out. */
  function RequestValue(pp: Option<PageParam>, filters: Option<Filters>, key: RequestKey): Option<string> {
    match key
    case CursorKey => if HasCursor(pp) then Some(Str(Whole(pp.value.cursor.value))) else None
    case PageKey => if !HasCursor(pp) && pp.Some? && pp.value.page != 0 then Some(Str(Whole(pp.value.page))) else None
    case GenreKey => if filters.Some? && |filters.value.genre| > 0 then Some(Join(filters.value.genre, ",")) else None
    case BestNewKey => if filters.Some? && filters.value.isBestNew then Some("1") else None
    case YearStartKey =>
      if filters.Some? && filters.value.yearRange.Some? then Some(Str(filters.value.yearRange.value.start)) else None
    case YearEndKey =>
      if filters.Some? && filters.value.yearRange.Some? then Some(Str(filters.value.yearRange.value.end)) else None
    case ScoreStartKey =>
      if filters.Some? && filters.value.score.Some? then Some(Str(filters.value.score.value.start)) else None
    case ScoreEndKey =>
      if filters.Some? && filters.value.score.Some? then Some(Str(filters.value.score.value.end)) else None
    case ArtistsKey =>
      if filters.Some? && |IdsOf(filters.value.search, Artist)| > 0 then Some(IdList(IdsOf(filters.value.search, Artist))) else None
    case LabelsKey =>
      if filters.Some? && |IdsOf(filters.value.search, Label)| > 0 then Some(IdList(IdsOf(filters.value.search, Label))) else None
  }

  /** One key's turn: `params.set(name, v)` when it has a value, nothing otherwise. */
  function SetWhen(q: Params, pp: Option<PageParam>, filters: Option<Filters>, key: RequestKey): Params {
    match RequestValue(pp, filters, key)
    case Some(v) => q[Name(key) := v]
    case None => q
  }

  /** The query string once the keys of `keys` have had their turn, in order. */
  function Sent(pp: Option<PageParam>, filters: Option<Filters>, keys: seq<RequestKey>): Params
    decreases |keys|
  {
    if keys == [] then map[]
    else SetWhen(Sent(pp, filters, keys[..|keys| - 1]), pp, filters, keys[|keys| - 1])
  }

  lemma SentStep(pp: Option<PageParam>, filters: Option<Filters>, keys: seq<RequestKey>, key: RequestKey)
    ensures Sent(pp, filters, keys + [key]) == SetWhen(Sent(pp, filters, keys), pp, filters, key)
  {
    assert (keys + [key])[..|keys|] == keys;
  }

  /**
   * After the keys of `keys` have had their turn, each of them reads back the
   * value it should have and every other key is absent, whatever the order.
   */
  lemma {:induction false} SentValues(pp: Option<PageParam>, filters: Option<Filters>, keys: seq<RequestKey>, k: RequestKey)
    ensures Get(Sent(pp, filters, keys), Name(k)) == (if k in keys then RequestValue(pp, filters, k) else None)
    decreases |keys|
  {
    if keys != [] {
      var prefix := keys[..|keys| - 1];
      var last := keys[|keys| - 1];
      assert keys == prefix + [last];
      SentValues(pp, filters, prefix, k);
      NameInjective(k, last);
    }
  }

  /** Only the names of the keys that had their turn are set. */
  lemma {:induction false} SentNames(pp: Option<PageParam>, filters: Option<Filters>, keys: seq<RequestKey>, n: string)
    requires n in Sent(pp, filters, keys)
    ensures exists k :: k in keys && Name(k) == n
    decreases |keys|
  {
    var prefix := keys[..|keys| - 1];
    var last := keys[|keys| - 1];
    assert keys == prefix + [last];
    if n != Name(last) {
      SentNames(pp, filters, prefix, n);
      var k :| k in prefix && Name(k) == n;
      assert k in keys;
    }
  }

  /** Every key, in the order the fetcher visits them. */
  const RequestOrder: seq<RequestKey> := [CursorKey, PageKey, GenreKey, BestNewKey, YearStartKey, YearEndKey, ScoreStartKey, ScoreEndKey, ArtistsKey, LabelsKey]

  lemma InRequestOrder(k: RequestKey)
    ensures k in RequestOrder
  {
  }

  /** The request's query string: every key has had its turn. */
  function RequestParams(pp: Option<PageParam>, filters: Option<Filters>): Params {
    Sent(pp, filters, RequestOrder)
  }

  /** Every key reads back the value it should have, and no other name is set. */
  lemma RequestParamsValues(pp: Option<PageParam>, filters: Option<Filters>)
    ensures forall k :: Get(RequestParams(pp, filters), Name(k)) == RequestValue(pp, filters, k)
    ensures forall n :: n in RequestParams(pp, filters) ==> exists k :: Name(k) == n
  {
    forall k ensures Get(RequestParams(pp, filters), Name(k)) == RequestValue(pp, filters, k) {
      SentValues(pp, filters, RequestOrder, k);
      InRequestOrder(k);
    }
    forall n | n in RequestParams(pp, filters) ensures exists k :: Name(k) == n {
      SentNames(pp, filters, RequestOrder, n);
    }
  }

  /** The fetcher's first block: the cursor when truthy, else the page number when truthy. */
  method SetPagination(params: Params, pp: Option<PageParam>, filters: Option<Filters>) returns (q: Params)
    ensures q == SetWhen(SetWhen(params, pp, filters, CursorKey), pp, filters, PageKey)
  {
    q := params;
    if pp.Some? && pp.value.cursor.Some? && pp.value.cursor.value != 0 {
      q := q["cursor" := Str(Whole(pp.value.cursor.value))];
    } else if pp.Some? && pp.value.page != 0 {
      q := q["page" := Str(Whole(pp.value.page))];
    }
  }

  /** The genres, comma-joined, when there are any. */
  method SetGenre(params: Params, pp: Option<PageParam>, filters: Option<Filters>) returns (q: Params)
    ensures q == SetWhen(params, pp, filters, GenreKey)
  {
    q := params;
    if filters.Some? && |filters.value.genre| > 0 {
      q := q["genre" := Join(filters.value.genre, ",")];
    }
  }

  /** `isBestNew=1` when the flag is on. */
  method SetBestNew(params: Params, pp: Option<PageParam>, filters: Option<Filters>) returns (q: Params)
    ensures q == SetWhen(params, pp, filters, BestNewKey)
  {
    q := params;
    if filters.Some? && filters.value.isBestNew {
      q := q["isBestNew" := "1"];
    }
  }

  /** Both ends of the year range when there is one. */
  method SetYearRange(params: Params, pp: Option<PageParam>, filters: Option<Filters>) returns (q: Params)
    ensures q == SetWhen(SetWhen(params, pp, filters, YearStartKey), pp, filters, YearEndKey)
  {
    q := params;
    if filters.Some? && filters.value.yearRange.Some? {
      q := q["yearStart" := Str(filters.value.yearRange.value.start)];
      q := q["yearEnd" := Str(filters.value.yearRange.value.end)];
    }
  }

  /** Both ends of the score range when there is one. */
  method SetScore(params: Params, pp: Option<PageParam>, filters: Option<Filters>) returns (q: Params)
    ensures q == SetWhen(SetWhen(params, pp, filters, ScoreStartKey), pp, filters, ScoreEndKey)
  {
    q := params;
    if filters.Some? && filters.value.score.Some? {
      q := q["scoreStart" := Str(filters.value.score.value.start)];
      q := q["scoreEnd" := Str(filters.value.score.value.end)];
    }
  }

  /** The artist ids and the label ids of the search pills, each list when non-empty. */
  method SetSearch(params: Params, pp: Option<PageParam>, filters: Option<Filters>) returns (q: Params)
    ensures q == SetWhen(SetWhen(params, pp, filters, ArtistsKey), pp, filters, LabelsKey)
  {
    q := params;
    if filters.Some? {
      var artists := IdsOf(filters.value.search, Artist);
      var labels := IdsOf(filters.value.search, Label);
      if |artists| > 0 {
        q := q["artists" := IdList(artists)];
      }
      if |labels| > 0 {
        q := q["labels" := IdList(labels)];
      }
    }
  }

  /**
   * The fetcher of `useInfiniteQuery`: starting from an empty query string,
   * each block sets its keys when its test is truthy.
   */
  method BuildRequestParams(pp: Option<PageParam>, filters: Option<Filters>) returns (params: Params)
    ensures params == RequestParams(pp, filters)
  {
    params := map[];
    ghost var done: seq<RequestKey> := [];
    params := SetPagination(params, pp, filters);
    SentStep(pp, filters, done, CursorKey);
    SentStep(pp, filters, done + [CursorKey], PageKey);
    done := done + [CursorKey] + [PageKey];
    assert params == Sent(pp, filters, done);
    params := SetGenre(params, pp, filters);
    SentStep(pp, filters, done, GenreKey);
    done := done + [GenreKey];
    assert params == Sent(pp, filters, done);
    params := SetBestNew(params, pp, filters);
    SentStep(pp, filters, done, BestNewKey);
    done := done + [BestNewKey];
    assert params == Sent(pp, filters, done);
    params := SetYearRange(params, pp, filters);
    SentStep(pp, filters, done, YearStartKey);
    SentStep(pp, filters, done + [YearStartKey], YearEndKey);
    done := done + [YearStartKey] + [YearEndKey];
    assert params == Sent(pp, filters, done);
    params := SetScore(params, pp, filters);
    SentStep(pp, filters, done, ScoreStartKey);
    SentStep(pp, filters, done + [ScoreStartKey], ScoreEndKey);
    done := done + [ScoreStartKey] + [ScoreEndKey];
    assert params == Sent(pp, filters, done);
    params := SetSearch(params, pp, filters);
    SentStep(pp, filters, done, ArtistsKey);
    SentStep(pp, filters, done + [ArtistsKey], LabelsKey);
    done := done + [ArtistsKey] + [LabelsKey];
    assert done == RequestOrder;
  }

  // ===========================================================================
  // paging

  /** What the feed needs of a review here: its id. */
  datatype ReviewRef = ReviewRef(id: int)

  /** `getNextPageParam`: `false` (here `None`) after an empty page; otherwise the next page number and the last id. */
  function NextPageParam(pp: Option<PageParam>, reviews: seq<ReviewRef>): (next: Option<PageParam>)
    ensures next.None? <==> reviews == []
    ensures next.Some? ==> next.value.cursor == Some(reviews[|reviews| - 1].id)
    ensures next.Some? ==> next.value.page == (if pp.Some? then pp.value.page + 1 else 1)
  {
    if reviews == [] then None
    else Some(PageParam(if pp.Some? then pp.value.page + 1 else 1, Some(reviews[|reviews| - 1].id)))
  }

  /** Every page after the first is requested by cursor, never by page number, unless the last id is 0. */
  lemma LaterPagesUseCursor(pp: Option<PageParam>, reviews: seq<ReviewRef>, filters: Option<Filters>)
    requires reviews != [] && reviews[|reviews| - 1].id != 0
    ensures var q := RequestParams(NextPageParam(pp, reviews), filters);
            Get(q, "cursor") == Some(Str(Whole(reviews[|reviews| - 1].id))) && "page" !in q
  {
    var q := RequestParams(NextPageParam(pp, reviews), filters);
    RequestParamsValues(NextPageParam(pp, reviews), filters);
    assert Get(q, Name(CursorKey)) == RequestValue(NextPageParam(pp, reviews), filters, CursorKey);
    assert Get(q, Name(PageKey)) == None;
  }

  /** `data.pages.map(p => p.reviews).flat()`. */
  function Flatten<T>(pages: seq<seq<T>>): (all: seq<T>)
    decreases |pages|
  {
    if pages == [] then [] else pages[0] + Flatten(pages[1..])
  }

  lemma {:induction false} FlattenLength<T>(pages: seq<seq<T>>, pageSize: nat)
    requires forall i :: 0 <= i < |pages| ==> |pages[i]| == pageSize
    ensures |Flatten(pages)| == |pages| * pageSize
    decreases |pages|
  {
    if pages != [] {
      FlattenLength(pages[1..], pageSize);
    }
  }

  /** The position a tile announces: `pageIndex * PAGE_SIZE + reviewIndex + 1`. */
  function FeedIndex(pageIndex: nat, reviewIndex: nat, pageSize: nat): (index: nat)
    ensures index >= 1
  {
    pageIndex * pageSize + reviewIndex + 1
  }

  /**
   * When every page before `pageIndex` is full, the announced position of a
   * review is its 1-based position in the flattened feed.
   */
  lemma {:induction false} FeedIndexIsPosition<T>(pages: seq<seq<T>>, pageSize: nat, pageIndex: nat, reviewIndex: nat)
    requires pageIndex < |pages| && reviewIndex < |pages[pageIndex]|
    requires forall i :: 0 <= i < pageIndex ==> |pages[i]| == pageSize
    ensures FeedIndex(pageIndex, reviewIndex, pageSize) <= |Flatten(pages)|
    ensures Flatten(pages)[FeedIndex(pageIndex, reviewIndex, pageSize) - 1] == pages[pageIndex][reviewIndex]
    decreases pageIndex
  {
    FlattenPrefix(pages, pageIndex);
    if pageIndex == 0 {
    } else {
      FeedIndexIsPosition(pages[1..], pageSize, pageIndex - 1, reviewIndex);
      assert pages[1..][pageIndex - 1] == pages[pageIndex];
      assert Flatten(pages) == pages[0] + Flatten(pages[1..]);
      assert (pageIndex - 1) * pageSize + pageSize == pageIndex * pageSize;
    }
  }

  /** The flattened feed is at least as long as the pages up to and including `k`. */
  lemma {:induction false} FlattenPrefix<T>(pages: seq<seq<T>>, k: nat)
    requires k < |pages|
    ensures |Flatten(pages)| >= |pages[k]|
    ensures k > 0 ==> |Flatten(pages)| == |pages[0]| + |Flatten(pages[1..])|
    decreases k
  {
    if k > 0 {
      FlattenPrefix(pages[1..], k - 1);
    }
  }

  /** Two tiles on full pages never announce the same position. */
  lemma FeedIndexInjective(pi: nat, ri: nat, pj: nat, rj: nat, pageSize: nat)
    requires ri < pageSize && rj < pageSize
    requires FeedIndex(pi, ri, pageSize) == FeedIndex(pj, rj, pageSize)
    ensures pi == pj && ri == rj
  {
    if pi < pj {
      PageStartsApart(pi, pj, pageSize);
    } else if pj < pi {
      PageStartsApart(pj, pi, pageSize);
    }
  }

  /** A later page starts at least a whole page further on. */
  lemma PageStartsApart(a: nat, b: nat, pageSize: nat)
    requires a < b
    ensures a * pageSize + pageSize <= b * pageSize
  {
    assert a * pageSize + pageSize == (a + 1) * pageSize;
    MulMonotone(a + 1, b, pageSize);
  }

  lemma {:induction false} MulMonotone(a: nat, b: nat, c: nat)
    requires a <= b
    ensures a * c <= b * c
    decreases b - a
  {
    if a < b {
      MulMonotone(a + 1, b, c);
      assert (a + 1) * c == a * c + c;
    }
  }

  // ===========================================================================
  // a tile's "has been played" mark

  /**
   * `hasBeenPlayed` of one review tile: set at mount when the album is in the
   * played list, and set by the two effects when it appears there later or
   * starts playing. Nothing ever clears it.
   */
  class ReviewTile {
    const spotifyAlbum: Option<string>
    var hasBeenPlayed: bool

    /** Listed in the played list, with a truthy album link. */
    static predicate InPlayed(album: Option<string>, played: seq<string>) {
      album.Some? && album.value != "" && album.value in played
    }

    constructor(spotifyAlbum: Option<string>, played: seq<string>)
      ensures this.spotifyAlbum == spotifyAlbum
      ensures hasBeenPlayed == InPlayed(spotifyAlbum, played)
    {
      this.spotifyAlbum := spotifyAlbum;
      hasBeenPlayed := InPlayed(spotifyAlbum, played);
    }

    /** The effect on the played list. */
    method OnPlayed(played: seq<string>)
      modifies this
      ensures hasBeenPlayed == (old(hasBeenPlayed) || InPlayed(spotifyAlbum, played))
    {
      if InPlayed(spotifyAlbum, played) {
        hasBeenPlayed := true;
      }
    }

    /**
     * The effect on the player: `isBeingPlayed` compares the player's album,
     * always a string, with the tile's link, so a tile without a link is never
     * being played.
     */
    method OnPlayer(playerAlbum: string)
      modifies this
      ensures hasBeenPlayed == (old(hasBeenPlayed) || spotifyAlbum == Some(playerAlbum))
    {
      if spotifyAlbum == Some(playerAlbum) {
        hasBeenPlayed := true;
      }
    }
  }

  /** A played album is marked whatever the order of later events. */
  method LatchHolds(tile: ReviewTile, played: seq<string>, playerAlbums: seq<string>)
    requires tile.hasBeenPlayed
    modifies tile
    ensures tile.hasBeenPlayed
  {
    var i := 0;
    while i < |playerAlbums|
      invariant 0 <= i <= |playerAlbums|
      invariant tile.hasBeenPlayed
    {
      tile.OnPlayer(playerAlbums[i]);
      tile.OnPlayed(played);
      i := i + 1;
    }
  }
}
