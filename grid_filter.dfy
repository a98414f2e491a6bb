/**
 * The review grid's filter state (`components/GridFilter.tsx`): the filter
 * reducers behind the pills, switches and sliders, `hasActiveFilters`, the
 * sliders' thumb values, and the two effects of `useGridFilters` that read the
 * filters from the page URL once and write them back after every change.
 *
 * The current year (`new Date().getFullYear()`) is a parameter.
 */
module GridFilter {
  import opened Wrappers
  import opened Text
  import opened JsNumber
  import opened UrlParams

  const FirstYear: int := 1999
  const MinScore: int := 0
  const MaxScore: int := 10

  datatype SearchKind = Artist | Label

  /** An artist or a label picked from the search box. */
  datatype SearchResult = SearchResult(id: int, name: string, kind: SearchKind)

  datatype Range = Range(start: Number, end: Number)

  datatype Filters = Filters(
    genre: seq<string>,
    isBestNew: bool,
    yearRange: Option<Range>,
    score: Option<Range>,
    search: seq<SearchResult>)

  /** The state the hook starts from. */
  const NoFilters: Filters := Filters([], false, None, None, [])

  // ===========================================================================
  // hasActiveFilters

  /** `hasActiveFilters`: some genre, best-new, a score or year range, or some search entry. */
  predicate HasActiveFilters(f: Filters) {
    |f.genre| > 0 || f.isBestNew || f.score.Some? || f.yearRange.Some? || |f.search| > 0
  }

  /** Filters are active exactly when the state differs from the initial one. */
  lemma ActiveIffNotInitial(f: Filters)
    ensures HasActiveFilters(f) <==> f != NoFilters
  {
    if !HasActiveFilters(f) {
      assert f.genre == [] && f.search == [];
    }
  }

  // ===========================================================================
  // reducers

  /** `addGenre`: the genre goes at the end of the list. */
  function AddGenre(f: Filters, genre: string): (r: Filters)
    ensures r.genre == f.genre + [genre]
    ensures r.(genre := f.genre) == f
  {
    f.(genre := f.genre + [genre])
  }

  /** `list.filter(g => g !== x)`. */
  function Without(list: seq<string>, x: string): (r: seq<string>)
    ensures x !in r
    ensures forall y :: y != x ==> (y in r <==> y in list)
    ensures |r| <= |list|
    decreases |list|
  {
    if list == [] then []
    else if list[0] == x then Without(list[1..], x)
    else
      assert forall y :: y in list <==> y == list[0] || y in list[1..];
      [list[0]] + Without(list[1..], x)
  }

  /** Filtering works element by element, so the remaining genres keep their order. */
  lemma {:induction false} WithoutAppend(a: seq<string>, b: seq<string>, x: string)
    ensures Without(a + b, x) == Without(a, x) + Without(b, x)
    decreases |a|
  {
    if a == [] {
      assert a + b == b;
    } else {
      assert (a + b)[1..] == a[1..] + b;
      WithoutAppend(a[1..], b, x);
    }
  }

  /** A list without `x` is left as it is. */
  lemma {:induction false} WithoutAbsent(list: seq<string>, x: string)
    requires x !in list
    ensures Without(list, x) == list
    decreases |list|
  {
    if list != [] {
      WithoutAbsent(list[1..], x);
    }
  }

  /** `removeGenre`: every occurrence of the genre goes; the other genres stay, in order. */
  function RemoveGenre(f: Filters, genre: string): (r: Filters)
    ensures genre !in r.genre
    ensures forall g :: g != genre ==> (g in r.genre <==> g in f.genre)
    ensures r.(genre := f.genre) == f
  {
    f.(genre := Without(f.genre, genre))
  }

  /** Removing a genre just added is removing it from the list as it was. */
  lemma RemoveAfterAdd(f: Filters, genre: string)
    ensures RemoveGenre(AddGenre(f, genre), genre) == RemoveGenre(f, genre)
  {
    WithoutAppend(f.genre, [genre], genre);
    assert Without([genre], genre) == [];
  }

  /** Adding a genre not yet selected and removing it again restores the filters. */
  lemma AddThenRemoveRestores(f: Filters, genre: string)
    requires genre !in f.genre
    ensures RemoveGenre(AddGenre(f, genre), genre) == f
  {
    RemoveAfterAdd(f, genre);
    WithoutAbsent(f.genre, genre);
  }

  /** `setYears`: the year range is dropped exactly when the slider spans the full range. */
  function SetYears(f: Filters, start: Number, end: Number, currentYear: int): (r: Filters)
    ensures r.yearRange.None? <==> start == Whole(FirstYear) && end == Whole(currentYear)
    ensures r.yearRange.Some? ==> r.yearRange.value == Range(start, end)
    ensures r.(yearRange := f.yearRange) == f
  {
    f.(yearRange := if start != Whole(FirstYear) || end != Whole(currentYear) then Some(Range(start, end)) else None)
  }

  /** `setScores`: the score range is dropped exactly when the slider spans 0 to 10. */
  function SetScores(f: Filters, start: Number, end: Number): (r: Filters)
    ensures r.score.None? <==> start == Whole(MinScore) && end == Whole(MaxScore)
    ensures r.score.Some? ==> r.score.value == Range(start, end)
    ensures r.(score := f.score) == f
  {
    f.(score := if start != Whole(MinScore) || end != Whole(MaxScore) then Some(Range(start, end)) else None)
  }

  /** `addSearchFilter`: the picked result goes at the end of the list. */
  function AddSearchFilter(f: Filters, result: SearchResult): (r: Filters)
    ensures r.search == f.search + [result]
    ensures r.(search := f.search) == f
  {
    f.(search := f.search + [result])
  }

  /** The search entries that are not of the given type and id, in order. */
  function SearchWithout(list: seq<SearchResult>, kind: SearchKind, id: int): (r: seq<SearchResult>)
    ensures forall x :: x in r <==> x in list && !(x.kind == kind && x.id == id)
    decreases |list|
  {
    if list == [] then []
    else
      assert forall x :: x in list <==> x == list[0] || x in list[1..];
      if list[0].kind == kind && list[0].id == id then SearchWithout(list[1..], kind, id)
      else [list[0]] + SearchWithout(list[1..], kind, id)
  }

  /** A search pill's close button: drops exactly the entries with the pill's type and id. */
  function RemoveSearchPill(f: Filters, pill: SearchResult): (r: Filters)
    ensures forall x :: x in r.search <==> x in f.search && !(x.kind == pill.kind && x.id == pill.id)
    ensures r.(search := f.search) == f
  {
    f.(search := SearchWithout(f.search, pill.kind, pill.id))
  }

  /** Adding a search result and closing its pill drops every entry with that type and id, the new one included. */
  lemma AddThenRemoveSearch(f: Filters, result: SearchResult)
    ensures RemoveSearchPill(AddSearchFilter(f, result), result).search == SearchWithout(f.search, result.kind, result.id)
  {
    SearchWithoutAppend(f.search, [result], result.kind, result.id);
    assert SearchWithout([result], result.kind, result.id) == [];
  }

  lemma {:induction false} SearchWithoutAppend(a: seq<SearchResult>, b: seq<SearchResult>, kind: SearchKind, id: int)
    ensures SearchWithout(a + b, kind, id) == SearchWithout(a, kind, id) + SearchWithout(b, kind, id)
    decreases |a|
  {
    if a == [] {
      assert a + b == b;
    } else {
      assert (a + b)[1..] == a[1..] + b;
      SearchWithoutAppend(a[1..], b, kind, id);
    }
  }

  /** The best-new pill: clears the flag. */
  function ClearBestNew(f: Filters): Filters {
    f.(isBestNew := false)
  }

  /** The year pill: clears the year range. */
  function ClearYearRange(f: Filters): Filters {
    f.(yearRange := None)
  }

  /** The score pill: clears the score range. */
  function ClearScore(f: Filters): Filters {
    f.(score := None)
  }

  /** The best-new switch. */
  function ToggleBestNew(f: Filters): Filters {
    f.(isBestNew := !f.isBestNew)
  }

  /** Closing the three pills of flags and ranges, with no genre and no search entry left, leaves no active filter. */
  lemma ClosingPillsDeactivates(f: Filters)
    requires f.genre == [] && f.search == []
    ensures !HasActiveFilters(ClearScore(ClearYearRange(ClearBestNew(f))))
    ensures ClearScore(ClearYearRange(ClearBestNew(f))) == NoFilters
  {
  }

  /** Toggling the switch twice changes nothing. */
  lemma ToggleTwice(f: Filters)
    ensures ToggleBestNew(ToggleBestNew(f)) == f
  {
  }

  // ===========================================================================
  // sliders

  /** The slider input for a range: `range?.start ?? 0` and `range?.end ?? 0`. */
  function SliderValues(range: Option<Range>): (Number, Number) {
    match range
    case None => (Whole(0), Whole(0))
    case Some(r) => (r.start, r.end)
  }

  /** `RangeInput`: a falsy (0 or NaN) thumb value shows the slider's bound instead. */
  function Thumbs(values: (Number, Number), min: Number, max: Number): (r: (Number, Number))
    ensures Truthy(values.0) ==> r.0 == values.0
    ensures !Truthy(values.0) ==> r.0 == min
    ensures Truthy(values.1) ==> r.1 == values.1
    ensures !Truthy(values.1) ==> r.1 == max
  {
    (if Truthy(values.0) then values.0 else min, if Truthy(values.1) then values.1 else max)
  }

  /** With no range the thumbs sit on the bounds; a score starting at 0 shows its start on the lower bound too. */
  lemma ThumbsOfAbsentRange(min: Number, max: Number, range: Option<Range>)
    ensures Thumbs(SliderValues(None), min, max) == (min, max)
    ensures range.Some? && range.value.start == Whole(MinScore) ==>
              Thumbs(SliderValues(range), Whole(MinScore), max).0 == Whole(MinScore)
  {
  }

  // ===========================================================================
  // URL sync

  /** The URL keys the sync effect manages. */
  const ManagedKeys: set<string> := {"isBestNew", "genre", "yearStart", "yearEnd", "scoreStart", "scoreEnd"}

  /** A range bound as a URL value: present only when truthy. */
  function BoundParam(range: Option<Range>, atStart: bool): Option<string> {
    if range.None? then None
    else
      var n := if atStart then range.value.start else range.value.end;
      if Truthy(n) then Some(Str(n)) else None
  }

  /** The value the sync effect leaves under a managed key, or `None` when it deletes the key. */
  function SyncedValue(f: Filters, key: string): Option<string> {
    if key == "isBestNew" then (if f.isBestNew then Some("1") else None)
    else if key == "genre" then (if |f.genre| > 0 then Some(Join(f.genre, ",")) else None)
    else if key == "yearStart" then BoundParam(f.yearRange, true)
    else if key == "yearEnd" then BoundParam(f.yearRange, false)
    else if key == "scoreStart" then BoundParam(f.score, true)
    else if key == "scoreEnd" then BoundParam(f.score, false)
    else None
  }

  /** The URL after the sync effect: unmanaged keys as they were, managed keys as the filters dictate. */
  function SyncedQuery(f: Filters, start: Params): (q: Params)
    ensures forall k :: k !in ManagedKeys ==> (k in q <==> k in start) && (k in start ==> q[k] == start[k])
    ensures forall k :: k in ManagedKeys ==> Get(q, k) == SyncedValue(f, k)
  {
    var kept := map k | k in start && k !in ManagedKeys :: start[k];
    var set_ := map k | k in ManagedKeys && SyncedValue(f, k).Some? :: SyncedValue(f, k).value;
    kept + set_
  }

  /** `query.set(key, v)`. */
  function SetParam(q: Params, key: string, v: string): (r: Params)
    ensures Get(r, key) == Some(v)
    ensures forall k :: k != key ==> (k in r <==> k in q) && (k in q ==> r[k] == q[k])
  {
    q[key := v]
  }

  /** `query.delete(key)`. */
  function DeleteParam(q: Params, key: string): (r: Params)
    ensures Get(r, key) == None
    ensures forall k :: k != key ==> (k in r <==> k in q) && (k in q ==> r[k] == q[k])
  {
    q - {key}
  }

  /** `q` keeps the unmanaged keys of `start` and already holds the synced value of every key in `done`. */
  ghost predicate SyncedSoFar(f: Filters, start: Params, q: Params, done: set<string>) {
    && (forall k :: k !in ManagedKeys ==> (k in q <==> k in start) && (k in start ==> q[k] == start[k]))
    && (forall k :: k in done ==> Get(q, k) == SyncedValue(f, k))
  }

  lemma SyncStep(f: Filters, start: Params, q: Params, q': Params, done: set<string>, key: string)
    requires SyncedSoFar(f, start, q, done) && key in ManagedKeys
    requires Get(q', key) == SyncedValue(f, key)
    requires forall k :: k != key ==> (k in q' <==> k in q) && (k in q ==> q'[k] == q[k])
    ensures SyncedSoFar(f, start, q', done + {key})
  {
  }

  lemma SyncDone(f: Filters, start: Params, q: Params, done: set<string>)
    requires SyncedSoFar(f, start, q, done) && ManagedKeys <= done
    ensures q == SyncedQuery(f, start)
  {
    var expected := SyncedQuery(f, start);
    assert forall k :: k in q <==> k in expected by {
      forall k ensures k in q <==> k in expected {
        if k in ManagedKeys {
          assert Get(q, k) == Get(expected, k);
        }
      }
    }
  }

  /** One block of the sync effect: `isBestNew` holds the best-new flag when set, and is deleted otherwise. */
  method SyncBestNew(f: Filters, query: Params) returns (q: Params)
    ensures Get(q, "isBestNew") == SyncedValue(f, "isBestNew")
    ensures forall k :: k != "isBestNew" ==> (k in q <==> k in query) && (k in query ==> q[k] == query[k])
  {
    if f.isBestNew {
      q := SetParam(query, "isBestNew", "1");
    } else {
      q := DeleteParam(query, "isBestNew");
    }
  }

  /** One block of the sync effect: `genre` holds the genres, comma-joined when set, and is deleted otherwise. */
  method SyncGenre(f: Filters, query: Params) returns (q: Params)
    ensures Get(q, "genre") == SyncedValue(f, "genre")
    ensures forall k :: k != "genre" ==> (k in q <==> k in query) && (k in query ==> q[k] == query[k])
  {
    if |f.genre| > 0 {
      q := SetParam(query, "genre", Join(f.genre, ","));
    } else {
      q := DeleteParam(query, "genre");
    }
  }

  /** One block of the sync effect: `yearStart` holds the first year when set, and is deleted otherwise. */
  method SyncYearStart(f: Filters, query: Params) returns (q: Params)
    ensures Get(q, "yearStart") == SyncedValue(f, "yearStart")
    ensures forall k :: k != "yearStart" ==> (k in q <==> k in query) && (k in query ==> q[k] == query[k])
  {
    if f.yearRange.Some? && Truthy(f.yearRange.value.start) {
      q := SetParam(query, "yearStart", Str(f.yearRange.value.start));
    } else {
      q := DeleteParam(query, "yearStart");
    }
  }

  /** One block of the sync effect: `yearEnd` holds the last year when set, and is deleted otherwise. */
  method SyncYearEnd(f: Filters, query: Params) returns (q: Params)
    ensures Get(q, "yearEnd") == SyncedValue(f, "yearEnd")
    ensures forall k :: k != "yearEnd" ==> (k in q <==> k in query) && (k in query ==> q[k] == query[k])
  {
    if f.yearRange.Some? && Truthy(f.yearRange.value.end) {
      q := SetParam(query, "yearEnd", Str(f.yearRange.value.end));
    } else {
      q := DeleteParam(query, "yearEnd");
    }
  }

  /** One block of the sync effect: `scoreStart` holds the lowest score when set, and is deleted otherwise. */
  method SyncScoreStart(f: Filters, query: Params) returns (q: Params)
    ensures Get(q, "scoreStart") == SyncedValue(f, "scoreStart")
    ensures forall k :: k != "scoreStart" ==> (k in q <==> k in query) && (k in query ==> q[k] == query[k])
  {
    if f.score.Some? && Truthy(f.score.value.start) {
      q := SetParam(query, "scoreStart", Str(f.score.value.start));
    } else {
      q := DeleteParam(query, "scoreStart");
    }
  }

  /** One block of the sync effect: `scoreEnd` holds the highest score when set, and is deleted otherwise. */
  method SyncScoreEnd(f: Filters, query: Params) returns (q: Params)
    ensures Get(q, "scoreEnd") == SyncedValue(f, "scoreEnd")
    ensures forall k :: k != "scoreEnd" ==> (k in q <==> k in query) && (k in query ==> q[k] == query[k])
  {
    if f.score.Some? && Truthy(f.score.value.end) {
      q := SetParam(query, "scoreEnd", Str(f.score.value.end));
    } else {
      q := DeleteParam(query, "scoreEnd");
    }
  }

  /**
   * The URL sync effect: starting from the current query string, set each
   * managed key whose filter value is truthy and delete the others, then ask
   * the router to navigate when the query string changed.
   */
  method SyncUrl(f: Filters, start: Params) returns (query: Params, navigate: bool)
    ensures query == SyncedQuery(f, start)
    ensures navigate <==> query != start
  {
    ghost var done: set<string> := {};
    query := start;
    ghost var prevBestNew := query;
    query := SyncBestNew(f, query);
    SyncStep(f, start, prevBestNew, query, done, "isBestNew");
    done := done + {"isBestNew"};
    ghost var prevGenre := query;
    query := SyncGenre(f, query);
    SyncStep(f, start, prevGenre, query, done, "genre");
    done := done + {"genre"};
    ghost var prevYearStart := query;
    query := SyncYearStart(f, query);
    SyncStep(f, start, prevYearStart, query, done, "yearStart");
    done := done + {"yearStart"};
    ghost var prevYearEnd := query;
    query := SyncYearEnd(f, query);
    SyncStep(f, start, prevYearEnd, query, done, "yearEnd");
    done := done + {"yearEnd"};
    ghost var prevScoreStart := query;
    query := SyncScoreStart(f, query);
    SyncStep(f, start, prevScoreStart, query, done, "scoreStart");
    done := done + {"scoreStart"};
    ghost var prevScoreEnd := query;
    query := SyncScoreEnd(f, query);
    SyncStep(f, start, prevScoreEnd, query, done, "scoreEnd");
    done := done + {"scoreEnd"};
    SyncDone(f, start, query, done);
    navigate := query != start;
  }

  /** Syncing twice is syncing once: the second run leaves the URL alone and does not navigate. */
  lemma SyncIdempotent(f: Filters, start: Params)
    ensures SyncedQuery(f, SyncedQuery(f, start)) == SyncedQuery(f, start)
  {
    var once := SyncedQuery(f, start);
    var twice := SyncedQuery(f, once);
    assert forall k :: k in twice <==> k in once;
  }

  // ===========================================================================
  // URL parse

  /** A range read from two URL keys: present when either key is truthy; a missing bound takes its default. */
  function ParseRange(query: Params, startKey: string, endKey: string, startDefault: Number, endDefault: Number): Option<Range> {
    if IsSet(query, startKey) || IsSet(query, endKey) then
      Some(Range(
        if IsSet(query, startKey) then Parse(query[startKey]) else startDefault,
        if IsSet(query, endKey) then Parse(query[endKey]) else endDefault))
    else None
  }

  /**
   * The URL parse effect as written: best-new is the value "1", genres are
   * split on commas, and both ranges fall back to the first and current year
   * for a missing bound, the score range included.
   */
  function ParseUrl(query: Params, currentYear: int): Filters {
    Filters(
      genre := if IsSet(query, "genre") then Split(query["genre"], ',') else [],
      isBestNew := Get(query, "isBestNew") == Some("1"),
      yearRange := ParseRange(query, "yearStart", "yearEnd", Whole(FirstYear), Whole(currentYear)),
      score := ParseRange(query, "scoreStart", "scoreEnd", Whole(FirstYear), Whole(currentYear)),
      search := [])
  }

  /** The URL parse with the score range falling back to the score bounds 0 and 10 instead. */
  function ParseUrlFixed(query: Params, currentYear: int): Filters {
    ParseUrl(query, currentYear).(score := ParseRange(query, "scoreStart", "scoreEnd", Whole(MinScore), Whole(MaxScore)))
  }

  /**
   * Filters the URL can carry: no search entries (they are not synced),
   * genre names non-empty and free of commas, year bounds both truthy, and a
   * score range with a numeric start and a truthy end.
   */
  ghost predicate UrlRepresentable(f: Filters) {
    && f.search == []
    && (forall i :: 0 <= i < |f.genre| ==> f.genre[i] != "" && ',' !in f.genre[i])
    && (f.yearRange.Some? ==> Truthy(f.yearRange.value.start) && Truthy(f.yearRange.value.end))
    && (f.score.Some? ==> f.score.value.start.Tenths? && Truthy(f.score.value.end))
  }

  lemma GenreRoundTrip(genre: seq<string>)
    requires forall i :: 0 <= i < |genre| ==> genre[i] != "" && ',' !in genre[i]
    ensures |genre| > 0 ==> Join(genre, ",") != "" && Split(Join(genre, ","), ',') == genre
  {
    if |genre| > 0 {
      JoinStartsWithFirst(genre, ",");
      SplitJoin(genre, ',');
    }
  }

  /** Reloading the synced URL gives the filters back, with the score default corrected. */
  lemma SyncThenParseFixed(f: Filters, start: Params, currentYear: int)
    requires UrlRepresentable(f)
    ensures ParseUrlFixed(SyncedQuery(f, start), currentYear) == f
  {
    var q := SyncedQuery(f, start);
    GenreRoundTrip(f.genre);
    assert Get(q, "genre") == SyncedValue(f, "genre");
    assert Get(q, "isBestNew") == SyncedValue(f, "isBestNew");
    RangeRoundTrip(f.yearRange, q, "yearStart", "yearEnd", Whole(FirstYear), Whole(currentYear));
    RangeRoundTrip(f.score, q, "scoreStart", "scoreEnd", Whole(MinScore), Whole(MaxScore));
  }

  /** A range written by the sync effect reads back as itself when its start is truthy or equals the start default. */
  lemma RangeRoundTrip(range: Option<Range>, q: Params, startKey: string, endKey: string, startDefault: Number, endDefault: Number)
    requires Get(q, startKey) == BoundParam(range, true) && Get(q, endKey) == BoundParam(range, false)
    requires range.Some? ==> Truthy(range.value.end)
    requires range.Some? ==> Truthy(range.value.start) || range.value.start == startDefault
    ensures ParseRange(q, startKey, endKey, startDefault, endDefault) == range
  {
    if range.Some? {
      ParseStr(range.value.end);
      ParseStr(range.value.start);
    }
  }

  /** As written, the same round trip holds whenever the score range does not start at 0. */
  lemma SyncThenParse(f: Filters, start: Params, currentYear: int)
    requires UrlRepresentable(f)
    requires f.score.Some? ==> Truthy(f.score.value.start)
    ensures ParseUrl(SyncedQuery(f, start), currentYear) == f
  {
    var q := SyncedQuery(f, start);
    GenreRoundTrip(f.genre);
    assert Get(q, "genre") == SyncedValue(f, "genre");
    assert Get(q, "isBestNew") == SyncedValue(f, "isBestNew");
    RangeRoundTrip(f.yearRange, q, "yearStart", "yearEnd", Whole(FirstYear), Whole(currentYear));
    RangeRoundTrip(f.score, q, "scoreStart", "scoreEnd", Whole(FirstYear), Whole(currentYear));
  }

  /** As written, a score range from 0 to 8 comes back from the URL as 1999 to 8. */
  lemma ScoreFromZeroReloadsFrom1999(start: Params, currentYear: int)
    ensures var f := NoFilters.(score := Some(Range(Whole(0), Whole(8))));
            ParseUrl(SyncedQuery(f, start), currentYear).score == Some(Range(Whole(1999), Whole(8)))
  {
    var f := NoFilters.(score := Some(Range(Whole(0), Whole(8))));
    var q := SyncedQuery(f, start);
    assert Get(q, "scoreStart") == None;
    assert Get(q, "scoreEnd") == Some(Str(Whole(8)));
    ParseStr(Whole(8));
  }
}
