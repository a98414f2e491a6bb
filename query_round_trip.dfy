/**
 * The review grid's request (`components/ReviewGrid.tsx`) read back by the API
 * (`utils/gridFilterQuery.ts`): what the server sees of the filter state the
 * browser holds, and when it builds a `where` clause at all.
 */
module QueryRoundTrip {
  import opened Wrappers
  import opened Text
  import opened JsNumber
  import opened UrlParams
  import opened GridFilter
  import opened GridFilterQuery
  import opened ReviewGrid

  /** Each id as the number the server reads back. */
  function Wholes(ids: seq<int>): (r: seq<Number>)
    ensures |r| == |ids|
    ensures forall i :: 0 <= i < |ids| ==> r[i] == Whole(ids[i])
    decreases |ids|
  {
    if ids == [] then [] else [Whole(ids[0])] + Wholes(ids[1..])
  }

  /**
   * What the API parse yields for the request built from `f`: the genres and
   * each id list when non-empty, `isBestNew` only when on, both ranges exactly.
   */
  function Received(f: Filters): GridFilterParams {
    var artists := IdsOf(f.search, Artist);
    var labels := IdsOf(f.search, Label);
    GridFilterParams(
      genre := if |f.genre| > 0 then Some(f.genre) else None,
      artists := if |artists| > 0 then Some(Wholes(artists)) else None,
      labels := if |labels| > 0 then Some(Wholes(labels)) else None,
      isBestNew := if f.isBestNew then Some(true) else None,
      yearRange := f.yearRange,
      score := f.score)
  }

  /** Genre names that survive a comma join and split. */
  ghost predicate PlainGenres(genre: seq<string>) {
    forall i :: 0 <= i < |genre| ==> genre[i] != "" && ',' !in genre[i]
  }

  /** `String(n)` never holds a comma. */
  lemma StrNoComma(n: Number)
    ensures ',' !in Str(n)
  {
    match n
    case NaN =>
    case Tenths(t) =>
      var u: nat := if t < 0 then -t else t;
      var digits := Show(u / 10);
      assert forall i :: 0 <= i < |digits| ==> digits[i] != ',';
      if u % 10 != 0 {
        assert ShowTenths(u) == digits + "." + [DigitChar(u % 10)];
        assert IsDigit(DigitChar(u % 10));
      }
  }

  /** A non-empty id list is sent as a non-empty string that splits and parses back to the ids. */
  lemma IdListRoundTrip(ids: seq<int>)
    requires |ids| > 0
    ensures IdList(ids) != "" && Numbers(IdList(ids)) == Wholes(ids)
  {
    var shown := Shown(ids);
    forall i | 0 <= i < |shown| ensures ',' !in shown[i] {
      StrNoComma(Whole(ids[i]));
    }
    SplitJoin(shown, ',');
    JoinStartsWithFirst(shown, ",");
    var pieces := Split(IdList(ids), ',');
    assert pieces == shown;
    forall i | 0 <= i < |ids| ensures Numbers(IdList(ids))[i] == Wholes(ids)[i] {
      ParseStr(Whole(ids[i]));
    }
  }

  /** The value the request carries under a name, as `RequestParamsValues` states it for each key. */
  lemma Carried(pp: Option<PageParam>, filters: Option<Filters>, k: RequestKey)
    ensures Get(RequestParams(pp, filters), Name(k)) == RequestValue(pp, filters, k)
  {
    RequestParamsValues(pp, filters);
  }

  /** A range sent by the grid is read back unchanged, since `String(n)` is never empty. */
  lemma RangeReceived(q: Params, startKey: string, endKey: string, r: Option<Range>)
    requires r.Some? ==> Get(q, startKey) == Some(Str(r.value.start)) && Get(q, endKey) == Some(Str(r.value.end))
    requires r.None? ==> startKey !in q
    ensures RangeParam(q, startKey, endKey) == r
  {
    if r.Some? {
      ParseStr(r.value.start);
      ParseStr(r.value.end);
    }
  }

  /** The genre list is read back when non-empty. */
  lemma GenreReceived(pp: Option<PageParam>, f: Filters)
    requires PlainGenres(f.genre)
    ensures ParseGridFilterQuery(RequestParams(pp, Some(f))).genre == Received(f).genre
  {
    Carried(pp, Some(f), GenreKey);
    GenreRoundTrip(f.genre);
  }

  /** An id list sent under `key` when non-empty is read back as numbers. */
  lemma IdListReceived(q: Params, key: string, ids: seq<int>)
    requires Get(q, key) == (if |ids| > 0 then Some(IdList(ids)) else None)
    ensures (if IsSet(q, key) then Some(Numbers(q[key])) else None) == (if |ids| > 0 then Some(Wholes(ids)) else None)
  {
    if |ids| > 0 {
      IdListRoundTrip(ids);
    }
  }

  /** Each id list of the search pills is read back when non-empty. */
  lemma IdsReceived(pp: Option<PageParam>, f: Filters)
    ensures ParseGridFilterQuery(RequestParams(pp, Some(f))).artists == Received(f).artists
    ensures ParseGridFilterQuery(RequestParams(pp, Some(f))).labels == Received(f).labels
  {
    var q := RequestParams(pp, Some(f));
    Carried(pp, Some(f), ArtistsKey);
    Carried(pp, Some(f), LabelsKey);
    IdListReceived(q, "artists", IdsOf(f.search, Artist));
    IdListReceived(q, "labels", IdsOf(f.search, Label));
  }

  /** Both ranges are read back exactly. */
  lemma RangesReceived(pp: Option<PageParam>, f: Filters)
    ensures ParseGridFilterQuery(RequestParams(pp, Some(f))).yearRange == f.yearRange
    ensures ParseGridFilterQuery(RequestParams(pp, Some(f))).score == f.score
  {
    var q := RequestParams(pp, Some(f));
    Carried(pp, Some(f), YearStartKey);
    Carried(pp, Some(f), YearEndKey);
    Carried(pp, Some(f), ScoreStartKey);
    Carried(pp, Some(f), ScoreEndKey);
    RangeReceived(q, "yearStart", "yearEnd", f.yearRange);
    RangeReceived(q, "scoreStart", "scoreEnd", f.score);
  }

  /**
   * Whatever the page parameter, the API reads back from the grid's request
   * the filters it was built from, genre names containing no comma.
   */
  lemma RequestThenParse(pp: Option<PageParam>, f: Filters)
    requires PlainGenres(f.genre)
    ensures ParseGridFilterQuery(RequestParams(pp, Some(f))) == Received(f)
  {
    GenreReceived(pp, f);
    IdsReceived(pp, f);
    RangesReceived(pp, f);
    Carried(pp, Some(f), BestNewKey);
  }

  /** Without filters the request holds at most the page parameter, and the API reads no filter. */
  lemma NoFiltersParseEmpty(pp: Option<PageParam>)
    ensures ParseGridFilterQuery(RequestParams(pp, None)) == GridFilterParams(None, None, None, None, None, None)
  {
    Carried(pp, None, GenreKey);
    Carried(pp, None, BestNewKey);
    Carried(pp, None, YearStartKey);
    Carried(pp, None, ScoreStartKey);
    Carried(pp, None, ArtistsKey);
    Carried(pp, None, LabelsKey);
  }

  /**
   * The server builds no `where` clause for the grid's request exactly when
   * `hasActiveFilters` is false in the browser.
   */
  lemma WhereIffActive(pp: Option<PageParam>, f: Filters)
    requires PlainGenres(f.genre)
    ensures GridFilterWhere(ParseGridFilterQuery(RequestParams(pp, Some(f)))).None? <==> !HasActiveFilters(f)
  {
    RequestThenParse(pp, f);
    IdsPartition(f.search);
    var p := ParseGridFilterQuery(RequestParams(pp, Some(f)));
    assert ClauseFor(p, Genres).None? <==> f.genre == [];
    assert ClauseFor(p, IsBestNewKey).None? <==> !f.isBestNew;
    assert ClauseFor(p, PublishDate).None? <==> f.yearRange.None?;
    assert ClauseFor(p, ScoreKey).None? <==> f.score.None?;
    assert ClauseFor(p, Artists).None? && ClauseFor(p, Labels).None? <==> f.search == [];
  }
}
