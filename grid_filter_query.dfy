/**
 * The API side of the review filters (`utils/gridFilterQuery.ts`): reading the
 * filter parameters off the request's query string, and building the database
 * `where` clause from them, one optional clause per filter.
 *
 * The meaning of a clause is given by `Satisfies` on a stored review row, so that
 * the boundaries of the year and score windows can be stated.
 */
module GridFilterQuery {
  import opened Wrappers
  import opened Text
  import opened JsNumber
  import opened UrlParams
  import opened GridFilter

  /** `GridFilterParams`: every filter optional; search entries arrive as id lists. */
  datatype GridFilterParams = GridFilterParams(
    genre: Option<seq<string>>,
    artists: Option<seq<Number>>,
    labels: Option<seq<Number>>,
    isBestNew: Option<bool>,
    yearRange: Option<Range>,
    score: Option<Range>)

  /** `Number(query[key])`: a missing key is `Number(undefined)`, which is NaN. */
  function NumberParam(q: Params, key: string): (n: Number)
    ensures key !in q ==> n == NaN
  {
    if key in q then Parse(q[key]) else NaN
  }

  /** `s.split(",").map(Number)`. */
  function Numbers(s: string): (r: seq<Number>)
    ensures |r| == |Split(s, ',')|
    ensures forall i :: 0 <= i < |r| ==> r[i] == Parse(Split(s, ',')[i])
  {
    var pieces := Split(s, ',');
    seq(|pieces|, i requires 0 <= i < |pieces| => Parse(pieces[i]))
  }

  /** A range read from the query: present when the start key is truthy; the end is read whether set or not. */
  function RangeParam(q: Params, startKey: string, endKey: string): Option<Range> {
    if IsSet(q, startKey) then Some(Range(Parse(q[startKey]), NumberParam(q, endKey))) else None
  }

  /** `parseGridFilterQuery`. */
  function ParseGridFilterQuery(q: Params): (p: GridFilterParams)
    ensures p.isBestNew != Some(false)
    ensures p.genre.Some? ==> |p.genre.value| >= 1
    ensures p.artists.Some? ==> |p.artists.value| >= 1
    ensures p.labels.Some? ==> |p.labels.value| >= 1
  {
    GridFilterParams(
      genre := if IsSet(q, "genre") then Some(Split(q["genre"], ',')) else None,
      artists := if IsSet(q, "artists") then Some(Numbers(q["artists"])) else None,
      labels := if IsSet(q, "labels") then Some(Numbers(q["labels"])) else None,
      isBestNew := if Get(q, "isBestNew") == Some("1") then Some(true) else None,
      yearRange := RangeParam(q, "yearStart", "yearEnd"),
      score := RangeParam(q, "scoreStart", "scoreEnd"))
  }

  /** A year window's end bound is `new Date(String(Number(end) + 1))`. */
  function YearAfter(end: Number): (r: Number)
    ensures end.Tenths? ==> r == Tenths(end.tenths + 10)
    ensures end.NaN? ==> r == NaN
  {
    Add(end, Whole(1))
  }

  // ===========================================================================
  // where clauses

  datatype Clause =
    | GenresIn(names: seq<string>)
    | IsBestNewTrue
    | PublishedWithin(after: Number, through: Number)
    | ScoreWithin(gte: Number, lte: Number)
    | ArtistsIn(ids: seq<Number>)
    | LabelsIn(ids: seq<Number>)

  /** The property names of the where object. */
  datatype WhereKey = Genres | IsBestNewKey | PublishDate | ScoreKey | Artists | Labels

  type Where = map<WhereKey, Clause>

  const WhereKeys: set<WhereKey> := {Genres, IsBestNewKey, PublishDate, ScoreKey, Artists, Labels}

  /** The clause one `if` of `buildGridFilterWhere` contributes under its key, or `None` when its test is falsy. */
  function ClauseFor(p: GridFilterParams, key: WhereKey): Option<Clause> {
    match key
    case Genres => if p.genre.Some? then Some(GenresIn(p.genre.value)) else None
    case IsBestNewKey => if p.isBestNew == Some(true) then Some(IsBestNewTrue) else None
    case PublishDate =>
      if p.yearRange.Some? then Some(PublishedWithin(p.yearRange.value.start, YearAfter(p.yearRange.value.end))) else None
    case ScoreKey => if p.score.Some? then Some(ScoreWithin(p.score.value.start, p.score.value.end)) else None
    case Artists => if p.artists.Some? then Some(ArtistsIn(p.artists.value)) else None
    case Labels => if p.labels.Some? then Some(LabelsIn(p.labels.value)) else None
  }

  /** The where object after the `if`s of the keys in `done`: their clauses, or undefined when none applied. */
  function Built(p: GridFilterParams, done: set<WhereKey>): (r: Option<Where>)
    ensures r.None? <==> forall k :: k in done ==> ClauseFor(p, k).None?
    ensures r.Some? ==> forall k :: (k in r.value <==> k in done && ClauseFor(p, k).Some?)
                                    && (k in r.value ==> Some(r.value[k]) == ClauseFor(p, k))
  {
    var w := map k | k in done && ClauseFor(p, k).Some? :: ClauseFor(p, k).value;
    if w == map[] then
      assert forall k :: k in done ==> k !in w;
      None
    else
      Some(w)
  }

  /** The where clause: one entry per filter whose test passes, or undefined when none does. */
  function GridFilterWhere(p: GridFilterParams): (r: Option<Where>)
    ensures r.None? <==> forall k :: k in WhereKeys ==> ClauseFor(p, k).None?
    ensures r.Some? ==> forall k :: (k in r.value <==> k in WhereKeys && ClauseFor(p, k).Some?)
                                    && (k in r.value ==> Some(r.value[k]) == ClauseFor(p, k))
  {
    Built(p, WhereKeys)
  }

  /** `{ ...where, [key]: clause }`: spreading an undefined `where` starts from an empty object. */
  function Spread(where: Option<Where>, key: WhereKey, clause: Clause): (r: Where)
    ensures key in r && r[key] == clause
    ensures forall k :: k != key ==> (k in r <==> where.Some? && k in where.value)
                                     && (k in r ==> r[k] == where.value[k])
  {
    (if where.Some? then where.value else map[])[key := clause]
  }

  /** One more `if`: its clause, when it has one, is spread over the object built so far. */
  lemma BuildStep(p: GridFilterParams, done: set<WhereKey>, key: WhereKey)
    ensures ClauseFor(p, key).None? ==> Built(p, done + {key}) == Built(p, done)
    ensures ClauseFor(p, key).Some? ==> Built(p, done + {key}) == Some(Spread(Built(p, done), key, ClauseFor(p, key).value))
  {
    var before := Built(p, done);
    var after := Built(p, done + {key});
    if ClauseFor(p, key).None? {
      if after.Some? {
        assert before.Some?;
        assert forall k :: k in after.value <==> k in before.value;
        assert forall k :: k in after.value ==> after.value[k] == before.value[k];
        assert after.value == before.value;
      }
    } else {
      var s := Spread(before, key, ClauseFor(p, key).value);
      assert after.Some?;
      assert forall k :: k in after.value <==> k in s;
      assert forall k :: k in after.value ==> after.value[k] == s[k];
      assert after.value == s;
    }
  }

  /** The `if` for genres: the object built so far, with its clause spread over it when the test passes. */
  method WhereGenre(p: GridFilterParams, where: Option<Where>, ghost done: set<WhereKey>) returns (where': Option<Where>)
    requires where == Built(p, done)
    ensures where' == Built(p, done + {Genres})
  {
    BuildStep(p, done, Genres);
    where' := where;
    if p.genre.Some? {
      where' := Some(Spread(where, Genres, GenresIn(p.genre.value)));
    }
  }

  /** The `if` for the best-new flag: the object built so far, with its clause spread over it when the test passes. */
  method WhereBestNew(p: GridFilterParams, where: Option<Where>, ghost done: set<WhereKey>) returns (where': Option<Where>)
    requires where == Built(p, done)
    ensures where' == Built(p, done + {IsBestNewKey})
  {
    BuildStep(p, done, IsBestNewKey);
    where' := where;
    if p.isBestNew == Some(true) {
      where' := Some(Spread(where, IsBestNewKey, IsBestNewTrue));
    }
  }

  /** The `if` for the year range: the object built so far, with its clause spread over it when the test passes. */
  method WherePublishDate(p: GridFilterParams, where: Option<Where>, ghost done: set<WhereKey>) returns (where': Option<Where>)
    requires where == Built(p, done)
    ensures where' == Built(p, done + {PublishDate})
  {
    BuildStep(p, done, PublishDate);
    where' := where;
    if p.yearRange.Some? {
      where' := Some(Spread(where, PublishDate, PublishedWithin(p.yearRange.value.start, YearAfter(p.yearRange.value.end))));
    }
  }

  /** The `if` for the score range: the object built so far, with its clause spread over it when the test passes. */
  method WhereScore(p: GridFilterParams, where: Option<Where>, ghost done: set<WhereKey>) returns (where': Option<Where>)
    requires where == Built(p, done)
    ensures where' == Built(p, done + {ScoreKey})
  {
    BuildStep(p, done, ScoreKey);
    where' := where;
    if p.score.Some? {
      where' := Some(Spread(where, ScoreKey, ScoreWithin(p.score.value.start, p.score.value.end)));
    }
  }

  /** The `if` for the artist ids: the object built so far, with its clause spread over it when the test passes. */
  method WhereArtists(p: GridFilterParams, where: Option<Where>, ghost done: set<WhereKey>) returns (where': Option<Where>)
    requires where == Built(p, done)
    ensures where' == Built(p, done + {Artists})
  {
    BuildStep(p, done, Artists);
    where' := where;
    if p.artists.Some? {
      where' := Some(Spread(where, Artists, ArtistsIn(p.artists.value)));
    }
  }

  /** The `if` for the label ids: the object built so far, with its clause spread over it when the test passes. */
  method WhereLabels(p: GridFilterParams, where: Option<Where>, ghost done: set<WhereKey>) returns (where': Option<Where>)
    requires where == Built(p, done)
    ensures where' == Built(p, done + {Labels})
  {
    BuildStep(p, done, Labels);
    where' := where;
    if p.labels.Some? {
      where' := Some(Spread(where, Labels, LabelsIn(p.labels.value)));
    }
  }

  /**
   * `buildGridFilterWhere`: six `if`s in turn, each spreading the clause built so
   * far and adding its own key.
   */
  method BuildGridFilterWhere(p: GridFilterParams) returns (where: Option<Where>)
    ensures where == GridFilterWhere(p)
  {
    ghost var done: set<WhereKey> := {};
    where := None;
    assert where == Built(p, done);
    where := WhereGenre(p, where, done);
    done := done + {Genres};
    where := WhereBestNew(p, where, done);
    done := done + {IsBestNewKey};
    where := WherePublishDate(p, where, done);
    done := done + {PublishDate};
    where := WhereScore(p, where, done);
    done := done + {ScoreKey};
    where := WhereArtists(p, where, done);
    done := done + {Artists};
    where := WhereLabels(p, where, done);
    done := done + {Labels};
    AllWhereKeys(done);
  }

  /** A set holding every key is the set of all keys. */
  lemma AllWhereKeys(done: set<WhereKey>)
    requires Genres in done && IsBestNewKey in done && PublishDate in done
    requires ScoreKey in done && Artists in done && Labels in done
    ensures done == WhereKeys
  {
    forall k: WhereKey ensures k in done && k in WhereKeys {
      match k
      case Genres =>
      case IsBestNewKey =>
      case PublishDate =>
      case ScoreKey =>
      case Artists =>
      case Labels =>
    }
  }

  /** Each where key is present exactly when its query parameter is set; with none set the clause is undefined. */
  lemma WhereKeysFollowQuery(q: Params)
    ensures var w := GridFilterWhere(ParseGridFilterQuery(q));
            && (w.None? <==> !IsSet(q, "genre") && Get(q, "isBestNew") != Some("1") && !IsSet(q, "yearStart")
                             && !IsSet(q, "scoreStart") && !IsSet(q, "artists") && !IsSet(q, "labels"))
            && (w.Some? ==> (Genres in w.value <==> IsSet(q, "genre"))
                            && (IsBestNewKey in w.value <==> Get(q, "isBestNew") == Some("1"))
                            && (PublishDate in w.value <==> IsSet(q, "yearStart"))
                            && (ScoreKey in w.value <==> IsSet(q, "scoreStart"))
                            && (Artists in w.value <==> IsSet(q, "artists"))
                            && (Labels in w.value <==> IsSet(q, "labels")))
  {
    var p := ParseGridFilterQuery(q);
    assert ClauseFor(p, Genres).None? <==> !IsSet(q, "genre");
    assert ClauseFor(p, IsBestNewKey).None? <==> Get(q, "isBestNew") != Some("1");
    assert ClauseFor(p, PublishDate).None? <==> !IsSet(q, "yearStart");
    assert ClauseFor(p, ScoreKey).None? <==> !IsSet(q, "scoreStart");
    assert ClauseFor(p, Artists).None? <==> !IsSet(q, "artists");
    assert ClauseFor(p, Labels).None? <==> !IsSet(q, "labels");
  }

  // ===========================================================================
  // what a clause selects

  /** A moment as a year and the time elapsed since its first instant. */
  datatype Instant = Instant(year: int, sinceNewYear: nat)

  /** Strictly before, by year and then by time into the year. */
  predicate Before(a: Instant, b: Instant) {
    a.year < b.year || (a.year == b.year && a.sinceNewYear < b.sinceNewYear)
  }

  /** `new Date(String(n))` for a four-digit year is its first instant; other values are an invalid date. */
  function YearStart(n: Number): Option<Instant> {
    if n.Tenths? && n.tenths % 10 == 0 && 1000 <= n.tenths / 10 <= 9999 then Some(Instant(n.tenths / 10, 0)) else None
  }

  /** A stored review as the filters see it; ids and scores in the units of `Number`. */
  datatype ReviewRow = ReviewRow(
    genres: set<string>,
    isBestNew: bool,
    published: Instant,
    score: int,
    artistIds: set<int>,
    labelIds: set<int>)

  predicate InIds(ids: seq<Number>, owned: set<int>) {
    exists i :: 0 <= i < |ids| && ids[i].Tenths? && ids[i].tenths % 10 == 0 && ids[i].tenths / 10 in owned
  }

  /** One clause on one row: an invalid date compares false either way. */
  predicate SatisfiesClause(row: ReviewRow, c: Clause) {
    match c
    case GenresIn(names) => exists g :: g in row.genres && g in names
    case IsBestNewTrue => row.isBestNew
    case PublishedWithin(after, through) =>
      YearStart(after).Some? && YearStart(through).Some?
      && Before(YearStart(after).value, row.published)
      && !Before(YearStart(through).value, row.published)
    case ScoreWithin(gte, lte) => gte.Tenths? && lte.Tenths? && gte.tenths <= row.score <= lte.tenths
    case ArtistsIn(ids) => InIds(ids, row.artistIds)
    case LabelsIn(ids) => InIds(ids, row.labelIds)
  }

  /** A row passes the where clause when it satisfies every clause; an undefined clause passes everything. */
  predicate Satisfies(row: ReviewRow, where: Option<Where>) {
    where.None? || forall k :: k in where.value ==> SatisfiesClause(row, where.value[k])
  }

  /** The score window includes both of its bounds. */
  lemma ScoreWindowInclusive(row: ReviewRow, lo: int, hi: int)
    ensures SatisfiesClause(row, ScoreWithin(Tenths(lo), Tenths(hi))) <==> lo <= row.score <= hi
  {
  }

  /**
   * For whole years `start <= end` from 1000 to 9998, the year window holds every moment of
   * the years `start` to `end` except the first instant of `start`, and also the
   * first instant of `end + 1`.
   */
  lemma YearWindow(row: ReviewRow, start: int, end: int)
    requires 1000 <= start <= end <= 9998
    ensures var c := PublishedWithin(Whole(start), YearAfter(Whole(end)));
            SatisfiesClause(row, c) <==>
              (start < row.published.year <= end
               || (row.published.year == start && row.published.sinceNewYear > 0)
               || row.published == Instant(end + 1, 0))
  {
    assert YearAfter(Whole(end)) == Tenths(10 * (end + 1));
    assert YearStart(Whole(start)) == Some(Instant(start, 0));
    assert YearStart(Tenths(10 * (end + 1))) == Some(Instant(end + 1, 0));
  }

  /** A parsed score window selects exactly the rows scored within its bounds, both included. */
  lemma ScoreParamSelects(q: Params, row: ReviewRow, lo: int, hi: int)
    requires Get(q, "scoreStart") == Some(Str(Tenths(lo))) && Get(q, "scoreEnd") == Some(Str(Tenths(hi)))
    ensures var w := GridFilterWhere(ParseGridFilterQuery(q));
            w.Some? && ScoreKey in w.value && (SatisfiesClause(row, w.value[ScoreKey]) <==> lo <= row.score <= hi)
  {
    ParseStr(Tenths(lo));
    ParseStr(Tenths(hi));
    assert IsSet(q, "scoreStart");
    WhereKeysFollowQuery(q);
  }
}
