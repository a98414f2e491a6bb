/**
 * `pages/api/search.ts`: the artist and label search behind the grid's search
 * box. The pool is every artist tagged as such followed by every label; the
 * entries whose lower-cased name contains the lower-cased query are ranked
 * by their similarity to the query, highest first, by a stable sort. The
 * similarity measure (`compareTwoStrings`) is a parameter.
 */
module Search {
  import opened Text
  import opened GridFilter

  /** An entry of the artist or label lists. */
  datatype Named = Named(id: int, name: string)

  /** Each entry with its `type`. */
  function Tagged(entries: seq<Named>, kind: SearchKind): (r: seq<SearchResult>)
    ensures |r| == |entries|
    ensures forall i :: 0 <= i < |entries| ==> r[i] == SearchResult(entries[i].id, entries[i].name, kind)
  {
    seq(|entries|, i requires 0 <= i < |entries| => SearchResult(entries[i].id, entries[i].name, kind))
  }

  /** `allData`: the artists, then the labels. */
  function Pool(artists: seq<Named>, labels: seq<Named>): seq<SearchResult> {
    Tagged(artists, Artist) + Tagged(labels, Label)
  }

  /** The filter: the lower-cased name includes the lower-cased query. */
  predicate Matches(query: string, e: SearchResult) {
    Contains(Lower(e.name), Lower(query))
  }

  /** The pool entries that match, in pool order. */
  function Filter(pool: seq<SearchResult>, query: string): (r: seq<SearchResult>)
    ensures |r| <= |pool|
    ensures forall x :: x in r <==> x in pool && Matches(query, x)
    decreases |pool|
  {
    if pool == [] then []
    else if Matches(query, pool[0]) then [pool[0]] + Filter(pool[1..], query)
    else Filter(pool[1..], query)
  }

  /** The ranking key of an entry: its similarity to the lower-cased query. */
  function Score(similarity: (string, string) -> real, query: string, e: SearchResult): real {
    similarity(Lower(query), Lower(e.name))
  }

  /** Non-increasing by `key`. */
  ghost predicate Descending(s: seq<SearchResult>, key: SearchResult -> real) {
    forall i, j :: 0 <= i < j < |s| ==> key(s[i]) >= key(s[j])
  }

  /** Places `x` before the first element whose key is not above its own. */
  function Insert(x: SearchResult, s: seq<SearchResult>, key: SearchResult -> real): (r: seq<SearchResult>)
    ensures multiset(r) == multiset(s) + multiset{x}
    decreases |s|
  {
    if s == [] || key(s[0]) <= key(x) then [x] + s
    else
      assert s == [s[0]] + s[1..];
      [s[0]] + Insert(x, s[1..], key)
  }

  lemma {:induction false} InsertDescending(x: SearchResult, s: seq<SearchResult>, key: SearchResult -> real)
    requires Descending(s, key)
    ensures Descending(Insert(x, s, key), key)
    decreases |s|
  {
    if s != [] && key(s[0]) > key(x) {
      var rest := Insert(x, s[1..], key);
      InsertDescending(x, s[1..], key);
      assert forall y :: y in rest ==> key(s[0]) >= key(y) by {
        InsertBelowHead(x, s, key);
      }
      ConsDescending(s[0], rest, key);
    }
  }

  /** Below a head whose key exceeds `x`'s, every element of the insertion into the tail has a key no higher than the head's. */
  lemma InsertBelowHead(x: SearchResult, s: seq<SearchResult>, key: SearchResult -> real)
    requires Descending(s, key) && s != [] && key(s[0]) > key(x)
    ensures forall y :: y in Insert(x, s[1..], key) ==> key(s[0]) >= key(y)
  {
    var rest := Insert(x, s[1..], key);
    forall y | y in rest ensures key(s[0]) >= key(y) {
      assert y in multiset(rest);
      if y != x {
        assert y in multiset(s[1..]);
        var j :| 0 <= j < |s[1..]| && s[1..][j] == y;
        assert s[j + 1] == y;
      }
    }
  }

  lemma ConsDescending(h: SearchResult, t: seq<SearchResult>, key: SearchResult -> real)
    requires Descending(t, key) && forall y :: y in t ==> key(h) >= key(y)
    ensures Descending([h] + t, key)
  {
    var r := [h] + t;
    forall i, j | 0 <= i < j < |r| ensures key(r[i]) >= key(r[j]) {
      if i == 0 {
        assert r[j] in t;
      } else {
        assert r[i] == t[i - 1] && r[j] == t[j - 1];
      }
    }
  }

  /** `sort(([a], [b]) => b - a)`: a stable sort by descending key, as an insertion sort. */
  function SortDescending(s: seq<SearchResult>, key: SearchResult -> real): (r: seq<SearchResult>)
    ensures multiset(r) == multiset(s)
    decreases |s|
  {
    if s == [] then []
    else
      assert s == [s[0]] + s[1..];
      Insert(s[0], SortDescending(s[1..], key), key)
  }

  lemma {:induction false} SortDescendingOrders(s: seq<SearchResult>, key: SearchResult -> real)
    ensures Descending(SortDescending(s, key), key)
    decreases |s|
  {
    if s != [] {
      SortDescendingOrders(s[1..], key);
      InsertDescending(s[0], SortDescending(s[1..], key), key);
    }
  }

  /** The handler's result for a query. */
  function SearchPool(similarity: (string, string) -> real, artists: seq<Named>, labels: seq<Named>,
                      query: string): seq<SearchResult>
  {
    SortDescending(Filter(Pool(artists, labels), query), e => Score(similarity, query, e))
  }

  // ---------------------------------------------------------------------------
  // properties

  /** Exactly the matching pool entries are returned. */
  lemma SearchExact(similarity: (string, string) -> real, artists: seq<Named>, labels: seq<Named>,
                    query: string, x: SearchResult)
    ensures x in SearchPool(similarity, artists, labels, query) <==> x in Pool(artists, labels) && Matches(query, x)
  {
    var filtered := Filter(Pool(artists, labels), query);
    var r := SearchPool(similarity, artists, labels, query);
    assert x in r <==> x in multiset(r);
    assert x in filtered <==> x in multiset(filtered);
  }

  /** Each match is returned as often as the filter yields it, highest similarity first. */
  lemma SearchRanked(similarity: (string, string) -> real, artists: seq<Named>, labels: seq<Named>, query: string)
    ensures multiset(SearchPool(similarity, artists, labels, query)) == multiset(Filter(Pool(artists, labels), query))
    ensures var r := SearchPool(similarity, artists, labels, query);
            forall i, j :: 0 <= i < j < |r| ==> Score(similarity, query, r[i]) >= Score(similarity, query, r[j])
  {
    var key := e => Score(similarity, query, e);
    SortDescendingOrders(Filter(Pool(artists, labels), query), key);
  }

  /** An empty query matches every entry: the result ranks the whole pool. */
  lemma EmptyQueryMatchesAll(similarity: (string, string) -> real, artists: seq<Named>, labels: seq<Named>)
    ensures Filter(Pool(artists, labels), "") == Pool(artists, labels)
    ensures multiset(SearchPool(similarity, artists, labels, "")) == multiset(Pool(artists, labels))
  {
    EmptyMatchesAll(Pool(artists, labels));
  }

  lemma {:induction false} EmptyMatchesAll(pool: seq<SearchResult>)
    ensures Filter(pool, "") == pool
    decreases |pool|
  {
    if pool != [] {
      assert OccursAt(Lower(pool[0].name), Lower(""), 0);
      EmptyMatchesAll(pool[1..]);
      assert pool == [pool[0]] + pool[1..];
    }
  }

  // ---------------------------------------------------------------------------
  // stability: artists before labels among equal scores

  /** The elements whose key is `k`, in order. */
  function WithKey(s: seq<SearchResult>, key: SearchResult -> real, k: real): (r: seq<SearchResult>)
    decreases |s|
  {
    if s == [] then []
    else if key(s[0]) == k then [s[0]] + WithKey(s[1..], key, k)
    else WithKey(s[1..], key, k)
  }

  lemma {:induction false} WithKeyInsert(x: SearchResult, s: seq<SearchResult>, key: SearchResult -> real, k: real)
    ensures WithKey(Insert(x, s, key), key, k) == if key(x) == k then [x] + WithKey(s, key, k) else WithKey(s, key, k)
    decreases |s|
  {
    if s == [] || key(s[0]) <= key(x) {
      assert Insert(x, s, key) == [x] + s;
      assert ([x] + s)[1..] == s;
    } else {
      var rest := Insert(x, s[1..], key);
      assert Insert(x, s, key) == [s[0]] + rest;
      assert ([s[0]] + rest)[1..] == rest;
      WithKeyInsert(x, s[1..], key, k);
    }
  }

  /** The sort is stable: the elements of any one key keep their order. */
  lemma {:induction false} SortStable(s: seq<SearchResult>, key: SearchResult -> real, k: real)
    ensures WithKey(SortDescending(s, key), key, k) == WithKey(s, key, k)
    decreases |s|
  {
    if s != [] {
      SortStable(s[1..], key, k);
      WithKeyInsert(s[0], SortDescending(s[1..], key), key, k);
    }
  }

  /** No label comes before an artist. */
  ghost predicate ArtistsFirst(s: seq<SearchResult>) {
    forall i, j :: 0 <= i < j < |s| && s[i].kind == Label ==> s[j].kind == Label
  }

  lemma PoolArtistsFirst(artists: seq<Named>, labels: seq<Named>)
    ensures ArtistsFirst(Pool(artists, labels))
  {
    var a := Tagged(artists, Artist);
    var p := Pool(artists, labels);
    forall i, j | 0 <= i < j < |p| && p[i].kind == Label ensures p[j].kind == Label {
      assert i >= |a|;
    }
  }

  lemma {:induction false} FilterArtistsFirst(pool: seq<SearchResult>, query: string)
    requires ArtistsFirst(pool)
    ensures ArtistsFirst(Filter(pool, query))
    decreases |pool|
  {
    if pool != [] {
      var rest := Filter(pool[1..], query);
      assert ArtistsFirst(pool[1..]) by {
        forall i, j | 0 <= i < j < |pool[1..]| && pool[1..][i].kind == Label ensures pool[1..][j].kind == Label {
          assert pool[1..][i] == pool[i + 1] && pool[1..][j] == pool[j + 1];
        }
      }
      FilterArtistsFirst(pool[1..], query);
      if Matches(query, pool[0]) && pool[0].kind == Label {
        forall y | y in rest ensures y.kind == Label {
          var j :| 0 <= j < |pool[1..]| && pool[1..][j] == y;
          assert pool[j + 1] == y;
        }
      }
    }
  }

  lemma {:induction false} WithKeyArtistsFirst(s: seq<SearchResult>, key: SearchResult -> real, k: real)
    requires ArtistsFirst(s)
    ensures ArtistsFirst(WithKey(s, key, k))
    ensures forall y :: y in WithKey(s, key, k) ==> y in s
    decreases |s|
  {
    if s != [] {
      var rest := WithKey(s[1..], key, k);
      assert ArtistsFirst(s[1..]) by {
        forall i, j | 0 <= i < j < |s[1..]| && s[1..][i].kind == Label ensures s[1..][j].kind == Label {
          assert s[1..][i] == s[i + 1] && s[1..][j] == s[j + 1];
        }
      }
      WithKeyArtistsFirst(s[1..], key, k);
      if key(s[0]) == k && s[0].kind == Label {
        forall y | y in rest ensures y.kind == Label {
          var j :| 0 <= j < |s[1..]| && s[1..][j] == y;
          assert s[j + 1] == y;
        }
      }
    }
  }

  /** Among results of equal similarity, artists come before labels, as in the pool. */
  lemma EqualScoresArtistsFirst(similarity: (string, string) -> real, artists: seq<Named>, labels: seq<Named>,
                                query: string, k: real)
    ensures ArtistsFirst(WithKey(SearchPool(similarity, artists, labels, query), e => Score(similarity, query, e), k))
  {
    var key := e => Score(similarity, query, e);
    var filtered := Filter(Pool(artists, labels), query);
    PoolArtistsFirst(artists, labels);
    FilterArtistsFirst(Pool(artists, labels), query);
    SortStable(filtered, key, k);
    WithKeyArtistsFirst(filtered, key, k);
  }
}
