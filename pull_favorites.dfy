/**
 * Pulling a user's saved albums (`pages/api/pull-favorites.ts`): the paging
 * loop over the saved-album library, which stops at the album remembered from
 * the previous pull, the de-duplicated upserts of the collected URIs, and the
 * move of that bookmark to the newest album.
 *
 * The library is the user's saved albums, newest first, as URIs; a request at
 * `offset` returns the next (at most) 50 of them. The outcome of successive
 * library requests is an input: `calls[k]` is the error the `k`-th request
 * fails with, or `None`; requests beyond the list succeed.
 */
module PullFavorites {
  import opened Wrappers
  import opened Text
  import opened WebApiError
  import ScrapePitchfork

  /** The page size requested from the library. */
  const PageLimit: nat := 50

  /**
   * The `catch` block of the paging loop: connection resets, 500 and 429 are
   * retried, a 429 after `retry-after` seconds and the others after 30 s;
   * every other error (a time-out included) is rethrown.
   */
  function FavoritesRecovery(e: ApiError): (r: Recovery)
    ensures r.RetryAfter? <==> e.code == "ECONNRESET" || e.statusCode == Some(500) || e.statusCode == Some(429)
    ensures r.RetryAfter? && e.statusCode == Some(429) ==> r.ms == e.retryAfterSeconds * 1000
    ensures r.RetryAfter? && e.statusCode != Some(429) ==> r.ms == 30000
  {
    if e.code == "ECONNRESET" || e.statusCode == Some(500) || e.statusCode == Some(429) then
      if e.statusCode == Some(429) then RetryAfter(RateLimitWaitMs(e)) else RetryAfter(TransientWaitMs)
    else
      Rethrow
  }

  /** The favourites pull and the review scraper treat an error alike, except a bare time-out, which only the scraper retries. */
  lemma RecoveryDiffersOnTimeoutOnly(e: ApiError)
    ensures FavoritesRecovery(e) != ScrapePitchfork.SearchRecovery(e) <==>
              e.code == "ETIMEDOUT" && e.statusCode != Some(500) && e.statusCode != Some(429)
  {
  }

  /** `items.findIndex(uri === target)`: the first index holding `target`, or -1. */
  function FindIndex(items: seq<string>, target: Option<string>): (i: int)
    ensures -1 <= i < |items|
    ensures i >= 0 ==> target == Some(items[i]) && forall j :: 0 <= j < i ==> target != Some(items[j])
    ensures i == -1 ==> forall j :: 0 <= j < |items| ==> target != Some(items[j])
    decreases |items|
  {
    if items == [] then -1
    else if target == Some(items[0]) then 0
    else
      var k := FindIndex(items[1..], target);
      if k == -1 then -1 else k + 1
  }

  /** The page the library returns for `offset`: the next (at most) 50 albums. */
  function SavedPage(library: seq<string>, offset: nat): seq<string> {
    if offset >= |library| then []
    else if offset + PageLimit <= |library| then library[offset..offset + PageLimit]
    else library[offset..]
  }

  /** Where the new albums end: the position of the bookmarked album, or the end of the library. */
  function Cut(library: seq<string>, bookmark: Option<string>): (c: nat)
    ensures c <= |library|
    ensures forall j :: 0 <= j < c ==> bookmark != Some(library[j])
    ensures c < |library| ==> bookmark == Some(library[c])
  {
    var b := FindIndex(library, bookmark);
    if b == -1 then |library| else b
  }

  /** The bookmark's place is its first occurrence: it is also the first occurrence within any window starting at or before it. */
  lemma FindIndexInWindow(library: seq<string>, bookmark: Option<string>, lo: nat, hi: nat)
    requires lo <= hi <= |library| && lo <= Cut(library, bookmark)
    ensures FindIndex(library[lo..hi], bookmark) == if Cut(library, bookmark) < hi then Cut(library, bookmark) - lo else -1
  {
    var c := Cut(library, bookmark);
    var w := library[lo..hi];
    if c < hi {
      assert w[c - lo] == library[c];
    }
  }

  /**
   * How far the loop has got: every album collected so far, counted once, is
   * the library up to `Covered`, which has not passed the bookmark; after the
   * first page the next request starts at the last album already collected.
   */
  ghost predicate Progress(library: seq<string>, bookmark: Option<string>, albums: seq<string>, offset: int) {
    && 0 <= offset
    && (albums == [] ==> offset == 0)
    && (albums != [] ==> offset < |library| && library[offset] in albums)
    && Covered(albums, offset) <= Cut(library, bookmark)
    && Dedupe(albums) == library[..Covered(albums, offset)]
  }

  function Covered(albums: seq<string>, offset: int): int {
    if albums == [] then 0 else offset + 1
  }

  lemma NoDupSlice(s: seq<string>, lo: nat, hi: nat)
    requires NoDup(s) && lo <= hi <= |s|
    ensures NoDup(s[lo..hi])
  {
    var w := s[lo..hi];
    forall i, j | 0 <= i < j < |w|
      ensures w[i] != w[j]
    {
      assert w[i] == s[lo + i] && w[j] == s[lo + j];
    }
  }

  /** Appending the library from `offset` to `m` extends the de-duplicated albums to the library up to `m`. */
  lemma DedupeExtends(library: seq<string>, albums: seq<string>, offset: nat, m: nat)
    requires NoDup(library)
    requires albums == [] ==> offset == 0
    requires Covered(albums, offset) <= m <= |library|
    requires albums != [] ==> offset < m && library[offset] in albums
    requires Dedupe(albums) == library[..Covered(albums, offset)]
    ensures Dedupe(albums + library[offset..m]) == library[..m]
  {
    if albums == [] {
      NoDupSlice(library, 0, m);
      DedupeOfDistinct(library[0..m]);
      assert albums + library[offset..m] == library[..m];
    } else {
      DedupeNextPage(library, albums, offset, m);
    }
  }

  lemma SliceHead(s: seq<string>, lo: nat, hi: nat)
    requires lo < hi <= |s|
    ensures s[lo..hi] == [s[lo]] + s[lo + 1..hi]
  {
  }

  lemma DedupeNextPage(library: seq<string>, albums: seq<string>, offset: nat, m: nat)
    requires NoDup(library) && offset < m <= |library|
    requires library[offset] in albums
    requires Dedupe(albums) == library[..offset + 1]
    ensures Dedupe(albums + library[offset..m]) == library[..m]
  {
    var x := library[offset];
    var newer := library[offset + 1..m];
    SliceHead(library, offset, m);
    assert albums + library[offset..m] == (albums + [x]) + newer;
    DedupeAppendSeen(albums, x);
    NoDupSlice(library, offset + 1, m);
    NewerUnseen(library, albums, offset, m);
    DedupeAppendFresh(albums + [x], newer);
    assert library[..offset + 1] + newer == library[..m];
  }

  /** The albums after position `offset` are not among those collected up to it. */
  lemma NewerUnseen(library: seq<string>, albums: seq<string>, offset: nat, m: nat)
    requires NoDup(library) && offset < m <= |library|
    requires Dedupe(albums) == library[..offset + 1]
    ensures forall y :: y in library[offset + 1..m] ==> y !in albums + [library[offset]]
  {
    forall y | y in library[offset + 1..m]
      ensures y !in albums + [library[offset]]
    {
      var k :| offset + 1 <= k < m && library[k] == y;
    }
  }

  /** The albums a successful request at `offset` contributes: its page, cut just before the bookmarked album. */
  function PageItems(library: seq<string>, bookmark: Option<string>, offset: nat): (items: seq<string>)
    ensures |items| <= PageLimit
    ensures forall x :: x in items ==> x in library
  {
    var page := SavedPage(library, offset);
    var idx := FindIndex(page, bookmark);
    if idx != -1 then page[..idx] else page
  }

  /** The albums a request contributes are the library from `offset` on, up to the bookmark when the page holds it or is short. */
  lemma PageWindow(library: seq<string>, bookmark: Option<string>, offset: nat)
    requires offset <= Cut(library, bookmark)
    ensures var items := PageItems(library, bookmark, offset);
            && offset + |items| <= Cut(library, bookmark)
            && items == library[offset..offset + |items|]
            && (offset < Cut(library, bookmark) ==> |items| > 0)
            && (|items| != PageLimit || FindIndex(SavedPage(library, offset), bookmark) != -1 ==>
                  offset + |items| == Cut(library, bookmark))
  {
    var e := if offset + PageLimit <= |library| then offset + PageLimit else |library|;
    var page := SavedPage(library, offset);
    assert page == library[offset..e];
    FindIndexInWindow(library, bookmark, offset, e);
  }

  /** A request that ends the loop has collected, counted once, exactly the albums newer than the bookmark. */
  lemma PageStepEnds(library: seq<string>, bookmark: Option<string>, albums: seq<string>, offset: nat)
    requires NoDup(library) && Progress(library, bookmark, albums, offset)
    requires |PageItems(library, bookmark, offset)| != PageLimit || FindIndex(SavedPage(library, offset), bookmark) != -1
    ensures Dedupe(albums + PageItems(library, bookmark, offset)) == library[..Cut(library, bookmark)]
  {
    var c := Cut(library, bookmark);
    var items := PageItems(library, bookmark, offset);
    assert items == library[offset..c] && offset <= c by {
      PageWindow(library, bookmark, offset);
    }
    DedupeExtends(library, albums, offset, c);
  }

  /** A request that does not end the loop keeps `Progress` at the last album it appended. */
  lemma PageStepContinues(library: seq<string>, bookmark: Option<string>, albums: seq<string>, offset: nat)
    requires NoDup(library) && Progress(library, bookmark, albums, offset)
    requires |PageItems(library, bookmark, offset)| == PageLimit && FindIndex(SavedPage(library, offset), bookmark) == -1
    ensures var next := offset + PageLimit - 1;
            Progress(library, bookmark, albums + PageItems(library, bookmark, offset), next) && next < |library|
  {
    var items := PageItems(library, bookmark, offset);
    var m := offset + PageLimit;
    PageWindow(library, bookmark, offset);
    assert m <= Cut(library, bookmark);
    DedupeExtends(library, albums, offset, m);
    assert library[m - 1] == items[PageLimit - 1];
    assert Covered(albums + items, m - 1) == m;
  }

  /**
   * The body of the paging loop after a request that succeeded: append the
   * cut page, step `offset` to the last album appended, and report whether
   * the loop ends (a page that is not full, or that held the bookmark).
   */
  method TakePage(library: seq<string>, bookmark: Option<string>, albums: seq<string>, offset: nat)
    returns (albums': seq<string>, offset': int, finished: bool)
    requires NoDup(library) ==> Progress(library, bookmark, albums, offset)
    ensures albums' == albums + PageItems(library, bookmark, offset)
    ensures offset' == offset + |PageItems(library, bookmark, offset)| - 1
    ensures finished <==> |PageItems(library, bookmark, offset)| != PageLimit || FindIndex(SavedPage(library, offset), bookmark) != -1
    ensures !finished ==> offset < offset' < |library|
    ensures finished && NoDup(library) ==> Dedupe(albums') == library[..Cut(library, bookmark)]
    ensures !finished && NoDup(library) ==> Progress(library, bookmark, albums', offset')
  {
    var items := SavedPage(library, offset);
    var lastSavedIndex := FindIndex(items, bookmark);
    var hasLastSaved := lastSavedIndex != -1;
    if hasLastSaved {
      items := items[..lastSavedIndex];
    }
    if NoDup(library) {
      if |items| != PageLimit || hasLastSaved {
        PageStepEnds(library, bookmark, albums, offset);
      } else {
        PageStepContinues(library, bookmark, albums, offset);
      }
    }
    offset' := offset + |items| - 1;
    albums' := albums + items;
    finished := |items| != PageLimit || hasLastSaved;
  }

  /** How the paging ended: the collected albums, or the error that was rethrown; with the requested sleeps. */
  datatype PullOutcome = Pulled(albums: seq<string>, waits: seq<int>) | PullThrew(error: ApiError, waits: seq<int>)

  /** The fault of the `k`-th library request: the listed one, or none beyond the list. */
  function Fault(calls: seq<Option<ApiError>>, k: nat): Option<ApiError> {
    if k < |calls| then calls[k] else None
  }

  /** A request fault the `catch` block rethrows. */
  predicate Fatal(fault: Option<ApiError>) {
    fault.Some? && FavoritesRecovery(fault.value) == Rethrow
  }

  /** The waits the `catch` block requests during the first `n` requests: one per retried failure, in order. */
  function RetryWaits(calls: seq<Option<ApiError>>, n: nat): (waits: seq<int>)
    ensures |waits| <= n
  {
    if n == 0 then []
    else
      var fault := Fault(calls, n - 1);
      var last := if fault.Some? && FavoritesRecovery(fault.value).RetryAfter? then [FavoritesRecovery(fault.value).ms] else [];
      RetryWaits(calls, n - 1) + last
  }

  /** One more request adds its retry wait, if it is a retried failure, to the waits so far. */
  lemma RetryWaitsStep(calls: seq<Option<ApiError>>, n: nat)
    ensures Fault(calls, n).None? ==> RetryWaits(calls, n + 1) == RetryWaits(calls, n)
    ensures Fault(calls, n).Some? && FavoritesRecovery(Fault(calls, n).value).RetryAfter? ==>
      RetryWaits(calls, n + 1) == RetryWaits(calls, n) + [FavoritesRecovery(Fault(calls, n).value).ms]
  {
  }

  /** A request that is not rethrown extends the run of requests before any rethrow. */
  lemma NoFatalExtend(calls: seq<Option<ApiError>>, n: nat)
    requires forall k :: 0 <= k < n ==> !Fatal(Fault(calls, k))
    requires !Fatal(Fault(calls, n))
    ensures forall k :: 0 <= k < n + 1 ==> !Fatal(Fault(calls, k))
  {
  }

  /**
   * getNewSavedAlbums: request pages of 50 from `offset`, cut each page just
   * before the bookmarked album, advance `offset` by the page length minus
   * one, and stop on a page that is not full or that held the bookmark.
   * Because consecutive pages overlap by one album, only the de-duplicated
   * list is the library up to the bookmark. `requests` is the number of
   * library requests made: the run ends at the last of them, either with a
   * page that ends the loop or with a fault that is rethrown.
   */
  method GetNewSavedAlbums(library: seq<string>, bookmark: Option<string>, calls: seq<Option<ApiError>>)
    returns (r: PullOutcome, requests: nat)
    ensures requests >= 1
    ensures r.waits == RetryWaits(calls, requests)
    ensures forall k :: 0 <= k < requests - 1 ==> !Fatal(Fault(calls, k))
    ensures r.PullThrew? <==> Fatal(Fault(calls, requests - 1))
    ensures r.PullThrew? ==> Fault(calls, requests - 1) == Some(r.error)
    ensures r.Pulled? ==> Fault(calls, requests - 1).None?
    ensures NoDup(library) && r.Pulled? ==> Dedupe(r.albums) == library[..Cut(library, bookmark)]
    ensures r.Pulled? ==> forall x :: x in r.albums ==> x in library
    ensures (forall k :: 0 <= k < |calls| ==> calls[k].None?) ==> r.Pulled? && r.waits == []
  {
    var albums: seq<string> := [];
    var offset: int := 0;
    var waits: seq<int> := [];
    requests := 0;
    while true
      invariant 0 <= offset <= |library|
      invariant forall x :: x in albums ==> x in library
      invariant waits == RetryWaits(calls, requests)
      invariant forall k :: 0 <= k < requests ==> !Fatal(Fault(calls, k))
      invariant (forall k :: 0 <= k < |calls| ==> calls[k].None?) ==> waits == []
      invariant NoDup(library) ==> Progress(library, bookmark, albums, offset)
      decreases |library| - offset, if requests < |calls| then |calls| - requests else 0
    {
      var fault := Fault(calls, requests);
      RetryWaitsStep(calls, requests);
      if !Fatal(fault) {
        NoFatalExtend(calls, requests);
      }
      requests := requests + 1;
      match fault {
        case None =>
          var finished;
          albums, offset, finished := TakePage(library, bookmark, albums, offset);
          if finished {
            return Pulled(albums, waits), requests;
          }
        case Some(e) =>
          match FavoritesRecovery(e) {
            case RetryAfter(ms) =>
              waits := waits + [ms];
            case Rethrow =>
              return PullThrew(e, waits), requests;
          }
      }
    }
  }

  /**
   * The bookmark's purpose: if `newer` albums were saved on top of a library
   * whose newest album is the bookmark, the pull collects exactly those.
   */
  lemma BookmarkCollectsNewOnly(newer: seq<string>, older: seq<string>)
    requires |older| > 0 && NoDup(newer + older)
    ensures Cut(newer + older, Some(older[0])) == |newer|
    ensures (newer + older)[..Cut(newer + older, Some(older[0]))] == newer
  {
    var library := newer + older;
    var c := Cut(library, Some(older[0]));
    assert library[|newer|] == older[0];
  }

  /** A row of the saved-album table: the (uri, user) pair is its key. */
  datatype SavedAlbum = SavedAlbum(userId: string, uri: string)

  function SavedRows(userId: string, uris: seq<string>): (rows: seq<SavedAlbum>)
    ensures |rows| == |uris| && forall i :: 0 <= i < |uris| ==> rows[i] == SavedAlbum(userId, uris[i])
  {
    seq(|uris|, i requires 0 <= i < |uris| => SavedAlbum(userId, uris[i]))
  }

  /** The user table (id to `lastSavedAlbum`) and the saved-album table, with the upserts issued in order. */
  class FavoritesStore {
    var users: map<string, Option<string>>
    var saved: set<SavedAlbum>
    var upserts: seq<SavedAlbum>

    constructor ()
      ensures users == map[] && saved == {} && upserts == []
    {
      users := map[];
      saved := {};
      upserts := [];
    }

    /** `upsert` with an empty update: create the row if it is missing, change nothing otherwise. */
    method Upsert(row: SavedAlbum)
      modifies this
      ensures users == old(users)
      ensures saved == old(saved) + {row}
      ensures upserts == old(upserts) + [row]
    {
      saved := saved + {row};
      upserts := upserts + [row];
    }

    /** The upserts of `Promise.all`, one per URI, in the order of `uris`. */
    method UpsertAll(userId: string, uris: seq<string>)
      modifies this
      ensures users == old(users)
      ensures upserts == old(upserts) + SavedRows(userId, uris)
      ensures saved == old(saved) + set u | u in uris :: SavedAlbum(userId, u)
    {
      for k := 0 to |uris|
        invariant users == old(users)
        invariant upserts == old(upserts) + SavedRows(userId, uris[..k])
        invariant saved == old(saved) + set u | u in uris[..k] :: SavedAlbum(userId, u)
      {
        Upsert(SavedAlbum(userId, uris[k]));
        assert uris[..k + 1] == uris[..k] + [uris[k]];
        assert SavedRows(userId, uris[..k + 1]) == SavedRows(userId, uris[..k]) + [SavedAlbum(userId, uris[k])];
      }
      assert uris[..|uris|] == uris;
    }

    /**
     * pullFavorites for `userId`: create the user row if missing, page through
     * the library, upsert each distinct collected URI once, and move the
     * bookmark to the first collected URI when there is one.
     */
    method PullFavorites(userId: string, library: seq<string>, calls: seq<Option<ApiError>>)
      returns (r: PullOutcome)
      modifies this
      ensures userId in users
      ensures forall u :: u in old(users) && u != userId ==> u in users && users[u] == old(users)[u]
      ensures forall u :: u in users ==> u in old(users) || u == userId
      ensures var bookmark := if userId in old(users) then old(users)[userId] else None;
              && (NoDup(library) && r.Pulled? ==> Dedupe(r.albums) == library[..Cut(library, bookmark)])
              && (r.Pulled? && |r.albums| > 0 && r.albums[0] != "" ==> users[userId] == Some(r.albums[0]))
              && (!(r.Pulled? && |r.albums| > 0 && r.albums[0] != "") ==> users[userId] == bookmark)
      ensures r.Pulled? ==> upserts == old(upserts) + SavedRows(userId, Dedupe(r.albums))
      ensures r.Pulled? ==> saved == old(saved) + set u | u in r.albums :: SavedAlbum(userId, u)
      ensures r.PullThrew? ==> saved == old(saved) && upserts == old(upserts)
    {
      if userId !in users {
        users := users[userId := None];
      }
      var bookmark := users[userId];
      var requests;
      r, requests := GetNewSavedAlbums(library, bookmark, calls);
      if r.PullThrew? {
        return;
      }
      var uris := r.albums;
      var distinct := Dedupe(uris);
      UpsertAll(userId, distinct);
      assert (set u | u in distinct :: SavedAlbum(userId, u)) == (set u | u in uris :: SavedAlbum(userId, u));
      if |uris| > 0 && uris[0] != "" {
        users := users[userId := Some(uris[0])];
      }
    }
  }
}
