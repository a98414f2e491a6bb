/**
 * The review scraper (`pages/api/scrape-pitchfork.ts`): the catalog search with
 * its retry policy, the normalisation of one listing record and its detail page
 * into a review, the listing denylist, and the reconciliation of the collected
 * reviews against the review store.
 *
 * Remote services are inputs: the catalog's answers to successive search calls
 * and the detail page as seen on successive re-parses are given as sequences, so
 * an unbounded retry becomes a walk along a finite sequence that may run out
 * (the outcomes `GaveUp` and `Unfinished`). Requested sleeps are returned as a
 * list of milliseconds.
 */
module ScrapePitchfork {
  import opened Wrappers
  import opened Text
  import opened JsNumber
  import opened WebApiError

  // ===========================================================================
  // searchAlbums

  /** The catalog search string: artist, a space, and the album title with its first "EP" removed. */
  function CatalogQuery(artist: string, album: string): (q: string)
    ensures (forall j :: !OccursAt(album, "EP", j)) ==> q == artist + " " + album
    ensures forall i :: FirstOccurrence(album, "EP", i) ==> q == artist + " " + album[..i] + album[i + 2..]
  {
    artist + " " + ReplaceFirst(album, "EP", "")
  }

  /**
   * The `catch` block of searchAlbums: connection time-outs and resets, 500 and
   * 429 are retried, a 429 after `retry-after` seconds and the others after 30 s;
   * every other error is rethrown.
   */
  function SearchRecovery(e: ApiError): (r: Recovery)
    ensures r.RetryAfter? <==>
              e.code == "ETIMEDOUT" || e.code == "ECONNRESET" || e.statusCode == Some(500) || e.statusCode == Some(429)
    ensures r.RetryAfter? && e.statusCode == Some(429) ==> r.ms == e.retryAfterSeconds * 1000
    ensures r.RetryAfter? && e.statusCode != Some(429) ==> r.ms == 30000
  {
    if e.code == "ETIMEDOUT" || e.code == "ECONNRESET" || e.statusCode == Some(500) || e.statusCode == Some(429) then
      if e.statusCode == Some(429) then RetryAfter(RateLimitWaitMs(e)) else RetryAfter(TransientWaitMs)
    else
      Rethrow
  }

  datatype CatalogAlbum = CatalogAlbum(uri: string)

  /** What one call to the catalog's search returned. */
  datatype SearchResponse = Albums(items: seq<CatalogAlbum>) | SearchFailed(error: ApiError)

  /** How a run of searchAlbums ended, with the sleeps it requested on the way. */
  datatype SearchOutcome =
    | Found(items: seq<CatalogAlbum>, waits: seq<int>)
    | Thrown(error: ApiError, waits: seq<int>)
    | GaveUp(waits: seq<int>)

  /** The first `|waits|` responses were failures retried after the matching wait. */
  ghost predicate RetriedPrefix(responses: seq<SearchResponse>, waits: seq<int>) {
    && |waits| <= |responses|
    && forall j :: 0 <= j < |waits| ==>
         responses[j].SearchFailed? && SearchRecovery(responses[j].error) == RetryAfter(waits[j])
  }

  /**
   * searchAlbums against the catalog's successive answers: it retries while the
   * failures are retryable and stops at the first result or the first other error.
   */
  function SearchAlbums(responses: seq<SearchResponse>): (r: SearchOutcome)
    ensures RetriedPrefix(responses, r.waits)
    ensures r.Found? ==> |r.waits| < |responses| && responses[|r.waits|] == Albums(r.items)
    ensures r.Thrown? ==>
              && |r.waits| < |responses| && responses[|r.waits|] == SearchFailed(r.error)
              && SearchRecovery(r.error) == Rethrow
    ensures r.GaveUp? ==> |r.waits| == |responses|
    decreases |responses|
  {
    if responses == [] then GaveUp([])
    else
      match responses[0]
      case Albums(items) => Found(items, [])
      case SearchFailed(e) =>
        match SearchRecovery(e)
        case Rethrow => Thrown(e, [])
        case RetryAfter(ms) =>
          var rest := SearchAlbums(responses[1..]);
          rest.(waits := [ms] + rest.waits)
  }

  // ===========================================================================
  // parseReview: the review body

  /** A node of the detail page: its text, and the text of its next sibling ("" when there is none). */
  datatype PageNode = PageNode(text: string, nextSiblingText: string)

  /**
   * What parseReview reads from one download of the detail page: the inner
   * html of the first dek element if there is one, the inner html of each body
   * block in document order, and every node of the page in document order.
   */
  datatype DetailPage = DetailPage(dek: Option<string>, bodyBlocks: seq<string>, nodes: seq<PageNode>)

  const BlurbOpen: string := "<div class=\"review-blurb\">"
  const BlurbClose: string := "</div>"

  /** `.filter(Boolean)` on strings: the non-empty ones, in order. */
  function NonEmpty(parts: seq<string>): (r: seq<string>)
    ensures forall i :: 0 <= i < |r| ==> r[i] != ""
    ensures r == [] <==> forall i :: 0 <= i < |parts| ==> parts[i] == ""
    ensures |parts| > 0 && parts[0] != "" ==> |r| > 0 && r[0] == parts[0]
    decreases |parts|
  {
    if parts == [] then []
    else if parts[0] == "" then NonEmpty(parts[1..])
    else [parts[0]] + NonEmpty(parts[1..])
  }

  /** The blurb piece: the dek wrapped in a review-blurb div, or "" when the dek is missing or empty. */
  function BlurbPiece(dek: Option<string>): string {
    if dek.Some? && dek.value != "" then BlurbOpen + dek.value + BlurbClose else ""
  }

  /** The review html: blurb piece, then body blocks; empty pieces dropped, the rest joined by newlines. */
  function ReviewHtml(page: DetailPage): (html: string)
    ensures html == "" <==>
              (page.dek.None? || page.dek.value == "") && forall i :: 0 <= i < |page.bodyBlocks| ==> page.bodyBlocks[i] == ""
    ensures page.dek.Some? && page.dek.value != "" ==>
              var blurb := BlurbOpen + page.dek.value + BlurbClose;
              |blurb| <= |html| && html[..|blurb|] == blurb
  {
    var parts := [BlurbPiece(page.dek)] + page.bodyBlocks;
    var pieces := NonEmpty(parts);
    assert forall i :: 0 <= i < |page.bodyBlocks| ==> page.bodyBlocks[i] == parts[i + 1];
    JoinEmptyIff(pieces, "\n");
    JoinStartsWithFirst(pieces, "\n");
    Join(pieces, "\n")
  }

  /** Pitchfork's throttling pause before a detail page is parsed again. */
  const ThrottleWaitMs: int := 60 * 1000

  datatype BodyOutcome =
    | Body(page: DetailPage, html: string, waits: seq<int>)
    | StillThrottled(waits: seq<int>)

  /**
   * The throttle loop of parseReview over the successive downloads of the
   * detail page: an empty review html means "throttled", so it waits 60 s and
   * parses again; it never yields an empty body.
   */
  function AwaitReviewBody(pages: seq<DetailPage>): (r: BodyOutcome)
    ensures |r.waits| <= |pages|
    ensures forall j :: 0 <= j < |r.waits| ==> ReviewHtml(pages[j]) == "" && r.waits[j] == ThrottleWaitMs
    ensures r.Body? ==> |r.waits| < |pages| && r.page == pages[|r.waits|] && r.html == ReviewHtml(r.page) && r.html != ""
    ensures r.StillThrottled? ==> |r.waits| == |pages|
    decreases |pages|
  {
    if pages == [] then StillThrottled([])
    else
      var html := ReviewHtml(pages[0]);
      if html != "" then Body(pages[0], html, [])
      else
        var rest := AwaitReviewBody(pages[1..]);
        rest.(waits := [ThrottleWaitMs] + rest.waits)
  }

  /** Two throttled downloads, then a page with one body block: two 60 s waits and that block as the body. */
  lemma ThrottledTwiceThenBody(empty: DetailPage, full: DetailPage)
    requires empty.dek == None && empty.bodyBlocks == []
    requires full.dek == None && full.bodyBlocks == ["<p>Great.</p>"]
    ensures AwaitReviewBody([empty, empty, full]) == Body(full, "<p>Great.</p>", [60000, 60000])
  {
    var pages := [empty, empty, full];
    assert ReviewHtml(empty) == "";
    assert NonEmpty([BlurbPiece(full.dek)] + full.bodyBlocks) == ["<p>Great.</p>"];
    assert ReviewHtml(full) == "<p>Great.</p>";
    assert pages[1..] == [empty, full];
    assert pages[1..][1..] == [full];
    assert AwaitReviewBody([full]) == Body(full, "<p>Great.</p>", []);
    assert AwaitReviewBody([empty, full]) == Body(full, "<p>Great.</p>", [60000]);
  }

  // ===========================================================================
  // parseReview: fields

  /** `.split("/").map(trim)`: the trimmed pieces between slashes. */
  function SlashList(s: string): (r: seq<string>)
    ensures |r| == |Split(s, '/')| >= 1
    ensures forall i :: 0 <= i < |r| ==> r[i] == Trim(Split(s, '/')[i])
  {
    var pieces := Split(s, '/');
    seq(|pieces|, i requires 0 <= i < |pieces| => Trim(pieces[i]))
  }

  /** Every name in a slash list is trimmed and free of slashes. */
  lemma SlashListNames(s: string)
    ensures forall i :: 0 <= i < |SlashList(s)| ==>
              var n := SlashList(s)[i];
              '/' !in n && (n == [] || (!IsSpace(n[0]) && !IsSpace(n[|n| - 1])))
  {
    var r := SlashList(s);
    forall i | 0 <= i < |r|
      ensures '/' !in r[i]
    {
      var p := Split(s, '/')[i];
      var lo :| TrimmedAt(p, r[i], lo);
    }
  }

  /** The index of the first node whose text is exactly `text`. */
  function FirstNodeWithText(nodes: seq<PageNode>, text: string): (r: Option<nat>)
    ensures r.Some? ==> r.value < |nodes| && nodes[r.value].text == text
                        && forall j :: 0 <= j < r.value ==> nodes[j].text != text
    ensures r.None? ==> forall j :: 0 <= j < |nodes| ==> nodes[j].text != text
    decreases |nodes|
  {
    if nodes == [] then None
    else if nodes[0].text == text then Some(0)
    else match FirstNodeWithText(nodes[1..], text)
      case None => None
      case Some(k) => Some(k + 1)
  }

  /**
   * Labels or genres: the sibling text after the first node reading exactly
   * `caption`, split on "/" and trimmed; `[]` when no node reads `caption`.
   */
  function CaptionedList(nodes: seq<PageNode>, caption: string): (names: seq<string>)
    ensures names == [] <==> forall j :: 0 <= j < |nodes| ==> nodes[j].text != caption
    ensures forall i :: 0 <= i < |nodes| && nodes[i].text == caption && (forall j :: 0 <= j < i ==> nodes[j].text != caption)
              ==> names == SlashList(nodes[i].nextSiblingText)
  {
    match FirstNodeWithText(nodes, caption)
    case None => []
    case Some(i) => SlashList(nodes[i].nextSiblingText)
  }

  /**
   * The fields of one listing item (`PitchforkReview`) that parseReview reads:
   * the `subHed` name (artists), the image alt text (album title), the large
   * cover url, the author item names (`None` when there is no author object),
   * the rating and the publish date as a number.
   */
  datatype ListingItem = ListingItem(
    url: string,
    subHed: Option<string>,
    altText: string,
    coverUrl: string,
    authors: Option<seq<string>>,
    score: Number,
    isBestNewMusic: bool,
    pubDate: int)

  /** A review as parseReview returns it. */
  datatype ParsedReview = ParsedReview(
    albumTitle: string,
    cover: string,
    spotifyAlbum: Option<string>,
    score: Number,
    author: string,
    publishDate: int,
    isBestNew: bool,
    labels: seq<string>,
    artists: seq<string>,
    genres: seq<string>,
    reviewHtml: string)

  /** `subHed?.name.split("/").map(trim) || []`. */
  function Artists(item: ListingItem): seq<string> {
    if item.subHed.Some? then SlashList(item.subHed.value) else []
  }

  /** `${artists[0]}`: the first artist, or the text "undefined" when the list is empty. */
  function SearchArtist(artists: seq<string>): string {
    if |artists| > 0 then artists[0] else "undefined"
  }

  /**
   * `author?.items[0].name.trim() || ""`: "" without an author object, the
   * trimmed first name otherwise; `None` stands for the TypeError raised when
   * the author object has no items.
   */
  function AuthorName(authors: Option<seq<string>>): Option<string> {
    match authors
    case None => Some("")
    case Some(names) => if |names| == 0 then None else Some(Trim(names[0]))
  }

  /** `albums[0]?.uri || null`. */
  function CatalogLink(items: seq<CatalogAlbum>): Option<string> {
    if |items| > 0 && items[0].uri != "" then Some(items[0].uri) else None
  }

  /** `score || 0`. */
  function ReviewScore(score: Number): Number {
    if Truthy(score) then score else Tenths(0)
  }

  /** The remote answers one parseReview call meets: successive page downloads and successive search answers. */
  datatype Remote = Remote(pages: seq<DetailPage>, searches: seq<SearchResponse>)

  /** How parseReview ended: a review, a thrown error, or still retrying when the answers ran out. */
  datatype ParseOutcome =
    | Parsed(review: ParsedReview, query: string, waits: seq<int>)
    | ParseFailed(waits: seq<int>)
    | Unfinished(waits: seq<int>)

  /** parseReview for one listing item. */
  function ParseReview(item: ListingItem, remote: Remote): (r: ParseOutcome)
    ensures r.Parsed? ==>
              var body := AwaitReviewBody(remote.pages);
              var artists := r.review.artists;
              && body.Body?
              && r.review.reviewHtml == body.html != ""
              && r.review.labels == CaptionedList(body.page.nodes, "Label:")
              && r.review.genres == CaptionedList(body.page.nodes, "Genre:")
              && (item.subHed.None? ==> artists == [])
              && (item.subHed.Some? ==> |artists| >= 1 && artists == SlashList(item.subHed.value))
              && r.query == CatalogQuery(if artists == [] then "undefined" else artists[0], item.altText)
              && SearchAlbums(remote.searches).Found?
              && r.review.spotifyAlbum == CatalogLink(SearchAlbums(remote.searches).items)
              && r.review.albumTitle == item.altText
              && r.review.score == (if Truthy(item.score) then item.score else Tenths(0))
              && (item.authors.None? ==> r.review.author == "")
              && (item.authors.Some? ==> |item.authors.value| > 0 && r.review.author == Trim(item.authors.value[0]))
              && r.waits == body.waits + SearchAlbums(remote.searches).waits
  {
    match AwaitReviewBody(remote.pages)
    case StillThrottled(w1) => Unfinished(w1)
    case Body(page, html, w1) =>
      var artists := Artists(item);
      var query := CatalogQuery(SearchArtist(artists), item.altText);
      match SearchAlbums(remote.searches)
      case GaveUp(w2) => Unfinished(w1 + w2)
      case Thrown(_, w2) => ParseFailed(w1 + w2)
      case Found(items, w2) =>
        match AuthorName(item.authors)
        case None => ParseFailed(w1 + w2)
        case Some(author) =>
          Parsed(
            ParsedReview(
              albumTitle := item.altText,
              cover := item.coverUrl,
              spotifyAlbum := CatalogLink(items),
              score := ReviewScore(item.score),
              author := author,
              publishDate := item.pubDate,
              isBestNew := item.isBestNewMusic,
              labels := CaptionedList(page.nodes, "Label:"),
              artists := artists,
              genres := CaptionedList(page.nodes, "Genre:"),
              reviewHtml := html),
            query,
            w1 + w2)
  }

  /**
   * A parse fails outright exactly when the page had a body and then the
   * search rethrew, or the author object had no items; it is unfinished exactly
   * when the page or the search answers ran out.
   */
  lemma ParseReviewFailure(item: ListingItem, remote: Remote)
    ensures ParseReview(item, remote).ParseFailed? <==>
              && AwaitReviewBody(remote.pages).Body?
              && (SearchAlbums(remote.searches).Thrown?
                  || (SearchAlbums(remote.searches).Found? && item.authors == Some([])))
    ensures ParseReview(item, remote).Unfinished? <==>
              AwaitReviewBody(remote.pages).StillThrottled? || SearchAlbums(remote.searches).GaveUp?
  {
    var body := AwaitReviewBody(remote.pages);
    var search := SearchAlbums(remote.searches);
    if body.Body? && search.Found? {
      assert AuthorName(item.authors).None? <==> item.authors == Some([]);
    }
  }

  // ===========================================================================
  // scrapeReviews: the listing denylist

  const Denylist: seq<string> := [
    "/reviews/albums/1365-no-more-shall-we-part/",
    "/reviews/albums/5911-the-complete-studio-recordings/"
  ]

  /** The listing items whose url is not on the denylist, in listing order. */
  function KeepListed(items: seq<ListingItem>): (kept: seq<ListingItem>)
    ensures |kept| <= |items|
    ensures forall x :: x in kept <==> x in items && x.url !in Denylist
    decreases |items|
  {
    if items == [] then []
    else
      var rest := KeepListed(items[1..]);
      assert forall x :: x in items <==> x == items[0] || x in items[1..];
      if items[0].url in Denylist then rest else [items[0]] + rest
  }

  /** The items the denylist removes, in listing order. */
  function Denied(items: seq<ListingItem>): seq<ListingItem>
    decreases |items|
  {
    if items == [] then []
    else if items[0].url in Denylist then [items[0]] + Denied(items[1..])
    else Denied(items[1..])
  }

  /** The filter works item by item, so the kept items keep their listing order. */
  lemma {:induction false} KeepListedAppend(a: seq<ListingItem>, b: seq<ListingItem>)
    ensures KeepListed(a + b) == KeepListed(a) + KeepListed(b)
    decreases |a|
  {
    if a == [] {
      assert a + b == b;
    } else {
      assert (a + b)[1..] == a[1..] + b;
      KeepListedAppend(a[1..], b);
    }
  }

  /** Nothing is lost: the kept and the removed items together are the listing. */
  lemma {:induction false} KeepListedSplitsListing(items: seq<ListingItem>)
    ensures multiset(KeepListed(items)) + multiset(Denied(items)) == multiset(items)
    ensures forall x :: x in Denied(items) ==> x.url in Denylist
    decreases |items|
  {
    if items != [] {
      KeepListedSplitsListing(items[1..]);
      assert items == [items[0]] + items[1..];
    }
  }

  // ===========================================================================
  // scrapeReviews: collecting the parsed reviews

  /**
   * Every queue task ends within the remote answers given: no parse is still
   * retrying when its answers run out.
   */
  predicate AllFinished(kept: seq<ListingItem>, remotes: seq<Remote>)
    requires |remotes| == |kept|
  {
    forall i :: 0 <= i < |kept| ==> !ParseReview(kept[i], remotes[i]).Unfinished?
  }

  /** What the queue task for listing position `i` pushes: its review, or nothing when the task rejected. */
  function Pushed(kept: seq<ListingItem>, remotes: seq<Remote>, i: nat): seq<ParsedReview>
    requires i < |kept| && i < |remotes|
  {
    match ParseReview(kept[i], remotes[i])
    case Parsed(review, _, _) => [review]
    case _ => []
  }

  /** The positions of the queue tasks in the order they finished: each position exactly once. */
  ghost predicate IsCompletionOrder(order: seq<nat>, n: nat) {
    Below(order, n) && multiset(order) == multiset(Positions(n))
  }

  /** What every queue task pushes, by listing position. */
  function PushedAll(kept: seq<ListingItem>, remotes: seq<Remote>): (r: seq<seq<ParsedReview>>)
    requires |remotes| == |kept|
    ensures |r| == |kept| && forall i :: 0 <= i < |kept| ==> r[i] == Pushed(kept, remotes, i)
  {
    seq(|kept|, i requires 0 <= i < |kept| => Pushed(kept, remotes, i))
  }

  /** The `reviews` array after the tasks finished in the order `order`. */
  function Collected(kept: seq<ListingItem>, remotes: seq<Remote>, order: seq<nat>): seq<ParsedReview>
    requires |remotes| == |kept|
    requires Below(order, |kept|)
  {
    Gather(PushedAll(kept, remotes), order)
  }

  /** The listing positions 0, 1, ..., n - 1. */
  function Positions(n: nat): (r: seq<nat>)
    ensures |r| == n && forall k :: 0 <= k < n ==> r[k] == k
  {
    seq(n, k => k)
  }

  /** The `reviews` array after the tasks at positions `order` have pushed `pushed[i]`, in that order. */
  function Gather<T>(pushed: seq<seq<T>>, order: seq<nat>): seq<T>
    requires Below(order, |pushed|)
    decreases |order|
  {
    if order == [] then []
    else Gather(pushed, order[..|order| - 1]) + pushed[order[|order| - 1]]
  }

  lemma {:induction false} GatherAppend<T>(pushed: seq<seq<T>>, a: seq<nat>, b: seq<nat>)
    requires Below(a, |pushed|)
    requires Below(b, |pushed|)
    ensures Gather(pushed, a + b) == Gather(pushed, a) + Gather(pushed, b)
    decreases |b|
  {
    if b == [] {
      assert a + b == a;
    } else {
      var b' := b[..|b| - 1];
      assert (a + b)[..|a + b| - 1] == a + b';
      GatherAppend(pushed, a, b');
    }
  }

  /** Gathering in any two orders of the same positions gives the same reviews with the same multiplicities. */
  lemma {:induction false} GatherPermutation<T>(pushed: seq<seq<T>>, o1: seq<nat>, o2: seq<nat>)
    requires Below(o1, |pushed|)
    requires Below(o2, |pushed|)
    requires multiset(o1) == multiset(o2)
    ensures multiset(Gather(pushed, o1)) == multiset(Gather(pushed, o2))
    decreases |o1|
  {
    if o1 == [] {
      assert |o2| == |multiset(o2)| == 0;
    } else {
      var n := |o1|;
      var x := o1[n - 1];
      var o1' := o1[..n - 1];
      assert x in multiset(o2) by {
        assert o1 == o1' + [x];
      }
      var p :| 0 <= p < |o2| && o2[p] == x;
      var o2' := o2[..p] + o2[p + 1..];
      BelowPieces(o1, |pushed|, n - 1);
      BelowPieces(o2, |pushed|, p);
      RemoveMatching(o1, o2, p);
      GatherPermutation(pushed, o1', o2');
      GatherAround(pushed, o2, p);
      assert o1 == o1' + [x];
      GatherAppend(pushed, o1', [x]);
      assert [x][..0] == [];
      var left := Gather(pushed, o2[..p]);
      var right := Gather(pushed, o2[p + 1..]);
      calc {
        multiset(Gather(pushed, o1));
        multiset(Gather(pushed, o1')) + multiset(pushed[x]);
        multiset(left + right) + multiset(pushed[x]);
        multiset(left + pushed[x] + right);
      }
    }
  }

  /** Gathering around position `p`: what comes before it, its own push, and what comes after. */
  lemma GatherAround<T>(pushed: seq<seq<T>>, o: seq<nat>, p: nat)
    requires p < |o| && Below(o, |pushed|)
    ensures Below(o[..p], |pushed|) && Below(o[p + 1..], |pushed|) && Below(o[..p] + o[p + 1..], |pushed|)
    ensures Gather(pushed, o) == Gather(pushed, o[..p]) + pushed[o[p]] + Gather(pushed, o[p + 1..])
    ensures Gather(pushed, o[..p] + o[p + 1..]) == Gather(pushed, o[..p]) + Gather(pushed, o[p + 1..])
  {
    var x := o[p];
    BelowPieces(o, |pushed|, p);
    assert o == o[..p] + [x] + o[p + 1..];
    GatherAppend(pushed, o[..p] + [x], o[p + 1..]);
    GatherAppend(pushed, o[..p], [x]);
    assert [x][..0] == [];
    GatherAppend(pushed, o[..p], o[p + 1..]);
  }

  /** Every position in `o` is below `n`. */
  predicate Below(o: seq<nat>, n: nat) {
    forall k :: 0 <= k < |o| ==> o[k] < n
  }

  /** Bounds on the positions carry over to the pieces around `p`. */
  lemma BelowPieces(o: seq<nat>, n: nat, p: nat)
    requires p < |o| && Below(o, n)
    ensures Below(o[..p], n) && Below(o[p + 1..], n)
    ensures Below(o[..p] + o[p + 1..], n) && Below(o[..p] + [o[p]], n)
  {
    var d := o[..p] + o[p + 1..];
    forall k | 0 <= k < |d|
      ensures d[k] < n
    {
      if k < p { assert d[k] == o[k]; } else { assert d[k] == o[k + 1]; }
    }
    var e := o[..p] + [o[p]];
    forall k | 0 <= k < |e|
      ensures e[k] < n
    {
      assert e[k] == o[k];
    }
  }

  lemma RemoveMatching(o1: seq<nat>, o2: seq<nat>, p: nat)
    requires |o1| > 0 && p < |o2| && o2[p] == o1[|o1| - 1]
    requires multiset(o1) == multiset(o2)
    ensures multiset(o1[..|o1| - 1]) == multiset(o2[..p] + o2[p + 1..])
  {
    var x := o2[p];
    var a := o1[..|o1| - 1];
    var l := o2[..p];
    var r := o2[p + 1..];
    assert o1 == a + [x];
    assert o2 == l + [x] + r;
    assert multiset(o1) == multiset(a) + multiset{x};
    assert multiset(o2) == multiset(l) + multiset(r) + multiset{x};
    assert multiset(l + r) == multiset(l) + multiset(r);
    forall y
      ensures multiset(a)[y] == multiset(l + r)[y]
    {
      assert multiset(o1)[y] == multiset(a)[y] + multiset{x}[y];
      assert multiset(o2)[y] == multiset(l + r)[y] + multiset{x}[y];
    }
  }

  /** Whatever order the tasks finish in, the collected list is a permutation of the parsed reviews in listing order. */
  lemma CollectedIsPermutation(kept: seq<ListingItem>, remotes: seq<Remote>, order: seq<nat>)
    requires |remotes| == |kept|
    requires IsCompletionOrder(order, |kept|)
    ensures multiset(Collected(kept, remotes, order)) == multiset(Collected(kept, remotes, Positions(|kept|)))
  {
    var ps := Positions(|kept|);
    assert Below(ps, |kept|);
    GatherPermutation(PushedAll(kept, remotes), order, ps);
  }

  // ===========================================================================
  // scrapeReviews: reconciliation against the store

  /** `reviews.reverse()`. */
  function Reverse<T>(s: seq<T>): (r: seq<T>)
    ensures |r| == |s| && forall i :: 0 <= i < |s| ==> r[i] == s[|s| - 1 - i]
    decreases |s|
  {
    if s == [] then [] else Reverse(s[1..]) + [s[0]]
  }

  /** The store's lookup key: album title, author and score. */
  datatype Key = Key(albumTitle: string, author: string, score: Number)

  function KeyOf(r: ParsedReview): Key {
    Key(r.albumTitle, r.author, r.score)
  }

  datatype StoredReview = StoredReview(id: nat, review: ParsedReview)

  /** The writes and the failures a run reports, in order. */
  datatype Event = Added(id: nat, albumTitle: string) | Updated(id: nat, uri: string) | CreateFailed(albumTitle: string)

  /**
   * The review store: the review rows in insertion order with their
   * auto-increment ids, the next id, the label, artist and genre names that
   * `connectOrCreate` has created, and the reported events.
   */
  datatype Db = Db(
    reviews: seq<StoredReview>,
    nextId: nat,
    labels: set<string>,
    artists: set<string>,
    genres: set<string>,
    log: seq<Event>)

  ghost predicate KeysUnique(rs: seq<StoredReview>) {
    forall i, j :: 0 <= i < j < |rs| ==> KeyOf(rs[i].review) != KeyOf(rs[j].review)
  }

  /** At most one row per key; ids strictly increase along the rows and stay below the next id. */
  ghost predicate ValidDb(db: Db) {
    && KeysUnique(db.reviews)
    && (forall i, j :: 0 <= i < j < |db.reviews| ==> db.reviews[i].id < db.reviews[j].id)
    && (forall i :: 0 <= i < |db.reviews| ==> db.reviews[i].id < db.nextId)
  }

  /** `findFirst` by key: the first row holding the key. */
  function FirstWithKey(rs: seq<StoredReview>, key: Key): (r: Option<nat>)
    ensures r.Some? ==> r.value < |rs| && KeyOf(rs[r.value].review) == key
                        && forall j :: 0 <= j < r.value ==> KeyOf(rs[j].review) != key
    ensures r.None? ==> forall j :: 0 <= j < |rs| ==> KeyOf(rs[j].review) != key
    decreases |rs|
  {
    if rs == [] then None
    else if KeyOf(rs[0].review) == key then Some(0)
    else match FirstWithKey(rs[1..], key)
      case None => None
      case Some(k) => Some(k + 1)
  }

  /** The row with id `id`. */
  function RowWithId(rs: seq<StoredReview>, id: nat): (r: Option<nat>)
    ensures r.Some? ==> r.value < |rs| && rs[r.value].id == id
    ensures r.None? ==> forall j :: 0 <= j < |rs| ==> rs[j].id != id
    decreases |rs|
  {
    if rs == [] then None
    else if rs[0].id == id then Some(0)
    else match RowWithId(rs[1..], id)
      case None => None
      case Some(k) => Some(k + 1)
  }

  /** A truthy `spotifyAlbum`. */
  predicate HasLink(link: Option<string>) {
    link.Some? && link.value != ""
  }

  function Names(names: seq<string>): set<string> {
    set n | n in names
  }

  /** `create`: a new row with the next id; its labels, artists and genres connected or created by name. */
  function Insert(db: Db, data: ParsedReview): Db {
    db.(reviews := db.reviews + [StoredReview(db.nextId, data)],
        nextId := db.nextId + 1,
        labels := db.labels + Names(data.labels),
        artists := db.artists + Names(data.artists),
        genres := db.genres + Names(data.genres),
        log := db.log + [Added(db.nextId, data.albumTitle)])
  }

  /** `update` of row `i`: its catalog link, and nothing else. */
  function Backfill(db: Db, i: nat, uri: string): Db
    requires i < |db.reviews|
  {
    var row := db.reviews[i];
    db.(reviews := db.reviews[i := row.(review := row.review.(spotifyAlbum := Some(uri)))],
        log := db.log + [Updated(row.id, uri)])
  }

  /**
   * One pass of the reconciliation loop: look the key up; without a row,
   * create one (a failing create is reported and skipped); with a row lacking
   * a link while the new review has one, set that link; otherwise write nothing.
   */
  function ReconcileOne(db: Db, data: ParsedReview, createFails: bool): Db {
    match FirstWithKey(db.reviews, KeyOf(data))
    case None =>
      if createFails then db.(log := db.log + [CreateFailed(data.albumTitle)]) else Insert(db, data)
    case Some(i) =>
      if !HasLink(db.reviews[i].review.spotifyAlbum) && HasLink(data.spotifyAlbum) then
        Backfill(db, i, data.spotifyAlbum.value)
      else db
  }

  /** Whether the create for the `k`-th review of the batch fails (never beyond the list). */
  predicate FaultAt(faults: seq<bool>, k: nat) {
    k < |faults| && faults[k]
  }

  /** The reconciliation loop over a whole batch, in batch order. */
  function ReconcileAll(db: Db, batch: seq<ParsedReview>, faults: seq<bool>): Db
    decreases |batch|
  {
    if batch == [] then db
    else ReconcileOne(ReconcileAll(db, batch[..|batch| - 1], faults), batch[|batch| - 1], FaultAt(faults, |batch| - 1))
  }

  /** Reconciling one more item of a batch is one more pass. */
  lemma ReconcileAllPrefix(db: Db, batch: seq<ParsedReview>, faults: seq<bool>, k: nat)
    requires k < |batch|
    ensures ReconcileAll(db, batch[..k + 1], faults) == ReconcileOne(ReconcileAll(db, batch[..k], faults), batch[k], FaultAt(faults, k))
  {
    assert batch[..k + 1][..k] == batch[..k];
  }

  /** One pass keeps the store valid: in particular a key is never stored twice. */
  lemma ReconcileOneValid(db: Db, data: ParsedReview, createFails: bool)
    requires ValidDb(db)
    ensures ValidDb(ReconcileOne(db, data, createFails))
  {
    var after := ReconcileOne(db, data, createFails);
    match FirstWithKey(db.reviews, KeyOf(data))
    case None =>
      if !createFails {
        assert after.reviews == db.reviews + [StoredReview(db.nextId, data)];
      }
    case Some(i) =>
      if !HasLink(db.reviews[i].review.spotifyAlbum) && HasLink(data.spotifyAlbum) {
        assert forall j :: 0 <= j < |db.reviews| ==>
          KeyOf(after.reviews[j].review) == KeyOf(db.reviews[j].review) && after.reviews[j].id == db.reviews[j].id;
      }
  }

  /** The whole loop keeps the store valid: no key is created twice, even one created earlier in the same batch. */
  lemma {:induction false} ReconcileAllValid(db: Db, batch: seq<ParsedReview>, faults: seq<bool>)
    requires ValidDb(db)
    ensures ValidDb(ReconcileAll(db, batch, faults))
    decreases |batch|
  {
    if batch != [] {
      var n := |batch|;
      ReconcileAllValid(db, batch[..n - 1], faults);
      ReconcileOneValid(ReconcileAll(db, batch[..n - 1], faults), batch[n - 1], FaultAt(faults, n - 1));
    }
  }

  /**
   * `after` grew from `before` by reconciliation: rows are only appended; an
   * existing row keeps its id and every field but the link; a row that had a
   * link keeps it, and a changed link is a real one; names and events only grow.
   */
  ghost predicate Evolves(before: Db, after: Db) {
    && |before.reviews| <= |after.reviews|
    && before.nextId <= after.nextId
    && before.log <= after.log
    && before.labels <= after.labels && before.artists <= after.artists && before.genres <= after.genres
    && forall i :: 0 <= i < |before.reviews| ==>
         var b := before.reviews[i];
         var a := after.reviews[i];
         && a.id == b.id
         && a.review == b.review.(spotifyAlbum := a.review.spotifyAlbum)
         && (HasLink(b.review.spotifyAlbum) ==> a == b)
         && (a.review.spotifyAlbum == b.review.spotifyAlbum || HasLink(a.review.spotifyAlbum))
  }

  lemma EvolvesTrans(a: Db, b: Db, c: Db)
    requires Evolves(a, b) && Evolves(b, c)
    ensures Evolves(a, c)
  {
    assert forall i :: 0 <= i < |a.reviews| ==> b.reviews[i].id == a.reviews[i].id;
  }

  lemma ReconcileOneEvolves(db: Db, data: ParsedReview, createFails: bool)
    ensures Evolves(db, ReconcileOne(db, data, createFails))
  {
  }

  /** Over a whole batch, only the links of existing rows change, and only from none to a real link. */
  lemma {:induction false} ReconcileAllEvolves(db: Db, batch: seq<ParsedReview>, faults: seq<bool>)
    ensures Evolves(db, ReconcileAll(db, batch, faults))
    decreases |batch|
  {
    if batch != [] {
      var n := |batch|;
      var mid := ReconcileAll(db, batch[..n - 1], faults);
      ReconcileAllEvolves(db, batch[..n - 1], faults);
      ReconcileOneEvolves(mid, batch[n - 1], FaultAt(faults, n - 1));
      EvolvesTrans(db, mid, ReconcileAll(db, batch, faults));
    }
  }

  /** The store already reflects `data`: a row holds its key, and it has a link if `data` has one. */
  ghost predicate Settled(db: Db, data: ParsedReview) {
    match FirstWithKey(db.reviews, KeyOf(data))
    case None => false
    case Some(i) => HasLink(data.spotifyAlbum) ==> HasLink(db.reviews[i].review.spotifyAlbum)
  }

  /** A settled review causes no write at all. */
  lemma SettledNoWrite(db: Db, data: ParsedReview, createFails: bool)
    requires Settled(db, data)
    ensures ReconcileOne(db, data, createFails) == db
  {
  }

  /** A pass whose create succeeds leaves its review settled. */
  lemma ReconcileOneSettles(db: Db, data: ParsedReview)
    ensures Settled(ReconcileOne(db, data, false), data)
  {
    var after := ReconcileOne(db, data, false);
    match FirstWithKey(db.reviews, KeyOf(data))
    case None =>
      var n := |db.reviews|;
      assert forall j :: 0 <= j < n ==> after.reviews[j] == db.reviews[j];
      assert FirstWithKey(after.reviews, KeyOf(data)) == Some(n) by {
        FirstWithKeyIs(after.reviews, KeyOf(data), n);
      }
    case Some(i) =>
      if !HasLink(db.reviews[i].review.spotifyAlbum) && HasLink(data.spotifyAlbum) {
        assert forall j :: 0 <= j < |db.reviews| ==> KeyOf(after.reviews[j].review) == KeyOf(db.reviews[j].review);
        FirstWithKeyIs(after.reviews, KeyOf(data), i);
      }
  }

  /** The first index holding the key is what the lookup returns. */
  lemma {:induction false} FirstWithKeyIs(rs: seq<StoredReview>, key: Key, i: nat)
    requires i < |rs| && KeyOf(rs[i].review) == key
    requires forall j :: 0 <= j < i ==> KeyOf(rs[j].review) != key
    ensures FirstWithKey(rs, key) == Some(i)
    decreases |rs|
  {
    if i > 0 {
      FirstWithKeyIs(rs[1..], key, i - 1);
    }
  }

  /** Settledness survives later reconciliation. */
  lemma SettledStable(before: Db, after: Db, data: ParsedReview)
    requires Settled(before, data) && Evolves(before, after)
    ensures Settled(after, data)
  {
    var i := FirstWithKey(before.reviews, KeyOf(data)).value;
    assert forall j :: 0 <= j <= i ==> KeyOf(after.reviews[j].review) == KeyOf(before.reviews[j].review);
    FirstWithKeyIs(after.reviews, KeyOf(data), i);
  }

  /** Without failing creates, every review of the batch ends up settled. */
  lemma {:induction false} ReconcileAllSettles(db: Db, batch: seq<ParsedReview>, faults: seq<bool>)
    requires forall k :: 0 <= k < |batch| ==> !FaultAt(faults, k)
    ensures forall k :: 0 <= k < |batch| ==> Settled(ReconcileAll(db, batch, faults), batch[k])
    decreases |batch|
  {
    if batch != [] {
      var n := |batch|;
      var mid := ReconcileAll(db, batch[..n - 1], faults);
      var after := ReconcileAll(db, batch, faults);
      ReconcileAllSettles(db, batch[..n - 1], faults);
      ReconcileOneEvolves(mid, batch[n - 1], false);
      forall k | 0 <= k < n - 1
        ensures Settled(after, batch[k])
      {
        assert batch[k] == batch[..n - 1][k];
        SettledStable(mid, after, batch[k]);
      }
      ReconcileOneSettles(mid, batch[n - 1]);
    }
  }

  /** A batch whose reviews are all settled writes nothing. */
  lemma {:induction false} SettledBatchNoWrite(db: Db, batch: seq<ParsedReview>, faults: seq<bool>)
    requires forall k :: 0 <= k < |batch| ==> Settled(db, batch[k])
    ensures ReconcileAll(db, batch, faults) == db
    decreases |batch|
  {
    if batch != [] {
      var n := |batch|;
      SettledBatchNoWrite(db, batch[..n - 1], faults);
      SettledNoWrite(db, batch[n - 1], FaultAt(faults, n - 1));
    }
  }

  /** Re-running a batch that went through without failures writes nothing and reports nothing. */
  lemma ReconcileIdempotent(db: Db, batch: seq<ParsedReview>, faults: seq<bool>)
    ensures ReconcileAll(ReconcileAll(db, batch, []), batch, faults) == ReconcileAll(db, batch, [])
  {
    ReconcileAllSettles(db, batch, []);
    SettledBatchNoWrite(ReconcileAll(db, batch, []), batch, faults);
  }

  /** A stored row without a link meeting the same key with a link: exactly that row's link is set. */
  lemma BackfillOnlyLink(db: Db, i: nat, data: ParsedReview, createFails: bool)
    requires ValidDb(db) && i < |db.reviews| && KeyOf(db.reviews[i].review) == KeyOf(data)
    requires !HasLink(db.reviews[i].review.spotifyAlbum) && HasLink(data.spotifyAlbum)
    ensures ReconcileOne(db, data, createFails).reviews
            == db.reviews[i := db.reviews[i].(review := db.reviews[i].review.(spotifyAlbum := data.spotifyAlbum))]
  {
    FirstWithKeyIs(db.reviews, KeyOf(data), i);
  }

  /** With ids strictly increasing, looking a row up by its id finds that row. */
  lemma {:induction false} RowWithIdOf(rs: seq<StoredReview>, i: nat)
    requires i < |rs|
    requires forall a, b :: 0 <= a < b < |rs| ==> rs[a].id < rs[b].id
    ensures RowWithId(rs, rs[i].id) == Some(i)
    decreases |rs|
  {
    if i > 0 {
      assert rs[0].id < rs[i].id;
      RowWithIdOf(rs[1..], i - 1);
    }
  }

  /** The review store as the scraper sees it: rows are found, created and updated one call at a time. */
  class ReviewStore {
    var reviews: seq<StoredReview>
    var nextId: nat
    var labels: set<string>
    var artists: set<string>
    var genres: set<string>
    var log: seq<Event>

    function State(): Db
      reads this
    {
      Db(reviews, nextId, labels, artists, genres, log)
    }

    ghost predicate Valid()
      reads this
    {
      ValidDb(State())
    }

    /** An empty store; ids start at 1. */
    constructor ()
      ensures Valid() && State() == Db([], 1, {}, {}, {}, [])
    {
      reviews := [];
      nextId := 1;
      labels := {};
      artists := {};
      genres := {};
      log := [];
    }

    /** `findFirst` by album title, author and score. */
    method FindFirst(key: Key) returns (found: Option<StoredReview>)
      ensures found.None? <==> FirstWithKey(reviews, key).None?
      ensures found.Some? ==> found.value == reviews[FirstWithKey(reviews, key).value]
    {
      var i := 0;
      while i < |reviews|
        invariant 0 <= i <= |reviews|
        invariant forall j :: 0 <= j < i ==> KeyOf(reviews[j].review) != key
      {
        if KeyOf(reviews[i].review) == key {
          FirstWithKeyIs(reviews, key, i);
          return Some(reviews[i]);
        }
        i := i + 1;
      }
      return None;
    }

    /** `create`; `fails` says whether the write is rejected, in which case it is only reported. */
    method Create(data: ParsedReview, fails: bool)
      modifies this
      ensures fails ==> State() == old(State()).(log := old(log) + [CreateFailed(data.albumTitle)])
      ensures !fails ==> State() == Insert(old(State()), data)
    {
      if fails {
        log := log + [CreateFailed(data.albumTitle)];
      } else {
        reviews := reviews + [StoredReview(nextId, data)];
        labels := labels + Names(data.labels);
        artists := artists + Names(data.artists);
        genres := genres + Names(data.genres);
        log := log + [Added(nextId, data.albumTitle)];
        nextId := nextId + 1;
      }
    }

    /** `update` where id: set the row's link. */
    method UpdateLink(id: nat, uri: string)
      requires RowWithId(reviews, id).Some?
      modifies this
      ensures State() == Backfill(old(State()), RowWithId(old(reviews), id).value, uri)
    {
      var i := 0;
      while reviews[i].id != id
        invariant 0 <= i <= RowWithId(reviews, id).value
        invariant forall j :: 0 <= j < i ==> reviews[j].id != id
        decreases |reviews| - i
      {
        i := i + 1;
      }
      RowWithIdFirst(reviews, id, i);
      var row := reviews[i];
      reviews := reviews[i := row.(review := row.review.(spotifyAlbum := Some(uri)))];
      log := log + [Updated(id, uri)];
    }

    /** The reconciliation loop over the collected reviews, reversed. */
    method Reconcile(collected: seq<ParsedReview>, faults: seq<bool>)
      requires Valid()
      modifies this
      ensures Valid()
      ensures State() == ReconcileAll(old(State()), Reverse(collected), faults)
    {
      var batch := Reverse(collected);
      for k := 0 to |batch|
        invariant Valid()
        invariant State() == ReconcileAll(old(State()), batch[..k], faults)
      {
        ReconcileReview(batch[k], FaultAt(faults, k));
        ReconcileAllPrefix(old(State()), batch, faults, k);
      }
      assert batch[..|batch|] == batch;
    }

    /** One pass of the reconciling loop: create the review when its key is new, otherwise fill in a missing album link. */
    method ReconcileReview(data: ParsedReview, fault: bool)
      requires Valid()
      modifies this
      ensures Valid()
      ensures State() == ReconcileOne(old(State()), data, fault)
    {
      var found := FindFirst(KeyOf(data));
      match found {
        case None =>
          Create(data, fault);
        case Some(row) =>
          if !HasLink(row.review.spotifyAlbum) && HasLink(data.spotifyAlbum) {
            RowWithIdOf(reviews, FirstWithKey(reviews, KeyOf(data)).value);
            UpdateLink(row.id, data.spotifyAlbum.value);
          }
      }
      ReconcileOneValid(old(State()), data, fault);
    }

    /**
     * scrapeReviews after the listing is parsed: drop the denylisted items,
     * let the queue tasks push their reviews in completion order, then
     * reconcile the collected list reversed. When a task is still retrying as
     * its remote answers run out, `queue.onIdle()` is not passed within those
     * answers and nothing is reconciled (`finished` is false).
     */
    method ScrapeReviews(listing: seq<ListingItem>, remotes: seq<Remote>, order: seq<nat>, faults: seq<bool>)
      returns (finished: bool)
      requires Valid()
      requires |remotes| == |KeepListed(listing)|
      requires IsCompletionOrder(order, |remotes|)
      modifies this
      ensures Valid()
      ensures finished == AllFinished(KeepListed(listing), remotes)
      ensures finished ==> State() == ReconcileAll(old(State()), Reverse(Collected(KeepListed(listing), remotes, order)), faults)
      ensures !finished ==> State() == old(State())
    {
      var kept := KeepListed(listing);
      finished := AllFinished(kept, remotes);
      if !finished {
        return;
      }
      var collected := CollectReviews(kept, remotes, order);
      Reconcile(collected, faults);
    }
  }

  /** One queue task: parse the review at listing position `i` and push it when the parse finished with one. */
  method RunTask(kept: seq<ListingItem>, remotes: seq<Remote>, i: nat) returns (pushed: seq<ParsedReview>)
    requires i < |kept| && i < |remotes|
    ensures pushed == Pushed(kept, remotes, i)
    ensures |pushed| <= 1
  {
    var outcome := ParseReview(kept[i], remotes[i]);
    if outcome.Parsed? {
      pushed := [outcome.review];
    } else {
      pushed := [];
    }
  }

  /** The queue tasks finishing in the order `order`, each pushing its parsed review, if any, onto `reviews`. */
  method CollectReviews(kept: seq<ListingItem>, remotes: seq<Remote>, order: seq<nat>)
    returns (collected: seq<ParsedReview>)
    requires |remotes| == |kept| && Below(order, |kept|)
    ensures collected == Collected(kept, remotes, order)
  {
    collected := [];
    ghost var all := PushedAll(kept, remotes);
    for k := 0 to |order|
      invariant collected == Gather(all, order[..k])
    {
      var pushed := RunTask(kept, remotes, order[k]);
      collected := collected + pushed;
      assert order[..k + 1][..k] == order[..k];
    }
    assert order[..|order|] == order;
  }

  /** The lookup by id stops at the first row with that id. */
  lemma {:induction false} RowWithIdFirst(rs: seq<StoredReview>, id: nat, i: nat)
    requires i < |rs| && rs[i].id == id
    requires forall j :: 0 <= j < i ==> rs[j].id != id
    ensures RowWithId(rs, id) == Some(i)
    decreases |rs|
  {
    if i > 0 {
      RowWithIdFirst(rs[1..], id, i - 1);
    }
  }
}
