/** The serverless proxy: it routes requests, mirrors the blogging
    platform's posts into the store (`handleSync`), and serves the stored
    posts (`handleGetPosts`, `handleGetPost`).

    Its network partners are parameters. The content source is the list of
    post summaries together with the detail lookup by slug. The store is the
    outcome of each upsert plus the results of its two read queries. What
    the worker does to them is returned as a trace of effects, in the order
    it issues them. */
module Worker {
  import opened JsValues
  import opened JsString
  import Blog

  /** A post summary from the content source's list query. */
  datatype Summary = Summary(
    id: string,
    title: string,
    url_slug: string,
    short_description: Option<string>,
    thumbnail: Option<string>,
    released_at: string,
    tags: Option<seq<string>>)

  datatype Series = Series(name: Option<string>)

  /** A post's detail from the content source's detail query. */
  datatype Detail = Detail(
    id: string,
    title: string,
    url_slug: string,
    body: string,
    short_description: Option<string>,
    thumbnail: Option<string>,
    released_at: string,
    tags: Option<seq<string>>,
    series: Option<Series>)

  /** The row upserted into the store's `posts` table (without `synced_at`). */
  datatype Row = Row(
    velog_id: string,
    title: string,
    slug: string,
    body: string,
    short_description: string,
    thumbnail: Option<string>,
    tags: seq<string>,
    series_name: Option<string>,
    display_date: string,
    original_date: string)

  /** The row built from a summary and its detail. The `|| null` fallbacks
      mean that an empty thumbnail or series name is stored as `null`, never
      as ''; the row is keyed by the detail's own id and slug. */
  function BuildRow(summary: Summary, detail: Detail): (row: Row)
    ensures row.thumbnail != Some("") && row.series_name != Some("")
    ensures row.thumbnail.Some? ==> row.thumbnail == detail.thumbnail || row.thumbnail == summary.thumbnail
    ensures row.velog_id == detail.id && row.slug == detail.url_slug
  {
    Row(
      velog_id := detail.id,
      title := detail.title,
      slug := detail.url_slug,
      body := detail.body,
      short_description := OrEmpty(Or(detail.short_description, summary.short_description)),
      thumbnail := OrNull(Or(detail.thumbnail, summary.thumbnail)),
      tags := match detail.tags case Some(ts) => ts case None => [],
      series_name := OrNull(match detail.series case Some(s) => s.name case None => None),
      display_date := detail.released_at,
      original_date := detail.released_at)
  }

  /** Where each field of a row comes from. */
  lemma BuildRowFields(summary: Summary, detail: Detail)
    ensures var row := BuildRow(summary, detail);
      // identity, content and dates come from the detail alone
      && row.velog_id == detail.id && row.slug == detail.url_slug
      && row.title == detail.title && row.body == detail.body
      && row.display_date == detail.released_at && row.original_date == detail.released_at
      // the description: the detail's, else the summary's, else ''
      && (Truthy(detail.short_description) ==> row.short_description == detail.short_description.value)
      && (!Truthy(detail.short_description) && Truthy(summary.short_description) ==>
            row.short_description == summary.short_description.value)
      && (!Truthy(detail.short_description) && !Truthy(summary.short_description) ==>
            row.short_description == "")
      // the thumbnail: the detail's, else the summary's, else null
      && (Truthy(detail.thumbnail) ==> row.thumbnail == detail.thumbnail)
      && (!Truthy(detail.thumbnail) && Truthy(summary.thumbnail) ==> row.thumbnail == summary.thumbnail)
      && (!Truthy(detail.thumbnail) && !Truthy(summary.thumbnail) ==> row.thumbnail == None)
      // the tags: the detail's (an empty list is kept), else []
      && (detail.tags.Some? ==> row.tags == detail.tags.value)
      && (detail.tags.None? ==> row.tags == [])
      // the series name: a non-empty name of the detail's series, else null
      && (row.series_name.Some? <==> detail.series.Some? && Truthy(detail.series.value.name))
      && (row.series_name.Some? ==> row.series_name == detail.series.value.name)
  {
  }

  /** The summary only ever supplies a missing description or thumbnail: two
      summaries with the same detail give rows that differ at most there, and
      not at all when the detail has both. */
  lemma SummaryOnlyFillsGaps(s1: Summary, s2: Summary, detail: Detail)
    ensures BuildRow(s1, detail).(short_description := "", thumbnail := None)
         == BuildRow(s2, detail).(short_description := "", thumbnail := None)
    ensures Truthy(detail.short_description) && Truthy(detail.thumbnail) ==>
              BuildRow(s1, detail) == BuildRow(s2, detail)
  {
  }

  /** Where a request goes. */
  datatype Route = Preflight | SyncRoute | ListRoute | PostRoute(slug: string) | NoRoute

  const POSTS_PATH := "/api/posts"
  const POST_PREFIX := "/api/posts/"
  const SYNC_PATH := "/api/sync"

  /** The routing of `fetch`, tried in order: any `OPTIONS`, then sync, the
      list, a single post, and nothing else. */
  function RouteOf(verb: string, path: string): (r: Route)
    ensures verb == "OPTIONS" ==> r == Preflight
    ensures r == SyncRoute <==> verb == "POST" && path == SYNC_PATH
    ensures r == ListRoute <==> verb == "GET" && path == POSTS_PATH
    ensures r.PostRoute? <==> verb == "GET" && StartsWith(path, POST_PREFIX)
    ensures r.PostRoute? ==> path == POST_PREFIX + r.slug
    ensures r == NoRoute <==>
              && verb != "OPTIONS"
              && !(verb == "POST" && path == SYNC_PATH)
              && !(verb == "GET" && (path == POSTS_PATH || StartsWith(path, POST_PREFIX)))
  {
    if verb == "OPTIONS" then Preflight
    else if path == SYNC_PATH && verb == "POST" then SyncRoute
    else if path == POSTS_PATH && verb == "GET" then ListRoute
    else if StartsWith(path, POST_PREFIX) && verb == "GET" then
      ReplacePrefix(path, POST_PREFIX);
      PostRoute(ReplaceFirst(path, POST_PREFIX, ""))
    else NoRoute
  }

  /** The sync guard: the `Authorization` header is exactly `Bearer <secret>`.
      A missing header never passes, and neither does a header with another
      scheme, a different token, or extra text before or after it. */
  predicate Authorized(authorization: Option<string>, secret: string)
    ensures Authorized(authorization, secret) <==>
              && authorization.Some?
              && StartsWith(authorization.value, "Bearer ")
              && authorization.value[7..] == secret
  {
    match authorization
    case None => false
    case Some(header) =>
      assert |header| >= 7 ==> header == header[..7] + header[7..];
      header == "Bearer " + secret
  }

  /** The content source: the summary list and the detail lookup by slug. */
  datatype ContentSource = ContentSource(summaries: seq<Summary>, detailOf: string -> Option<Detail>)

  /** The store: whether an upsert of a row succeeds, the list query's result
      for a tag filter, and the lookup by slug (`None` for a `null` reply). */
  datatype Store = Store(
    upsertOk: Row -> bool,
    list: Option<string> -> seq<Blog.Post>,
    lookup: string -> Option<seq<Row>>)

  /** What the worker does to its partners, in order. */
  datatype Effect =
    | FetchSummaries
    | FetchDetail(slug: string)
    | Upsert(row: Row)
    | LogUpsertFailure(row: Row)
    | SelectPosts(tag: Option<string>)
    | SelectPost(slug: string)

  /** One iteration of the sync loop. */
  function SyncStep(summary: Summary, source: ContentSource, store: Store): seq<Effect> {
    match source.detailOf(summary.url_slug)
    case None => [FetchDetail(summary.url_slug)]
    case Some(detail) =>
      var row := BuildRow(summary, detail);
      [FetchDetail(summary.url_slug), Upsert(row)] + (if store.upsertOk(row) then [] else [LogUpsertFailure(row)])
  }

  /** The sync loop over a list of summaries, in their order. */
  function SyncEffects(summaries: seq<Summary>, source: ContentSource, store: Store): seq<Effect> {
    if summaries == [] then []
    else SyncEffects(summaries[..|summaries| - 1], source, store) + SyncStep(summaries[|summaries| - 1], source, store)
  }

  lemma SyncEffectsAppend(summaries: seq<Summary>, i: nat, source: ContentSource, store: Store)
    requires i < |summaries|
    ensures SyncEffects(summaries[..i + 1], source, store)
         == SyncEffects(summaries[..i], source, store) + SyncStep(summaries[i], source, store)
  {
    assert summaries[..i + 1][..i] == summaries[..i];
  }

  /** The rows a sync should upsert: one per summary whose detail is present,
      in summary order. */
  function RowsFor(summaries: seq<Summary>, detailOf: string -> Option<Detail>): seq<Row> {
    if summaries == [] then []
    else
      var last := summaries[|summaries| - 1];
      RowsFor(summaries[..|summaries| - 1], detailOf)
        + match detailOf(last.url_slug) case Some(d) => [BuildRow(last, d)] case None => []
  }

  /** One more summary adds its own rows at the end. */
  lemma RowsForAppend(summaries: seq<Summary>, i: nat, detailOf: string -> Option<Detail>)
    requires i < |summaries|
    ensures RowsFor(summaries[..i + 1], detailOf) == RowsFor(summaries[..i], detailOf) + RowsFor([summaries[i]], detailOf)
  {
    assert summaries[..i + 1][..i] == summaries[..i];
    assert [summaries[i]][..0] == [];
  }

  /** The rows upserted in a trace, in order. */
  function Upserted(effects: seq<Effect>): seq<Row> {
    if effects == [] then []
    else (if effects[0].Upsert? then [effects[0].row] else []) + Upserted(effects[1..])
  }

  lemma {:induction false} UpsertedAppend(a: seq<Effect>, b: seq<Effect>)
    ensures Upserted(a + b) == Upserted(a) + Upserted(b)
  {
    if a == [] {
      assert a + b == b;
    } else {
      var head := if a[0].Upsert? then [a[0].row] else [];
      assert (a + b)[0] == a[0];
      assert (a + b)[1..] == a[1..] + b;
      assert Upserted(a + b) == head + Upserted(a[1..] + b);
      UpsertedAppend(a[1..], b);
      assert Upserted(a) == head + Upserted(a[1..]);
    }
  }

  /** The positions of the first `n` summaries whose detail is present. */
  ghost function PresentIndices(summaries: seq<Summary>, detailOf: string -> Option<Detail>, n: nat): set<nat>
    requires n <= |summaries|
  {
    set i: nat | i < n && detailOf(summaries[i].url_slug).Some?
  }

  lemma PresentIndicesStep(summaries: seq<Summary>, detailOf: string -> Option<Detail>, n: nat)
    requires n < |summaries|
    ensures |PresentIndices(summaries, detailOf, n + 1)|
         == |PresentIndices(summaries, detailOf, n)| + (if detailOf(summaries[n].url_slug).Some? then 1 else 0)
  {
    var before := PresentIndices(summaries, detailOf, n);
    if detailOf(summaries[n].url_slug).Some? {
      assert PresentIndices(summaries, detailOf, n + 1) == before + {n};
    } else {
      assert PresentIndices(summaries, detailOf, n + 1) == before;
    }
  }

  /** Exactly one upsert per summary with a detail, in summary order, none for
      the others; whether an upsert fails has no bearing on what is upserted. */
  lemma {:induction false} SyncUpsertsRowsInOrder(summaries: seq<Summary>, source: ContentSource, store: Store)
    ensures Upserted(SyncEffects(summaries, source, store)) == RowsFor(summaries, source.detailOf)
  {
    if summaries != [] {
      var init := summaries[..|summaries| - 1];
      var last := summaries[|summaries| - 1];
      SyncUpsertsRowsInOrder(init, source, store);
      UpsertedAppend(SyncEffects(init, source, store), SyncStep(last, source, store));
      match source.detailOf(last.url_slug)
      case None =>
      case Some(d) =>
        var row := BuildRow(last, d);
        var tail := if store.upsertOk(row) then [] else [LogUpsertFailure(row)];
        UpsertedAppend([FetchDetail(last.url_slug), Upsert(row)], tail);
    }
  }

  /** The number of rows a sync upserts is the number of summaries whose
      detail is present. */
  lemma {:induction false} RowsForCount(summaries: seq<Summary>, detailOf: string -> Option<Detail>)
    ensures |RowsFor(summaries, detailOf)| == |PresentIndices(summaries, detailOf, |summaries|)|
  {
    if summaries != [] {
      var n := |summaries| - 1;
      var init := summaries[..n];
      RowsForCount(init, detailOf);
      assert PresentIndices(init, detailOf, n) == PresentIndices(summaries, detailOf, n);
      PresentIndicesStep(summaries, detailOf, n);
    }
  }

  /** Three summaries whose middle one has no detail: two rows, for the first
      and the third, and a count of two. */
  lemma SyncSkipsMissingDetail(s1: Summary, s2: Summary, s3: Summary, source: ContentSource, store: Store)
    requires source.summaries == [s1, s2, s3]
    requires source.detailOf(s1.url_slug).Some?
    requires source.detailOf(s2.url_slug).None?
    requires source.detailOf(s3.url_slug).Some?
    ensures Upserted(SyncEffects(source.summaries, source, store))
         == [BuildRow(s1, source.detailOf(s1.url_slug).value), BuildRow(s3, source.detailOf(s3.url_slug).value)]
    ensures |PresentIndices(source.summaries, source.detailOf, 3)| == 2
  {
    var ss := source.summaries;
    var d := source.detailOf;
    SyncUpsertsRowsInOrder(ss, source, store);
    assert [s1][..0] == [];
    assert RowsFor([s1], d) == [BuildRow(s1, d(s1.url_slug).value)];
    assert [s1, s2][..1] == [s1];
    assert RowsFor([s1, s2], d) == [BuildRow(s1, d(s1.url_slug).value)];
    assert ss[..2] == [s1, s2];
    assert PresentIndices(ss, source.detailOf, 3) == {0, 2};
  }

  datatype Body =
    | NoBody
    | ErrorBody(error: string)
    | SyncMessage(synced: nat)
    | PostList(posts: seq<Blog.Post>)
    | PostBody(post: Row)

  datatype Response = Response(status: nat, body: Body)

  /** One pass of the loop of `handleSync`: fetch the summary's detail; skip
      the summary when there is none, otherwise upsert its row, log a failed
      upsert, and count it. */
  method SyncOne(post: Summary, source: ContentSource, store: Store) returns (step: seq<Effect>, added: nat)
    ensures step == SyncStep(post, source, store)
    ensures added == |RowsFor([post], source.detailOf)|
  {
    var detail := source.detailOf(post.url_slug);
    step := [FetchDetail(post.url_slug)];
    added := 0;
    if detail.Some? {
      var row := BuildRow(post, detail.value);
      step := step + [Upsert(row)];
      if !store.upsertOk(row) {
        step := step + [LogUpsertFailure(row)];
      }
      added := 1;
    }
    assert [post][..0] == [];
  }

  /** The loop of `handleSync`, over the summaries in order. */
  method SyncAll(source: ContentSource, store: Store) returns (synced: nat, effects: seq<Effect>)
    ensures effects == SyncEffects(source.summaries, source, store)
    ensures synced == |RowsFor(source.summaries, source.detailOf)|
  {
    var posts := source.summaries;
    effects := [];
    synced := 0;
    for i := 0 to |posts|
      invariant effects == SyncEffects(posts[..i], source, store)
      invariant synced == |RowsFor(posts[..i], source.detailOf)|
    {
      SyncEffectsAppend(posts, i, source, store);
      RowsForAppend(posts, i, source.detailOf);
      var step, added := SyncOne(posts[i], source, store);
      effects := effects + step;
      synced := synced + added;
    }
    assert posts[..|posts|] == posts;
  }

  /** `handleSync`: the guard, then the summaries, then the loop. */
  method HandleSync(authorization: Option<string>, secret: string, source: ContentSource, store: Store)
    returns (resp: Response, effects: seq<Effect>)
    ensures !Authorized(authorization, secret) ==>
              resp == Response(401, ErrorBody("Unauthorized")) && effects == []
    ensures Authorized(authorization, secret) ==>
              && effects == [FetchSummaries] + SyncEffects(source.summaries, source, store)
              && resp == Response(200, SyncMessage(|PresentIndices(source.summaries, source.detailOf, |source.summaries|)|))
  {
    if !Authorized(authorization, secret) {
      return Response(401, ErrorBody("Unauthorized")), [];
    }
    var synced, loopEffects := SyncAll(source, store);
    RowsForCount(source.summaries, source.detailOf);
    effects := [FetchSummaries] + loopEffects;
    resp := Response(200, SyncMessage(synced));
  }

  /** The decision of `handleGetPost`: a `null` reply or an empty array is
      "Post not found"; otherwise the first row, as it is. */
  function PostResponse(data: Option<seq<Row>>): (resp: Response)
    ensures resp.status == 404 <==> data.None? || data.value == []
    ensures resp.status == 404 ==> resp.body == ErrorBody("Post not found")
    ensures resp.status != 404 ==> resp == Response(200, PostBody(data.value[0]))
  {
    if data.None? || |data.value| == 0 then Response(404, ErrorBody("Post not found"))
    else Response(200, PostBody(data.value[0]))
  }

  datatype Request = Request(
    verb: string,
    path: string,
    authorization: Option<string>,
    tagParam: Option<string>)

  /** `fetch`: dispatch a request to its handler. */
  method Fetch(request: Request, secret: string, source: ContentSource, store: Store)
    returns (resp: Response, effects: seq<Effect>)
    ensures RouteOf(request.verb, request.path) == Preflight ==>
              resp == Response(200, NoBody) && effects == []
    ensures RouteOf(request.verb, request.path) == NoRoute ==>
              resp == Response(404, ErrorBody("Not Found")) && effects == []
    ensures RouteOf(request.verb, request.path) == SyncRoute ==>
              && resp == (if Authorized(request.authorization, secret)
                          then Response(200, SyncMessage(|PresentIndices(source.summaries, source.detailOf, |source.summaries|)|))
                          else Response(401, ErrorBody("Unauthorized")))
              && effects == (if Authorized(request.authorization, secret)
                             then [FetchSummaries] + SyncEffects(source.summaries, source, store)
                             else [])
    ensures RouteOf(request.verb, request.path) == ListRoute ==>
              && effects == [SelectPosts(OrNull(request.tagParam))]
              && resp == Response(200, PostList(store.list(OrNull(request.tagParam))))
    ensures RouteOf(request.verb, request.path).PostRoute? ==>
              var slug := RouteOf(request.verb, request.path).slug;
              effects == [SelectPost(slug)] && resp == PostResponse(store.lookup(slug))
  {
    var verb, path := request.verb, request.path;
    if verb == "OPTIONS" {
      return Response(200, NoBody), [];
    }
    if path == SYNC_PATH && verb == "POST" {
      resp, effects := HandleSync(request.authorization, secret, source, store);
      return;
    }
    if path == POSTS_PATH && verb == "GET" {
      // `handleGetPosts` filters by tag only when the `tag` parameter is truthy.
      var filter := OrNull(request.tagParam);
      return Response(200, PostList(store.list(filter))), [SelectPosts(filter)];
    }
    if StartsWith(path, POST_PREFIX) && verb == "GET" {
      var slug := ReplaceFirst(path, POST_PREFIX, "");
      return PostResponse(store.lookup(slug)), [SelectPost(slug)];
    }
    return Response(404, ErrorBody("Not Found")), [];
  }
}
