/** The list page of the blog frontend: the posts loaded once from the
    API, the tag / search / page state that the page keeps, the filter and
    pagination computation that turns that state into the cards shown and the
    number of page buttons, and the collection of the tag buttons. The DOM
    is abstracted as the data handed to the renderers. */
module Blog {
  import opened JsValues
  import opened JsString
  import opened Seqs

  /** Posts shown on one page of the list. The specification functions below
      write this page size as the literal 5, which keeps their arithmetic
      linear for the verifier. */
  const POSTS_PER_PAGE: nat := 5

  /** A post as the list endpoint returns it (the body is not selected). */
  datatype Post = Post(
    id: int,
    title: Option<string>,
    slug: string,
    short_description: Option<string>,
    thumbnail: Option<string>,
    tags: Option<seq<string>>,
    display_date: string,
    series_name: Option<string>)

  /** `p.tags || []`: a post without tags has none. */
  function TagsOf(p: Post): (ts: seq<string>)
    ensures p.tags.None? ==> ts == []
    ensures p.tags.Some? ==> ts == p.tags.value
  {
    match p.tags
    case Some(ts) => ts
    case None => []
  }

  /** The tag filter's test: the tag is one of the post's tags. */
  predicate HasTag(p: Post, tag: string)
    ensures HasTag(p, tag) <==> p.tags.Some? && tag in p.tags.value
  {
    tag in TagsOf(p)
  }

  /** The search filter's test: the search text occurs in the lower-cased title
      or the lower-cased short description (a missing one reads as ''). */
  predicate MatchesSearch(p: Post, search: string)
    ensures search == "" ==> MatchesSearch(p, search)
    ensures MatchesSearch(p, search) <==>
              || (exists i: nat :: OccursAt(ToLower(OrEmpty(p.title)), search, i))
              || (exists i: nat :: OccursAt(ToLower(OrEmpty(p.short_description)), search, i))
  {
    || Includes(ToLower(OrEmpty(p.title)), search)
    || Includes(ToLower(OrEmpty(p.short_description)), search)
  }

  /** A post survives both filters; an empty tag or search switches its filter off. */
  predicate Kept(p: Post, tag: string, search: string) {
    && (tag != "" ==> HasTag(p, tag))
    && (search != "" ==> MatchesSearch(p, search))
  }

  /** The callback of the tag filter. */
  function TagTest(tag: string): Post -> bool {
    p => HasTag(p, tag)
  }

  /** The callback of the search filter. */
  function SearchTest(search: string): Post -> bool {
    p => MatchesSearch(p, search)
  }

  /** The list `renderFiltered` paginates: the tag filter, then the search filter. */
  function Filtered(posts: seq<Post>, tag: string, search: string): (r: seq<Post>)
    ensures forall p :: p in r <==> p in posts && Kept(p, tag, search)
    ensures tag != "" ==> forall p :: p in r ==> p.tags.Some? && tag in p.tags.value
    ensures tag == "" && search == "" ==> r == posts
    ensures |r| <= |posts|
  {
    var byTag := if tag != "" then Filter(posts, TagTest(tag)) else posts;
    if search != "" then Filter(byTag, SearchTest(search)) else byTag
  }

  /** The filtered list keeps the loaded posts' order and only leaves posts out. */
  lemma FilteredIsSubsequence(posts: seq<Post>, tag: string, search: string)
    ensures IsSubsequence(Filtered(posts, tag, search), posts)
  {
    var byTag := if tag != "" then Filter(posts, TagTest(tag)) else posts;
    if tag != "" {
      FilterIsSubsequence(posts, TagTest(tag));
    } else {
      SubsequenceReflexive(posts);
    }
    if search != "" {
      FilterIsSubsequence(byTag, SearchTest(search));
      SubsequenceTransitive(Filtered(posts, tag, search), byTag, posts);
    }
  }

  /** The filtered list holds each kept post exactly as often as the loaded
      posts do, and no other post; this fixes the count the pagination uses. */
  lemma FilteredKeepsCounts(posts: seq<Post>, tag: string, search: string, p: Post)
    ensures multiset(Filtered(posts, tag, search))[p] == if Kept(p, tag, search) then multiset(posts)[p] else 0
  {
    var byTag := if tag != "" then Filter(posts, TagTest(tag)) else posts;
    if tag != "" {
      FilterKeepsCounts(posts, TagTest(tag), p);
    }
    if search != "" {
      FilterKeepsCounts(byTag, SearchTest(search), p);
    }
  }

  /** Whether a post is kept depends on its tags, title and short description
      only: its body, slug, dates and other fields are never consulted. */
  lemma KeptReadsOnlyTagsTitleDescription(p: Post, q: Post, tag: string, search: string)
    requires p.tags == q.tags && p.title == q.title && p.short_description == q.short_description
    ensures Kept(p, tag, search) == Kept(q, tag, search)
  {
  }

  /** The search is case-insensitive on the post's side: the committed search
      text is lower case, and an upper-case title still matches it. */
  lemma SearchIgnoresTitleCase(p: Post)
    requires p.title == Some("Dafny Notes")
    ensures MatchesSearch(p, "dafny") && MatchesSearch(p, "notes")
  {
    var t := ToLower(OrEmpty(p.title));
    assert t == "dafny notes";
    assert OccursAt(t, "dafny", 0);
    assert OccursAt(t, "notes", 6);
  }

  /** `Math.ceil(n / d)` for a natural `n` and a positive `d`. */
  function CeilDiv(n: nat, d: nat): (q: nat)
    requires d > 0
    ensures (q - 1) * d < n <= q * d || (n == 0 && q == 0)
  {
    (n + d - 1) / d
  }

  /** `Math.max(1, Math.ceil(n / 5))`: at least one page, and
      exactly as many as it takes to hold `n` posts five at a time. */
  function TotalPages(n: nat): (r: nat)
    ensures r >= 1
    ensures n == 0 ==> r == 1
    ensures n > 0 ==> (r - 1) * 5 < n <= r * 5
  {
    Max(1, CeilDiv(n, 5))
  }

  /** The downward-only clamp of the current page. */
  function ClampDown(page: int, total: nat): (r: int)
    ensures r <= total && r <= page
    ensures page <= total ==> r == page
    ensures page > total ==> r == total
  {
    if page > total then total else page
  }

  /** `filtered.slice(start, start + 5)` with
      `start = (page - 1) * 5`. */
  function PageWindow(filtered: seq<Post>, page: int): (w: seq<Post>)
    ensures |w| <= 5
    ensures page >= 1 ==> w == filtered[Min((page - 1) * 5, |filtered|)..Min(page * 5, |filtered|)]
  {
    var start := (page - 1) * 5;
    Slice(filtered, start, start + 5)
  }

  /** The page count, written with the page-size constant. */
  lemma TotalPagesOfSize(n: nat)
    ensures TotalPages(n) == Max(1, CeilDiv(n, POSTS_PER_PAGE))
  {
  }

  /** The window, written with the page-size constant. */
  lemma PageWindowOfSize(filtered: seq<Post>, page: int)
    ensures PageWindow(filtered, page)
         == Slice(filtered, (page - 1) * POSTS_PER_PAGE, (page - 1) * POSTS_PER_PAGE + POSTS_PER_PAGE)
  {
  }

  /** On a page between 1 and the page count, the window is empty exactly
      when no post survived the filters. */
  lemma WindowEmptyIffNoResults(filtered: seq<Post>, page: int)
    requires 1 <= page <= TotalPages(|filtered|)
    ensures PageWindow(filtered, page) == [] <==> filtered == []
  {
    var n := |filtered|;
    if n > 0 {
      var t := TotalPages(n);
      assert (page - 1) * 5 <= (t - 1) * 5;
    }
  }

  /** Every filtered post is reachable: post `k` is entry `k % 5` of page
      `k / 5 + 1`, and that page is within the page count. */
  lemma PostOnPage(filtered: seq<Post>, k: nat)
    requires k < |filtered|
    ensures 1 <= k / 5 + 1 <= TotalPages(|filtered|)
    ensures var w := PageWindow(filtered, k / 5 + 1);
            k % 5 < |w| && w[k % 5] == filtered[k]
  {
    var page := k / 5 + 1;
    var t := TotalPages(|filtered|);
    assert (page - 1) * 5 <= k < page * 5;
  }

  /** What the card renderer is handed: the "no results" message, or cards
      for the window together with the filtered count. */
  datatype CardGrid = NoResults | Cards(posts: seq<Post>, totalCount: nat)

  /** What one `renderFiltered` hands to the renderers. */
  datatype View = View(cards: CardGrid, totalPages: nat)

  /** The branch of `renderPostCards`: an empty window shows "no results". */
  function PostCards(window: seq<Post>, totalCount: nat): (c: CardGrid)
    ensures c.NoResults? <==> window == []
    ensures c.Cards? ==> c.posts == window && c.totalCount == totalCount
  {
    if |window| == 0 then NoResults else Cards(window, totalCount)
  }

  /** The view for a filtered list shown at a given page. */
  function ViewOf(filtered: seq<Post>, page: int): View {
    View(PostCards(PageWindow(filtered, page), |filtered|), TotalPages(|filtered|))
  }

  /** On a clamped page, the view shows "no results" exactly when nothing
      survived the filters, and otherwise at most five cards, each one a
      filtered post. */
  lemma ClampedView(filtered: seq<Post>, page: int)
    requires 1 <= page <= TotalPages(|filtered|)
    ensures ViewOf(filtered, page).totalPages >= 1
    ensures ViewOf(filtered, page).cards.NoResults? <==> filtered == []
    ensures ViewOf(filtered, page).cards.Cards? ==>
              && |ViewOf(filtered, page).cards.posts| <= 5
              && ViewOf(filtered, page).cards.totalCount == |filtered|
              && forall p :: p in ViewOf(filtered, page).cards.posts ==> p in filtered
  {
    WindowEmptyIffNoResults(filtered, page);
  }

  /** All tags in order of appearance, post by post (`(p.tags || [])` flattened). */
  function AllTags(posts: seq<Post>): seq<string> {
    if posts == [] then [] else AllTags(posts[..|posts| - 1]) + TagsOf(posts[|posts| - 1])
  }

  /** The first occurrence of each tag, in order: the iteration order of a
      JavaScript `Set` filled by `add`. */
  function Dedup(s: seq<string>): seq<string> {
    if s == [] then []
    else
      var d := Dedup(s[..|s| - 1]);
      if s[|s| - 1] in d then d else d + [s[|s| - 1]]
  }

  predicate Distinct(s: seq<string>) {
    forall i, j :: 0 <= i < j < |s| ==> s[i] != s[j]
  }

  lemma {:induction false} DedupDistinct(s: seq<string>)
    ensures Distinct(Dedup(s))
  {
    if s != [] {
      DedupDistinct(s[..|s| - 1]);
    }
  }

  lemma {:induction false} DedupSameElements(s: seq<string>)
    ensures forall t :: t in Dedup(s) <==> t in s
  {
    if s != [] {
      DedupSameElements(s[..|s| - 1]);
      assert s == s[..|s| - 1] + [s[|s| - 1]];
    }
  }

  lemma {:induction false} AllTagsElements(posts: seq<Post>)
    ensures forall t :: t in AllTags(posts) <==> exists p :: p in posts && HasTag(p, t)
  {
    if posts != [] {
      var init := posts[..|posts| - 1];
      var last := posts[|posts| - 1];
      AllTagsElements(init);
      assert posts == init + [last];
      forall t
        ensures t in AllTags(posts) <==> exists p :: p in posts && HasTag(p, t)
      {
        if t in AllTags(posts) {
          if t in AllTags(init) {
            var p :| p in init && HasTag(p, t);
            assert p in posts;
          } else {
            assert HasTag(last, t);
          }
        }
      }
    }
  }

  /** The tag set is the union of every loaded post's tags, each once, in order
      of first appearance. */
  lemma DistinctTagsAreUnion(posts: seq<Post>)
    ensures Distinct(Dedup(AllTags(posts)))
    ensures forall t :: t in Dedup(AllTags(posts)) <==> exists p :: p in posts && HasTag(p, t)
  {
    DedupDistinct(AllTags(posts));
    DedupSameElements(AllTags(posts));
    AllTagsElements(posts);
  }

  /** Adding one tag to the collected set. */
  lemma DedupAppend(s: seq<string>, t: string)
    ensures Dedup(s + [t]) == if t in Dedup(s) then Dedup(s) else Dedup(s) + [t]
  {
    assert (s + [t])[..|s|] == s;
  }

  /** The tags of one more post. */
  lemma AllTagsAppend(posts: seq<Post>, i: nat)
    requires i < |posts|
    ensures AllTags(posts[..i + 1]) == AllTags(posts[..i]) + TagsOf(posts[i])
  {
    assert posts[..i + 1][..i] == posts[..i];
  }

  /** The inner `forEach`: the tags of one post added to the set collected
      so far from the tags `seen` before. */
  method AddTags(tags: seq<string>, ts: seq<string>, ghost seen: seq<string>) returns (r: seq<string>)
    requires tags == Dedup(seen)
    ensures r == Dedup(seen + ts)
  {
    r := tags;
    ghost var acc := seen;
    var j := 0;
    while j < |ts|
      invariant 0 <= j <= |ts|
      invariant acc == seen + ts[..j]
      invariant r == Dedup(acc)
    {
      DedupAppend(acc, ts[j]);
      if ts[j] !in r {
        r := r + [ts[j]];
      }
      acc := acc + [ts[j]];
      assert ts[..j + 1] == ts[..j] + [ts[j]];
      j := j + 1;
    }
    assert ts[..|ts|] == ts;
  }

  /** The tag collection of `initList`: every tag of every post added to a `Set`. */
  method CollectTags(posts: seq<Post>) returns (tags: seq<string>)
    ensures tags == Dedup(AllTags(posts))
  {
    tags := [];
    var i := 0;
    while i < |posts|
      invariant 0 <= i <= |posts|
      invariant tags == Dedup(AllTags(posts[..i]))
    {
      tags := AddTags(tags, TagsOf(posts[i]), AllTags(posts[..i]));
      AllTagsAppend(posts, i);
      i := i + 1;
    }
    assert posts[..|posts|] == posts;
  }

  /** The search text as committed: trimmed, then lower-cased. */
  function NormalizedSearch(input: string): (r: string)
    ensures |r| <= |input|
    ensures Trimmed(r)
    ensures forall k :: 0 <= k < |r| ==> !IsUpper(r[k])
  {
    ToLowerKeepsTrimmed(Trim(input));
    ToLower(Trim(input))
  }

  /** Committing an already committed search text changes nothing. */
  lemma NormalizedSearchIdempotent(input: string)
    ensures NormalizedSearch(NormalizedSearch(input)) == NormalizedSearch(input)
  {
    var t := Trim(input);
    ToLowerKeepsTrimmed(t);
    TrimTrimmed(ToLower(t));
    ToLowerIdempotent(t);
  }

  /** The committed search text is the lower-cased input with its white-space
      padding removed at both ends, and nothing else removed. */
  lemma NormalizedSearchDropsOnlyPadding(input: string)
    ensures exists i: nat :: PaddedAt(ToLower(input), NormalizedSearch(input), i)
  {
    TrimDropsOnlyPadding(input);
    var i: nat :| PaddedAt(input, Trim(input), i);
    ToLowerKeepsPadding(input, Trim(input), i);
    assert NormalizedSearch(input) == ToLower(Trim(input));
    assert PaddedAt(ToLower(input), NormalizedSearch(input), i);
  }

  /** A search text as `CommitSearch` leaves it: no white space at either end
      and no upper-case letter. */
  predicate IsCommittedSearch(s: string) {
    Trimmed(s) && forall k :: 0 <= k < |s| ==> !IsUpper(s[k])
  }

  /** The committed search texts are exactly the texts that committing
      leaves unchanged. */
  lemma CommittedSearchIsFixedPoint(s: string)
    ensures IsCommittedSearch(s) <==> NormalizedSearch(s) == s
  {
    if IsCommittedSearch(s) {
      TrimTrimmed(s);
      assert ToLower(s) == s;
    }
  }

  /** What `initList` shows once the posts are loaded. */
  datatype ListOutcome =
    | NoPostsYet
    | Listed(tags: seq<string>, view: View)

  /** The list page's state: the page-scoped variables of the script. */
  class ListPage {
    var allPosts: seq<Post>
    var currentTag: string
    var currentSearch: string
    var currentPage: int

    /** The state right after the posts were loaded. */
    constructor (loaded: seq<Post>)
      ensures allPosts == loaded
      ensures currentTag == "" && currentSearch == "" && currentPage == 1
      ensures IsCommittedSearch(currentSearch)
    {
      allPosts := loaded;
      currentTag := "";
      currentSearch := "";
      currentPage := 1;
    }

    /** The posts that survive the current filters. */
    function Visible(): seq<Post>
      reads this`allPosts, this`currentTag, this`currentSearch
    {
      Filtered(allPosts, currentTag, currentSearch)
    }

    /** `renderFiltered`: filter, count the pages, clamp the page down, and
        hand the window and the page count to the renderers. */
    method RenderFiltered() returns (v: View)
      modifies this`currentPage
      ensures currentPage == ClampDown(old(currentPage), TotalPages(|Visible()|))
      ensures old(currentPage) >= 1 ==> currentPage >= 1
      ensures v == ViewOf(Visible(), currentPage)
    {
      var filtered := Filtered(allPosts, currentTag, currentSearch);
      assert filtered == Visible();
      var totalPages := Max(1, CeilDiv(|filtered|, POSTS_PER_PAGE));
      TotalPagesOfSize(|filtered|);
      if currentPage > totalPages {
        currentPage := totalPages;
      }
      assert Visible() == filtered;
      var start := (currentPage - 1) * POSTS_PER_PAGE;
      var paginated := Slice(filtered, start, start + POSTS_PER_PAGE);
      PageWindowOfSize(filtered, currentPage);
      v := View(PostCards(paginated, |filtered|), totalPages);
    }

    /** `initList` after a successful load: nothing to list, or the tag
        buttons and the first rendering. */
    method InitList() returns (r: ListOutcome)
      modifies this`currentPage
      ensures allPosts == [] ==> r == NoPostsYet && currentPage == old(currentPage)
      ensures allPosts != [] ==>
                && currentPage == ClampDown(old(currentPage), TotalPages(|Visible()|))
                && r == Listed(Dedup(AllTags(allPosts)), ViewOf(Visible(), currentPage))
    {
      if |allPosts| == 0 {
        return NoPostsYet;
      }
      var tags := CollectTags(allPosts);
      var v := RenderFiltered();
      r := Listed(tags, v);
    }

    /** `filterByTag`: select a tag (or '' for all) and go back to page 1. */
    method FilterByTag(tag: string) returns (v: View)
      modifies this`currentTag, this`currentPage
      ensures currentTag == tag && currentPage == 1
      ensures allPosts == old(allPosts) && currentSearch == old(currentSearch)
      ensures v == ViewOf(Visible(), 1)
    {
      currentTag := tag;
      currentPage := 1;
      assert ClampDown(1, TotalPages(|Visible()|)) == 1;
      v := RenderFiltered();
    }

    /** The body of the debounced search handler: commit the trimmed,
        lower-cased input and go back to page 1. */
    method CommitSearch(input: string) returns (v: View)
      modifies this`currentSearch, this`currentPage
      ensures currentSearch == NormalizedSearch(input) && currentPage == 1
      ensures IsCommittedSearch(currentSearch)
      ensures allPosts == old(allPosts) && currentTag == old(currentTag)
      ensures v == ViewOf(Visible(), 1)
    {
      currentSearch := NormalizedSearch(input);
      currentPage := 1;
      assert ClampDown(1, TotalPages(|Visible()|)) == 1;
      v := RenderFiltered();
    }

    /** `goToPage`: take the page as given, without validation; only the
        rendering clamps it down. */
    method GoToPage(page: int) returns (v: View)
      modifies this`currentPage
      ensures currentPage == ClampDown(page, TotalPages(|Visible()|))
      ensures allPosts == old(allPosts) && currentTag == old(currentTag) && currentSearch == old(currentSearch)
      ensures v == ViewOf(Visible(), currentPage)
    {
      currentPage := page;
      v := RenderFiltered();
    }
  }
}
