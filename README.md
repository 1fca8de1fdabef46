# Blog list page and sync proxy — a Dafny model

This project models two small pieces of the blog. They share one post record: the eight fields the worker's list query selects, which is also what the list page loads.

- **The list page** (`blog/blog.js`). The script keeps four page-scoped
  variables: `allPosts`, `currentTag`, `currentSearch` and `currentPage`.
  `renderFiltered` filters the loaded posts by tag, then by a
  case-insensitive search over title and short description. It computes
  the page count, clamps the current page down, and slices out a window of
  five posts. The window and the filtered count go to the card renderer,
  and the page count goes to the pagination renderer. `filterByTag`,
  `goToPage` and the debounced search handler change the state and render
  again. `initList` gathers the tag buttons once from all loaded posts.
- **The proxy** (`worker/worker.js`). `fetch` routes a request by method
  and path. `handleSync` checks a bearer secret, then walks the content
  source's post summaries one at a time. For each summary it fetches the
  detail, skips the summary when the detail is absent, and otherwise
  builds a row with fallbacks and upserts it. `handleGetPost` turns the
  store's reply into the post or "Post not found". `handleGetPosts` passes
  a tag filter only when the `tag` parameter is non-empty.

Files:

- `js_values.dfy`: JSON fields that may be `null`, and JavaScript's `||` on them.
- `js_string.dfy`: `trim`, `toLowerCase`, `indexOf`/`includes`,
  `startsWith` and first-occurrence `replace`.
- `seqs.dfy`: `filter` and `slice` (including negative indices), and
  order-preserving subsequences.
- `blog.dfy`: the filter and pagination functions, the tag collection
  loop, and the class `ListPage` that holds the four state variables.
- `worker.dfy`: routing, the bearer guard, the row merge, the sync loop and
  the detail decision.

How the outside world is represented:

- The content source is a sequence of summaries plus a function from slug
  to an optional detail.
- The store is three functions: whether an upsert succeeds, the reply to
  the list query, and the reply to the lookup by slug.
- What the worker does to both is returned as a trace of `Effect`s, in the
  order it issues them. This makes statements like "no call is made before
  the secret is checked" expressible.
- The browser's DOM is represented only by the data handed to the
  renderers: a `View` made of the card grid and the page count.

## Model

| member | source | states |
|---|---|---|
| `JsValues.Or` | worker/worker.js:69-70 | JavaScript's or-fallback on optional strings: the left operand when it is present and non-empty, otherwise the right |
| `JsValues.OrEmpty` | blog/blog.js:75-76 | the empty-string fallback: a missing title or description reads as the empty string |
| `JsValues.OrNull` | worker/worker.js:70-72 | the null fallback: present exactly when `s` is non-empty, and then equal to it |
| `JsString.Trim` | blog/blog.js:49 | the result neither starts nor ends with ECMAScript white space |
| `JsString.TrimDropsOnlyPadding` | blog/blog.js:49 | the result is one contiguous piece of the input, and everything before and after that piece is white space |
| `JsString.TrimTrimmed` | blog/blog.js:49 | a string with no white space at either end is left as it is |
| `JsString.TrimIdempotent` | blog/blog.js:49 | trimming twice equals trimming once |
| `JsString.TrimBlank` | blog/blog.js:49 | an all-white-space input commits an empty search |
| `JsString.ToLower` | blog/blog.js:75-76 | same length; each character mapped by the lower-case mapping |
| `JsString.ToLowerIdempotent` | blog/blog.js:49 | no upper-case letter is left, and lower-casing again changes nothing |
| `JsString.LowerCharKeepsSpace` | blog/blog.js:49 | a character is white space exactly when its lower-case form is |
| `JsString.ToLowerKeepsTrimmed` | blog/blog.js:49 | lower-casing a trimmed string leaves it trimmed |
| `JsString.ToLowerKeepsPadding` | blog/blog.js:49 | lower-casing a string that is a core padded with white space gives the lower-cased core, padded at the same place |
| `JsString.IndexOf` | blog/blog.js:75-76 | -1 when the needle never occurs, otherwise the index of its first occurrence |
| `JsString.Includes` | blog/blog.js:75-76 | true exactly when the needle occurs at some index; the empty needle always does |
| `JsString.StartsWith` | worker/worker.js:35 | true exactly when the string is the prefix followed by some rest, that is, when the prefix occurs at index 0 |
| `JsString.ReplaceFirst` | worker/worker.js:36 | with no occurrence of the pattern the string is unchanged; otherwise the first occurrence, and only that one, is replaced |
| `JsString.ReplacePrefix` | worker/worker.js:35-36 | on a path that starts with the prefix, replacing the first occurrence drops exactly that prefix, even if the pattern occurs again later |
| `Seqs.Filter` | blog/blog.js:69 | the result keeps exactly the input's elements that the test accepts, and is no longer than the input |
| `Seqs.FilterKeepsCounts` | blog/blog.js:69 | every accepted element is kept as many times as it occurs in the input, and every other element is dropped entirely |
| `Seqs.FilterIsSubsequence` | blog/blog.js:74-77 | what `filter` returns embeds into its input at strictly increasing positions |
| `Seqs.SubsequenceTransitive` | blog/blog.js:65-78 | a subsequence of a subsequence is a subsequence, so chained filters keep the order |
| `Seqs.SubsequenceReflexive` | blog/blog.js:65 | the unfiltered list is a subsequence of itself |
| `Seqs.RelativeIndex` | blog/blog.js:84 | ECMAScript's relative index: a negative index counts from the end; the result is clamped to the length |
| `Seqs.Slice` | blog/blog.js:84 | for `0 <= start <= end`, the slice is the elements from `start` to `end`, both capped at the length, so at most `end - start` of them |
| `Blog.TagsOf` | blog/blog.js:69 | a post with missing tags has none; otherwise its own list |
| `Blog.HasTag` | blog/blog.js:69 | a post has a tag exactly when its tag list is present and contains the tag; a post without tags has none |
| `Blog.MatchesSearch` | blog/blog.js:74-77 | a post matches exactly when the search text occurs somewhere in its lower-cased title or in its lower-cased short description; the empty search matches every post |
| `Blog.Filtered` | blog/blog.js:64-78 | a post is in the filtered list exactly when it was loaded, has the current tag (if one is set) and matches the search (if one is set). With a tag set, every kept post has a tag list containing it, so a post without tags never matches. With neither set, the list is `allPosts` itself |
| `Blog.FilteredKeepsCounts` | blog/blog.js:64-78 | the filtered list holds every kept post exactly as often as the loaded posts do, and no other post, so the count handed to the pagination is fixed |
| `Blog.FilteredIsSubsequence` | blog/blog.js:65-78 | the filtered list is an order-preserving subsequence of the loaded posts |
| `Blog.KeptReadsOnlyTagsTitleDescription` | blog/blog.js:68-77 | whether a post is kept depends only on its tags, title and short description |
| `Blog.SearchIgnoresTitleCase` | blog/blog.js:74-77 | a post titled "Dafny Notes" matches the committed searches "dafny" and "notes" |
| `Blog.CeilDiv` | blog/blog.js:80 | `Math.ceil(n / d)`: the least `q` with `n <= q * d` |
| `Blog.TotalPages` | blog/blog.js:80 | at least one page. No posts gives exactly one page; otherwise just enough pages of five to hold every post |
| `Blog.ClampDown` | blog/blog.js:81 | the page after the clamp is at most the page count and never above the page before it. It is unchanged when already in range, and equal to the page count when above it |
| `Blog.PageWindow` | blog/blog.js:83-84 | at most five posts. For a page `p >= 1` they are the filtered posts from `(p-1)*5` to `p*5`, capped at the list's length |
| `Blog.WindowEmptyIffNoResults` | blog/blog.js:80-84 | on a page between 1 and the page count, the window is empty exactly when the filtered list is empty |
| `Blog.PostOnPage` | blog/blog.js:80-84 | filtered post `k` is entry `k % 5` of page `k / 5 + 1`, and that page is within the page count |
| `Blog.PostCards` | blog/blog.js:94-97 | "no results" exactly when the window is empty; otherwise the cards are the window and the filtered count |
| `Blog.ClampedView` | blog/blog.js:80-97 | on a clamped page, "no results" is shown exactly when nothing survived the filters. Otherwise at most five cards are shown, all of them filtered posts, with the filtered count |
| `Blog.DedupDistinct` | blog/blog.js:38-39 | the tags collected into the set have no duplicates |
| `Blog.DedupSameElements` | blog/blog.js:38-39 | the set holds exactly the tags that were added to it |
| `Blog.AllTagsElements` | blog/blog.js:39 | the flattened tag lists hold exactly the tags of some loaded post; posts without tags add nothing |
| `Blog.DistinctTagsAreUnion` | blog/blog.js:38-39 | the collected tags are the union of every loaded post's tags, each once, whatever the current filters |
| `Blog.DedupAppend` | blog/blog.js:39 | adding a tag to the set appends it when it is new and changes nothing when it is already there |
| `Blog.AllTagsAppend` | blog/blog.js:39 | one more post adds its own tags (none when it has no tag list) after the tags gathered so far |
| `Blog.AddTags` | blog/blog.js:39 | the inner `forEach` over one post's tags leaves the distinct tags of everything seen so far followed by that post's tags |
| `Blog.CollectTags` | blog/blog.js:38-39 | the loop leaves the distinct tags of all loaded posts, in order of first appearance (the iteration order of a `Set`) |
| `Blog.NormalizedSearch` | blog/blog.js:49 | the committed search text is no longer than the input, has no white space at either end, and has no upper-case letter |
| `Blog.NormalizedSearchDropsOnlyPadding` | blog/blog.js:49 | the committed search text is one contiguous piece of the lower-cased input, with only white space before and after it |
| `Blog.NormalizedSearchIdempotent` | blog/blog.js:49 | committing an already committed search text changes nothing |
| `Blog.CommittedSearchIsFixedPoint` | blog/blog.js:49 | a text has no white space at either end and no upper-case letter exactly when committing it leaves it unchanged |
| `Blog.ListPage.constructor` | blog/blog.js:8-11 | the loaded posts, no tag, no search, page 1; the empty search is a committed search text |
| `Blog.ListPage.RenderFiltered` | blog/blog.js:64-88 | the page becomes the clamped page. A page of 1 or more stays 1 or more. The view is the window of the filtered list at the new page, with the page count |
| `Blog.ListPage.InitList` | blog/blog.js:32-56 | with no posts, "no posts yet" and nothing rendered. Otherwise the distinct tags of all posts and the first rendering |
| `Blog.ListPage.FilterByTag` | blog/blog.js:135-145 | the tag is set and the page is 1, even after the clamp. The search and the posts are untouched. The view is page 1 of the new filtered list |
| `Blog.ListPage.CommitSearch` | blog/blog.js:49-51 | the search becomes the trimmed, lower-cased input and the page is 1. The tag and the posts are untouched. The search is left a committed text (no white space at either end, no upper-case letter); the other methods never change it, so this holds in every state |
| `Blog.ListPage.GoToPage` | blog/blog.js:173-177 | the page is taken unvalidated and then only clamped down. The filters are untouched |
| `Worker.BuildRow` | worker/worker.js:64-76 | the row never stores an empty thumbnail or series name (both become `null`), a stored thumbnail is the detail's or the summary's, and the row is keyed by the detail's id and slug |
| `Worker.BuildRowFields` | worker/worker.js:64-76 | identity, title, body and both dates come from the detail. The description is the detail's, else the summary's, else `''`. The thumbnail is the detail's, else the summary's, else `null`. The tags are the detail's (kept even when empty), else `[]`. The series name is the detail series' non-empty name, else `null` |
| `Worker.SummaryOnlyFillsGaps` | worker/worker.js:64-76 | two summaries with the same detail give rows that differ at most in description and thumbnail, and not at all when the detail has both |
| `Worker.RouteOf` | worker/worker.js:21-39 | every `OPTIONS` request is a preflight. Sync is exactly `POST /api/sync`, and the list is exactly `GET /api/posts`. A single post is exactly a `GET` under `/api/posts/`, with the path equal to the prefix followed by the slug. Everything else is not found |
| `Worker.Authorized` | worker/worker.js:49-50 | the guard passes exactly when a header is present, starts with `Bearer ` and the rest of it is the secret itself: a missing header, another scheme or any extra text fails |
| `Worker.SyncEffectsAppend` | worker/worker.js:58-80 | one more summary adds exactly its own step to the effects of the loop so far |
| `Worker.RowsForAppend` | worker/worker.js:58-80 | one more summary adds exactly its own row, if any, after the rows so far |
| `Worker.PresentIndicesStep` | worker/worker.js:61-79 | one more summary raises the count of summaries with a detail by one exactly when its detail is present |
| `Worker.SyncUpsertsRowsInOrder` | worker/worker.js:57-80 | the sync loop upserts one row per summary whose detail is present, in summary order, and none for the others, whether or not each upsert fails |
| `Worker.RowsForCount` | worker/worker.js:57-80 | the number of rows upserted equals the number of summaries whose detail is present |
| `Worker.SyncSkipsMissingDetail` | worker/worker.js:57-80 | three summaries whose middle detail is missing give two upserts (first and third) and a count of two |
| `Worker.SyncOne` | worker/worker.js:59-79 | one pass of the loop: the detail is fetched; when it is absent nothing else happens and nothing is counted; otherwise its row is upserted, a failed upsert is logged, and one is counted |
| `Worker.SyncAll` | worker/worker.js:57-80 | the loop's effects are the steps of the summaries in order, and its count is the number of rows it upserts |
| `Worker.HandleSync` | worker/worker.js:47-83 | a wrong or missing header gives 401 with no effect at all. Otherwise the summaries are fetched once, then each detail is fetched and its row upserted in order, and a failed upsert is only logged. The count returned is the number of summaries whose detail is present |
| `Worker.PostResponse` | worker/worker.js:118-121 | 404 "Post not found" exactly when the store's reply is absent or empty; otherwise 200 with its first row as it is |
| `Worker.Fetch` | worker/worker.js:20-43 | a preflight gives an empty 200 with no effect, and an unknown route gives 404 "Not Found" with no effect. Sync answers 401 "Unauthorized" with no effect when unauthorised. Otherwise it answers 200 with the number of summaries whose detail is present, after the sync effects. The list makes one select, filtered by the `tag` parameter exactly when that parameter is non-empty. It returns the reply: posts with the eight selected fields and no body. A single post makes one lookup by the slug and answers with the detail decision |

## Left out

- Network I/O: every `fetch`, `res.json()` and JSON serialisation in both files is left out, and the replies are inputs. No reply status is checked except the upsert's, which only logs. A content-source reply without data becomes an empty summary list (worker/worker.js:147) or an absent detail (worker/worker.js:176), and both of these are modelled. A request that is rejected, or a reply whose body is not JSON, throws. The worker catches that as a 500 (worker/worker.js:40-42), and the page shows "Failed to load posts." (blog/blog.js:57-58). Neither is modelled.
- `initList`'s own request (blog/blog.js:28-29): the loaded posts are the constructor's argument. A `null` reply is modelled as the empty list.
- DOM output: the HTML built in `renderPostCards`, `renderTags` and `renderPagination`, and `loadPost`, are UI. Only the data handed to them is modelled: the card grid (or "no results") and the page count.
- `escapeHtml` depends on the browser's serialisation of text nodes, and `formatDate` on `Date` parsing and the local time zone. Neither is modelled.
- `marked` and `hljs` are foreign libraries and are not modelled.
- The debounce timer (`setTimeout`/`clearTimeout`) and `window.scrollTo` are left out. Only the committed search update (`CommitSearch`) is modelled.
- `synced_at` is a clock reading and is not part of `Row`.
- The contents of the worker's CORS headers (worker/worker.js:13-17, 204) and the formatting of its query strings are left out.
- The list reply is an input of the post shape that the list query's `select` names (worker/worker.js:89). That the store returns those rows newest `display_date` first is not modelled.
- Store semantics: which rows the upsert's conflict resolution merges, and what the lookup by slug returns, are not modelled. A store reply that is neither an array nor `null`, such as an error object, is not modelled either. `handleGetPost` would answer such a reply with 200 and its `data[0]`, not with 404.
- `JsString.ToLower`: it maps only the ASCII letters A-Z. JavaScript's `toLowerCase` also lower-cases other scripts, so search matching on titles with non-ASCII upper-case letters is not captured.
- Values are typed: a non-integer or non-numeric page argument to `goToPage`, and non-string or non-array JSON fields, are outside the model. Pages are unbounded integers, and a page below 1 follows `slice`'s negative-index rule through `Seqs.Slice`.
- An unset `SYNC_SECRET` makes the source compare against the text `Bearer undefined`. The model takes the secret as a given string.
