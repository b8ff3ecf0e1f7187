# Code201 content cache and page logic, in Dafny

This project models the client-side logic of the Code201 learning site:

- **The content cache** (`src/services/dataService.ts`). The site's JSON documents are fetched from `/data/<endpoint>.json` and kept in the browser's `localStorage` under `codeveda_<endpoint>` for 24 hours. When a request fails, the cache falls back to whatever the key still holds. `clearCache` drops every `codeveda_` key. The file also holds the blog search and the blog category filter.
- **The DSA problem tracker** (`src/pages/DSA.tsx`). Each question carries completed and starred flags. These are merged field by field and persisted as one map under `dsa_progress`. The file also covers the completion statistics, the search-and-difficulty filter over steps, lectures and questions, and the expand/collapse toggles.
- **The listing filters**:
  - blogs (`src/pages/Blogs.tsx`): a category filter then a search; a featured/regular split; a category colour lookup;
  - resources (`src/pages/Resources.tsx`): a search-and-type filter; the de-duplicated type list; type colours and labels; truncated tags;
  - projects (`src/pages/Projects.tsx`): a three-way filter; difficulty colours; truncated features.
- **The small markup rewriters**:
  - the blog reader's line classifier (`src/components/ui/blog-reader.tsx`);
  - the guide dialog's paragraph, code-fence and bold rewriting (`src/components/ui/guide-details.tsx`);
  - the guide page's lookup, section HTML and separators (`src/pages/GuideDetail.tsx`).

How the model is built:

- **The store.** `localStorage` is the `Storage` class, whose `items` map holds parsed values. A value is one of three things:
  - a cache entry `{data, timestamp, expires}`;
  - the tracker's progress map;
  - text that `JSON.parse` rejects.
- **Outside inputs.** The clock is a parameter. So are the network outcome of a request (a delivered body, or a failure) and the quota verdict for a write.
- **Stateful code** becomes classes whose methods change fields in place and are proved equal to specification functions:
  - `DataService` (over the shared `Storage`);
  - the tracker page `DsaTracker.DsaPage`;
  - the blogs page `BlogsPage.Page`;
  - the guide page `GuideDetailPage.Page`.
- **Pure filters and rewriters** are functions with lemmas.
- **JavaScript semantics are modelled explicitly:**
  - `trim()` uses JavaScript's whitespace set;
  - `toLowerCase` covers ASCII letters only;
  - `includes` is substring containment;
  - `split`, `join` and the global literal `replace` use leftmost, non-overlapping occurrences;
  - `[...new Set(xs)]` keeps first occurrences;
  - the lazy bold pattern's `.` does not cross line terminators.

Where the code and its own comments disagree, the model follows the code:

- **Stale fallback.** The catch branch of `fetchData` is commented "Return cached data even if expired as fallback" (`src/services/dataService.ts:29-33`). But `getFromCache` removes an expired entry first (`:45-47`), so after an expired entry a failed request ends in the error. The fallback can only return an unexpired entry whose data is falsy (`ContentCache.Fetch`, `ContentCache.TtlWindow`).
- **Corrupt entries.** A stored value that `JSON.parse` rejects is not treated as a miss. The parse at `src/services/dataService.ts:42` is unguarded, so `fetchData` rejects with that error (`Error.CorruptEntry`). The progress load at `src/pages/DSA.tsx:76` likewise throws, and the progress map is not replaced.

## Model

| member | source | states |
|---|---|---|
| ContentCache.ReadCache | src/services/dataService.ts:38-51 | An error exactly when the key holds unparsable text. A truthy hit exactly when the key holds an entry that is unexpired (`now <= expires`) with truthy data, and the hit is that data. The key is removed exactly when its entry is expired. |
| ContentCache.Fetch | src/services/dataService.ts:10-36 | A request is made exactly on a miss: nothing stored, or an entry that is expired or whose data is falsy. A stored, unexpired entry with truthy data is returned with no request and no store change. A stored value that does not parse gives the parse error, with no request and no store change. The request is for `/data/<endpoint>.json`. An expired entry is removed before the request, so a failed request after it ends in the error. A delivered body is returned and, if the write fits, stored with `expires = now + 86400000`. After a failed request, or a write over quota, the store is what the read left. So a failed request returns the data stored before the call when that entry was unexpired (that data is then falsy), and with nothing stored it ends in the fetch error. No other key changes. |
| ContentCache.TtlWindow | src/services/dataService.ts:45-58 | After a miss at time `t` that fetches truthy data, that data is served with no request from `t` up to and including 24 hours later. One millisecond after that, a request is made, and if it fails the call ends in the error. |
| ContentCache.FailedWriteStillReturns | src/services/dataService.ts:53-65 | On a miss, when the quota rejects the write, the fetched data is still returned and the store only loses an expired entry. |
| ContentCache.Cleared | src/services/dataService.ts:67-74 | A key survives a clear exactly when it is present and does not start with `codeveda_`. Surviving values are unchanged. |
| ContentCache.ClearCacheScope | src/services/dataService.ts:67-74 | `dsa_progress` survives a clear. Clearing twice is the same as clearing once. |
| ContentCache.SearchBlogs | src/services/dataService.ts:81-92 | A blank or whitespace-only query returns the posts unchanged. Otherwise the result is an order-preserving subsequence. Every post in it matches the lowercased, untrimmed query in its title, excerpt, content, category or a tag. Every matching post is kept, as many times as it occurs in the input. |
| ContentCache.SearchIgnoresQueryCase | src/services/dataService.ts:82-84 | Lowercasing the query first does not change the search result. |
| ContentCache.FilterBlogsByCategory | src/services/dataService.ts:94-97 | `""` and `"All"` return the posts unchanged. Otherwise the result is the order-preserving subsequence of exactly the posts whose category equals the argument, each as many times as it occurs in the input. |
| ContentCache.DataService.GetFromCache | src/services/dataService.ts:38-51 | Returns what `ReadCache` returns, and leaves the store as `ReadCache` does. |
| ContentCache.DataService.SaveToCache | src/services/dataService.ts:53-65 | Stores `{data, now, now + 24h}` under the key when the write fits. Otherwise the store is unchanged. |
| ContentCache.DataService.FetchData | src/services/dataService.ts:10-36 | Result, request and new store are exactly those of `Fetch` on the old store. |
| ContentCache.DataService.ClearCache | src/services/dataService.ts:67-74 | A loop over a snapshot of the keys removes the prefixed ones. The new store is `Cleared` of the old one. |
| ContentCache.DataService.GetBlogPosts | src/services/dataService.ts:77-79 | Is `fetchData('blogs')`. |
| Seqs.Filter | src/services/dataService.ts:85-91 | `filter` keeps exactly the elements satisfying the predicate, in their original order: the result is a subsequence of the input, each kept value occurs as often as in the input, and each other value not at all. |
| Seqs.FilterAppend | src/pages/DSA.tsx:203-213 | Filtering a concatenation filters each part. |
| Seqs.FilterPartition | src/pages/Blogs.tsx:157-158 | A filter and its complement split the input: their multisets add up to it and so do their lengths. |
| Seqs.FilterNonEmpty | src/pages/Blogs.tsx:150 | A filter keeps something exactly when some element satisfies the predicate. |
| Seqs.IsSubseqTransitive | src/pages/Blogs.tsx:39-51 | Filtering a filtered list still gives a subsequence of the original. |
| Seqs.FindIndex | src/pages/Blogs.tsx:63 | The first position satisfying the predicate, or none when no element does. |
| Seqs.Dedup | src/pages/Resources.tsx:77 | `[...new Set(xs)]` has the same members as `xs`, each once. |
| Seqs.DedupKeepsFirstOccurrenceOrder | src/pages/Resources.tsx:77 | The de-duplicated values come in the order of their first occurrences. |
| Seqs.Take | src/pages/Projects.tsx:178 | `slice(0, n)` is the first `min(n, length)` elements. |
| Strings.LeadingRun | src/components/ui/blog-reader.tsx:52-55 | A greedy `p*` consumes the longest prefix whose characters satisfy `p`. |
| Strings.Split | src/components/ui/blog-reader.tsx:31 | `split` gives at least one piece and at most one more than the text has characters. |
| Strings.SplitJoin | src/components/ui/blog-reader.tsx:31 | Joining the pieces of `split(sep)` with `sep` gives back the original text. |
| Strings.SplitPiecesAvoidSeparator | src/components/ui/guide-details.tsx:79 | No piece of `split(sep)` contains `sep`. |
| Strings.ReplaceAllIsJoinOfSplit | src/pages/GuideDetail.tsx:214 | A global literal replace is the split pieces joined with the replacement. |
| Strings.ReplaceAll | src/pages/GuideDetail.tsx:214 | A replacement no longer than the pattern never lengthens the text, and one no shorter never shortens it. |
| Strings.ReplaceAllPlainPrefix | src/components/ui/guide-details.tsx:82 | Text without the pattern's first character is copied unchanged, and the replacement goes on after it. |
| Strings.ReplaceAllLeavesNoRun | src/components/ui/guide-details.tsx:82 | Replacing every run of `n` copies of a character with text free of that character leaves no such run. |
| Strings.LowerIdempotent | src/services/dataService.ts:84 | Lowercasing twice is lowercasing once. |
| DsaTracker.Merge | src/pages/DSA.tsx:83-89 | A field set by the update takes its new value. A field the update leaves out keeps the stored value, or `false` when there is no record. |
| DsaTracker.SavedProgress | src/pages/DSA.tsx:82-90 | The record saved at `id` is the merge of the stored record with the update. The new map has the old ids plus `id`, and every other id keeps its record. |
| DsaTracker.SavesCombine | src/pages/DSA.tsx:81-92 | Saving `completed` and then `starred` for one question, in either order, keeps both. |
| DsaTracker.LoadedProgress | src/pages/DSA.tsx:73-78 | The progress map changes only when `dsa_progress` holds a value that parses. A stored progress map is loaded as it was stored. |
| DsaTracker.FlipProperties | src/pages/DSA.tsx:377-453 | The checkbox flips only `completed` and the star only `starred`. A missing record reads as both false. Flipping twice restores the record. |
| DsaTracker.Toggled | src/pages/DSA.tsx:142-160 | A toggle flips the membership of exactly the given id. |
| DsaTracker.ToggleTwice | src/pages/DSA.tsx:142-160 | Toggling the same id twice restores the set. |
| DsaTracker.CountsBounded | src/pages/DSA.tsx:178-190 | easy + medium + hard <= completed <= total. |
| DsaTracker.ProgressStats | src/pages/DSA.tsx:164-199 | Without steps every count is 0. Otherwise `total` is the number of questions across all steps and lectures, and `completed` counts the question occurrences marked completed. Easy, medium and hard count the completed ones by lowercased difficulty. The bounds above hold. |
| DsaTracker.FilterLectures | src/pages/DSA.tsx:205-212 | Every kept lecture has questions left, and all of them are accepted. |
| DsaTracker.FilterSteps | src/pages/DSA.tsx:203-213 | Every kept step has lectures left, each kept as above. |
| DsaTracker.FilteredSteps | src/pages/DSA.tsx:203-213 | Every kept step and lecture is non-empty, and every kept question's lowercased name contains the lowercased query and its difficulty equals the filter unless that is `"All"`. |
| DsaTracker.FilterLecturesIsMapThenFilter | src/pages/DSA.tsx:205-212 | The lecture filter is the component's `map` then `filter`: the original lectures in order, each with its questions filtered, dropped exactly when none is left. |
| DsaTracker.FilterStepsIsMapThenFilter | src/pages/DSA.tsx:203-213 | The step filter is the same `map` then `filter` one level up: the original steps in order, each with its lectures filtered, dropped exactly when none is left. |
| DsaTracker.FilterLecturesFlattens | src/pages/DSA.tsx:205-212 | The questions of the filtered lectures are the filter of all their questions, in order. |
| DsaTracker.FilteredStepsKeepExactlyTheMatches | src/pages/DSA.tsx:203-213 | The questions left in the filtered tree are exactly the matching questions of the whole tree, in the same order. |
| DsaTracker.DsaPage.constructor | src/pages/DSA.tsx:66-68 | Progress starts empty. Both expansion sets start as `{1}`. |
| DsaTracker.DsaPage.LoadProgress | src/pages/DSA.tsx:73-78 | A missing `dsa_progress` leaves progress unchanged, and a stored map replaces it. Unparsable text throws and leaves it unchanged. |
| DsaTracker.DsaPage.SaveProgress | src/pages/DSA.tsx:81-92 | Progress becomes the merged map. The whole new map is written under `dsa_progress` when the write fits. |
| DsaTracker.DsaPage.ToggleCompleted | src/pages/DSA.tsx:377-387 | Only the question's `completed` flips, and the map is persisted. |
| DsaTracker.DsaPage.ToggleStarred | src/pages/DSA.tsx:453 | Only the question's `starred` flips, and the map is persisted. |
| DsaTracker.DsaPage.ToggleStepExpansion | src/pages/DSA.tsx:142-150 | The step set is toggled at the id. Nothing else changes. |
| DsaTracker.DsaPage.ToggleLectureExpansion | src/pages/DSA.tsx:152-160 | The lecture set is toggled at the id. Nothing else changes. |
| BlogsPage.VisiblePosts | src/pages/Blogs.tsx:39-51 | The category step applies only when the category is not `"All"`, and the search step only when the query's `trim()` is not empty. The result is an order-preserving subsequence of the posts, holding exactly the posts that pass both steps, each as many times as it occurs in the input. |
| BlogsPage.ListingView | src/pages/Blogs.tsx:142-226 | An empty list shows "No blogs found". Otherwise the featured and regular sections partition the list: each post is in exactly one, in original order. The featured section is shown exactly when some post is featured. The heading is "Latest Posts" for `"All"`, else `"<category> Posts"`. |
| BlogsPage.CategoryColor | src/pages/Blogs.tsx:62-65 | The colour of the first category with that name, or `primary` when there is none or the colour is empty. The result is never empty. |
| BlogsPage.Page.constructor | src/pages/Blogs.tsx:13-17 | Initial state: no data, no posts, loading, empty query, category `"All"`. |
| BlogsPage.Page.Refilter | src/pages/Blogs.tsx:36-52 | Without loaded posts nothing changes. Otherwise `filteredPosts` becomes `VisiblePosts` of them. |
| BlogsPage.Page.LoadData | src/pages/Blogs.tsx:20-34 | Loading ends. A loaded document replaces `blogsData`, and the list becomes its posts (or `[]`) as filtered by the current selections. A `null` or `undefined` payload, or a failed fetch, leaves the list as it was. Any other falsy payload (`0`, `false`, `""`) sets the list to `[]`. |
| BlogsPage.Page.SetSearchQuery | src/pages/Blogs.tsx:118 | Setting the query re-runs the filter. |
| BlogsPage.Page.SetCategory | src/pages/Blogs.tsx:122 | Setting the category re-runs the filter. |
| ResourcesPage.FilteredResources | src/pages/Resources.tsx:67-75 | A missing list gives `[]`. Otherwise the result is an order-preserving subsequence of exactly the resources that match the search (name, description or a tag) and the type (`"all"` or equal), each as many times as it occurs in the input. |
| ResourcesPage.EmptyQueryMatches | src/pages/Resources.tsx:67-70 | The empty query matches every resource. |
| ResourcesPage.UnfilteredShowsAll | src/pages/Resources.tsx:67-75 | With the empty query and `"all"`, the whole list is shown in order. |
| ResourcesPage.ResourceTypes | src/pages/Resources.tsx:77 | Each type of the resources appears exactly once, and nothing else appears. |
| ResourcesPage.ResourceTypesInFirstOccurrenceOrder | src/pages/Resources.tsx:77 | The types come in the order of their first occurrence. |
| ResourcesPage.TypeColor | src/pages/Resources.tsx:79-89 | The six known types get their classes. The plain gray default is returned exactly for an unknown type. |
| ResourcesPage.TypeLabel | src/pages/Resources.tsx:135 | The first character is uppercased and the rest is unchanged. Lowercased, the label equals the lowercased type. |
| ResourcesPage.CardTags | src/pages/Resources.tsx:168-177 | At most the first three tags are shown. A `+n` badge appears exactly when there are more than three, and the shown tags plus `n` account for all tags. |
| ProjectsPage.FilteredProjects | src/pages/Projects.tsx:56-66 | A missing list gives `[]`. Otherwise the result is an order-preserving subsequence of exactly the projects that match the search, the difficulty (`"all"` or equal) and the category (`"All"` or equal), each as many times as it occurs in the input. |
| ProjectsPage.SentinelsLeaveOnlySearch | src/pages/Projects.tsx:62-63 | With `"all"` and `"All"` selected only the search filters. |
| ProjectsPage.DifficultySentinelIsLowercase | src/pages/Projects.tsx:62 | A capitalised `"All"` difficulty is not the sentinel: it keeps only projects whose difficulty is literally `"All"`. |
| ProjectsPage.DifficultyColor | src/pages/Projects.tsx:68-75 | The three levels get their classes. The gray default is returned exactly for any other difficulty. |
| ProjectsPage.FeaturesShown | src/pages/Projects.tsx:178 | The first `min(3, n)` features. |
| BlogReader.FormatLine | src/components/ui/blog-reader.tsx:32-70 | A heading, bullet or numbered line is its block's text with only the matched prefix removed: `"## "`, `"### "`, `"- "`, or the digits, dot and following whitespace. A numbered item's text does not start with whitespace. A paragraph's text is the line itself. |
| BlogReader.FormatLineKinds | src/components/ui/blog-reader.tsx:32-70 | Each kind of block comes from exactly the lines its own test accepts. `"### "` lines are h3, not h2. Fence lines are hidden and whitespace-only lines are breaks. `^\d+\.` lines are numbered items. |
| BlogReader.FormatContent | src/components/ui/blog-reader.tsx:30-72 | One block per `'\n'`-separated line, in order, each classified on its own (so lines between fences fall through to the other rules). |
| GuideDetails.StripFenceOpenersKeepsPlainText | src/components/ui/guide-details.tsx:82 | Text without a fence passes the `/```\w*\n?/g` pass unchanged. |
| GuideDetails.StripFenceOpeners | src/components/ui/guide-details.tsx:82 | The opener pass, which removes each fence with the word characters and the one optional newline after it, never lengthens the text. |
| GuideDetails.CodeText | src/components/ui/guide-details.tsx:82 | The code shown contains no three-backtick run and is no longer than the piece. |
| GuideDetails.CodeTextKeepsPlainText | src/components/ui/guide-details.tsx:82 | Code without a backtick is shown as it is. |
| GuideDetails.CodeTextDropsOpener | src/components/ui/guide-details.tsx:82 | Text before an opener (the fence, a language word, a newline) is kept as it is, the opener is removed, and the rest is treated the same way. |
| GuideDetails.CodeTextOfFencedBlock | src/components/ui/guide-details.tsx:82 | A fenced block with a language word and a closing fence shows exactly its backtick-free code. |
| GuideDetails.CloseAt | src/components/ui/guide-details.tsx:91 | The lazy `(.*?)` ends at the first `**` after the opener, provided no line terminator comes before it. Otherwise every later `**` is preceded by a line terminator. |
| GuideDetails.CloseAtFirst | src/components/ui/guide-details.tsx:91 | The lazy match ends at the first `**` with no line terminator before it. |
| GuideDetails.Emphasize | src/components/ui/guide-details.tsx:91 | The bold rewrite never shortens the text, and it keeps the length only when it changes nothing. |
| GuideDetails.EmphasizeSpan | src/components/ui/guide-details.tsx:91 | `**x**`, with no asterisk or line terminator inside, becomes `<strong>x</strong>`, and the rewrite goes on after it. |
| GuideDetails.EmphasizeKeepsStarlessText | src/components/ui/guide-details.tsx:91 | Text without `*` is not changed by the bold rewrite. |
| GuideDetails.EmphasizeRoundTrip | src/components/ui/guide-details.tsx:91 | On text without `<`, turning `<strong>`/`</strong>` back into `**` gives the original: only the asterisk pairs changed. |
| GuideDetails.RenderPiece | src/components/ui/guide-details.tsx:81-98 | A piece becomes a code block exactly when it contains a fence. The code block holds the piece's code text, which contains no fence. Any other piece gets the bold rewrite. |
| GuideDetails.SectionParagraphs | src/components/ui/guide-details.tsx:79-100 | One paragraph per `"\n\n"`-separated piece, in order. |
| GuideDetails.NumberedSteps | src/components/ui/guide-details.tsx:123-127 | Steps are numbered from 1, in order. |
| GuideDetails.GuideDetailsView | src/components/ui/guide-details.tsx:14-127 | A missing guide renders nothing. Introduction and conclusion appear exactly when present and non-empty. Sections appear in order, or none without a sections list. Steps are numbered from 1. |
| GuideDetailPage.FindGuide | src/pages/GuideDetail.tsx:23 | The first guide whose id equals the route parameter, or none when no guide has it. |
| GuideDetailPage.Paragraphed | src/pages/GuideDetail.tsx:214 | Every `"\n\n"` is replaced by the paragraph boundary: the result is the pieces joined by it, and no `"\n\n"` is left. |
| GuideDetailPage.SectionHtml | src/pages/GuideDetail.tsx:214 | The bold rewrite after the paragraph rewrite never shortens it. Section text without `*` comes out as the paragraph rewrite alone. |
| GuideDetailPage.SectionEntries | src/pages/GuideDetail.tsx:202-222 | Sections are numbered from 1 in order. Each gets the rewritten HTML. A separator follows every section except the last. |
| GuideDetailPage.Page.constructor | src/pages/GuideDetail.tsx:15-16 | No guide, loading. |
| GuideDetailPage.Page.LoadGuide | src/pages/GuideDetail.tsx:19-30 | Loading ends. A loaded guide list sets the guide to the lookup result, which may be none, and the "Guide not found" view then shows. A failed load, or a payload without `beginnerGuides`, leaves the guide as it was, which after a change of guide id is the previous guide. |

## Left out

- Rendering is not modelled: React, JSX and the CSS class strings are left out, except the default-fallback lookups above. The constant presentation tables are also left out: the DSA difficulty colours, the type icons, and the roadmap, highlight and social-link maps.
- Hooks and effect scheduling are reduced to explicit method calls. `LoadData` runs the filter effect itself when `blogsData` changed.
- The HTTP request and `response.json()` are collapsed into one outcome parameter (`Network`). A thrown `fetch`, a non-ok status and an unparsable body are the same `Failed`.
- `JSON.stringify` and `JSON.parse` are not modelled. The store holds parsed values of three shapes: a cache entry, the progress map, or unparsable text. Other JSON shapes under a key are not represented.
- A progress load that finds a cache entry under `dsa_progress` yields the empty map. That entry has no numeric ids, so every question reads as unset.
- `Date.now()` is one clock parameter per `fetchData` call. The two clock reads of `saveToCache` (`src/services/dataService.ts:56-57`) are taken as the same instant.
- Overlapping `fetchData` calls on the same key are not modelled. Each call runs to completion before the next starts.
- Floating-point code is left out: the progress-bar percentages (`src/pages/DSA.tsx:237-267`) and the scroll-based reading progress (`src/pages/GuideDetail.tsx:35-45`).
- Locale date formatting (`formatDate`) is left out.
- `toLowerCase` covers ASCII letters only. Unicode case mappings are not modelled.
- `dangerouslySetInnerHTML` is not modelled: only the string each rewrite produces is.
- Guide fields beyond id, title, detailed content and steps are not modelled; they are displayed, not computed.
- The guide page's unguarded `detailedContent.sections` access (`src/pages/GuideDetail.tsx:202`) is not modelled. A guide without it fails to render.
- Posts, resources and projects carry only the fields the filters read. Author, date, read time and links are displayed, not computed.
- Property lookups in the colour tables that would hit `Object.prototype` names (such as `"toString"`) are not modelled. The tables are finite maps.
- The handler-less "Pick Random" button, the contact form and the other presentation-only components are not part of this model.
- `console.error` and `console.warn` logging is not modelled.
- ContentCache.TtlWindow: the window is stated for data stored by a fetch after a miss at time `t`, and only for truthy data. Falsy data is never a hit.
- BlogsPage.Page.LoadData: only a `null` or `undefined` payload is distinguished from a document. Every other payload, including `0`, `false`, `""` and other non-object values, is taken as a document without posts.
