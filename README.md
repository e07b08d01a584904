# Awesome-video catalogue pipeline, modelled in Dafny

This project models the data pipeline of the awesome-video catalogue
front end. The pipeline has four parts:

- the normaliser `transformAwesomeVideoData` turns the parsed contents
  document into a tree of categories, subcategories and videos;
- a single-slot, one-hour cache holds that tree;
- the query layer has `fetchCategories`, `fetchCategory`, `fetchVideos` and
  `searchVideos`. It decides between the cache, a fresh fetch and the
  demonstration catalogue, then looks up, flattens and filters;
- `fallbackCategories` is the demonstration catalogue served when the
  fetch cannot be used.

Files:

- `text.dfy` (module `Text`): the character and string primitives.
  - The JavaScript `\s` whitespace class.
  - `toLowerCase` on ASCII letters.
  - The decimal text of a number in a template literal, and its reading
    back.
  - `includes` and `join`.
- `video_types.dfy` (module `VideoTypes`):
  - the raw document;
  - the normalised tree;
  - the `VideoResource` projection;
  - counting functions.
- `data_transformer.dfy` (module `DataTransformer`): the normaliser.
  - The slug rule and what it guarantees: no whitespace, idempotence, one
    hyphen per maximal run.
  - The id scheme with a parser that reads every id back, so ids are
    pairwise distinct.
  - The field-by-field contents of the output.
  - Item counts.
  - Well-formedness of the output.
- `cache_service.dfy` (module `CacheService`): the cache as a class with
  two fields; the clock is a `now` argument.
- `fallback_data.dfy` (module `FallbackData`): the constant tree and the
  facts about it.
- `video_api.dfy` (module `VideoApi`): the query layer.
  - `fetchCategories` is a decision function `Decide` plus a method that
    branches in the source's order and updates the cache object.
  - `fetchVideos` and `searchVideos` are methods with loops, proved equal
    to specification functions. The properties are proved as lemmas about
    those functions.

The network request, `response.text()` and `JSON.parse` are one input of
type `FetchOutcome`, which is one of:

- a network failure;
- a status with a body that did not parse;
- a status with a parsed document.

The clock is two parameters: `now`, read when the cache is consulted, and
`completedAt`, the time `updateCache` reads after the awaits.

## Model

| member | source | states |
|---|---|---|
| Text.NatToString | src/services/dataTransformer.ts:8 | the text a number takes inside a template literal is a non-empty run of decimal digits |
| Text.DigitsValueOfNatToString | src/services/dataTransformer.ts:8 | reading the decimal text of `n` back gives `n` |
| Text.IncludesIffOccurs | src/services/videoApi.ts:220 | `includes` holds exactly when the needle occurs at some index of the string |
| Text.IncludesInContext | src/services/videoApi.ts:219-220 | a needle found in a part of a string is found in the whole |
| Text.IncludesEmpty | src/services/videoApi.ts:220 | every string includes the empty string |
| Text.ToLowerIsLower | src/services/dataTransformer.ts:27 | lower-casing gives a lower-case string and is idempotent |
| Text.ToLowerAppend | src/services/videoApi.ts:219 | lower-casing distributes over concatenation |
| Text.LowerCharKeepsWhitespace | src/services/dataTransformer.ts:27 | lower-casing neither creates nor removes whitespace |
| DataTransformer.SkipWhitespace | src/services/dataTransformer.ts:27 | dropping a leading whitespace run leaves a string that starts with a non-space character; the string is shorter if it began with whitespace |
| DataTransformer.SkipWhitespaceIsSuffix | src/services/dataTransformer.ts:27 | what is left after a whitespace run is a suffix of the input |
| DataTransformer.ReplaceWhitespaceRuns | src/services/dataTransformer.ts:27 | replacing whitespace runs never lengthens a string |
| DataTransformer.Slugify | src/services/dataTransformer.ts:27 | a slug is never longer than its name |
| DataTransformer.ReplaceLeavesNoWhitespace | src/services/dataTransformer.ts:27 | no whitespace survives `replace(/\s+/g, '-')` |
| DataTransformer.ReplaceKeepsLower | src/services/dataTransformer.ts:27 | replacing runs keeps a lower-case string lower-case |
| DataTransformer.SlugifyShape | src/services/dataTransformer.ts:27 | a slug contains no whitespace and is lower-case |
| DataTransformer.ReplaceKeepsWhitespaceFree | src/services/dataTransformer.ts:27 | a string without whitespace is unchanged by the replacement |
| DataTransformer.SlugifyIdempotent | src/services/dataTransformer.ts:36 | applying the slug rule to a slug returns it unchanged |
| DataTransformer.ReplaceAppend | src/services/dataTransformer.ts:27 | the replacement of a string cut just after a non-space character is the concatenation of the replacements of the two parts |
| DataTransformer.ReplaceMaximalRun | src/services/dataTransformer.ts:27 | each maximal whitespace run becomes exactly one hyphen, and the text around it is replaced independently |
| DataTransformer.SlugOfWord | src/services/dataTransformer.ts:27 | the slug of a name without whitespace is the lower-cased name |
| DataTransformer.SlugOfTwoWords | src/services/dataTransformer.ts:27 | two words joined by a space become the lower-cased words joined by a hyphen |
| DataTransformer.DigitPrefixLength | src/services/dataTransformer.ts:17 | the digit run at the front of an id is all digits and is followed by a non-digit or by the end |
| DataTransformer.SplitNumberOf | src/services/dataTransformer.ts:17 | an id beginning with `${n}-` splits back into `n` and the rest |
| DataTransformer.ParseCategoryId | src/services/dataTransformer.ts:34 | `cat-c` reads back as category `c` |
| DataTransformer.ParseCategoryVideoId | src/services/dataTransformer.ts:8 | `c-item-i` reads back as video `i` of category `c` |
| DataTransformer.ParseSubcategoryId | src/services/dataTransformer.ts:25 | `c-sub-s` reads back as subcategory `s` of category `c` |
| DataTransformer.ParseSubcategoryVideoId | src/services/dataTransformer.ts:17 | `c-s-item-i` reads back as video `i` of subcategory `s` of category `c` |
| DataTransformer.ParseIdOf | src/services/dataTransformer.ts:8-34 | every synthesised id reads back as the position it was made from |
| DataTransformer.IdOfInjective | src/services/dataTransformer.ts:8-34 | two positions with the same id are the same position |
| DataTransformer.Transform | src/services/dataTransformer.ts:5-42 | there is one output category per input category |
| DataTransformer.TransformCategoryFields | src/services/dataTransformer.ts:6-41 | category `c` keeps its name, its slug follows the rule, its id is `cat-c` and reads back as `c`, its image is `/images/category-c.jpg`. Its description is the raw one when truthy, else `Resources related to <name>`, so never empty. It has one video per raw item and one subcategory per raw subcategory, and a missing array gives `[]` |
| DataTransformer.TransformSubcategoryFields | src/services/dataTransformer.ts:15-31 | a subcategory keeps its name, its slug follows the rule, its description is copied as is (possibly absent), its id is `c-sub-s` and reads back as its position, and it has one video per raw item |
| DataTransformer.TransformCategoryVideo | src/services/dataTransformer.ts:7-13 | video `i` of a category is raw item `i`: same title and url, description or `""`, at most one tag (the item's category when that is a non-empty string), and the id `c-item-i`, which reads back as its position |
| DataTransformer.TransformSubcategoryVideo | src/services/dataTransformer.ts:16-22 | the same for the videos of a subcategory, whose ids are `c-s-item-i` |
| DataTransformer.TransformIdAt | src/services/dataTransformer.ts:8-34 | every node of the output carries the id of its position |
| DataTransformer.TransformIdsDistinct | src/services/dataTransformer.ts:8-34 | two nodes of one output share an id if and only if they are the same node |
| DataTransformer.TransformPrefix | src/services/dataTransformer.ts:6 | the transform maps categories in order: cutting the input cuts the output at the same place |
| DataTransformer.TransformSubcategoriesPrefix | src/services/dataTransformer.ts:15 | subcategories are mapped in order |
| DataTransformer.SubcategoryItemCount | src/services/dataTransformer.ts:15-31 | the subcategories hold as many videos as the raw subcategories hold items |
| DataTransformer.TransformPreservesItemCount | src/services/dataTransformer.ts:5-43 | the output holds exactly as many videos as the input holds items on the two levels read |
| DataTransformer.TransformIgnoresNestedSubcategories | src/services/dataTransformer.ts:15-31 | removing everything nested below the direct subcategories does not change the output |
| DataTransformer.TransformWellFormed | src/services/dataTransformer.ts:27-37 | the transform of a non-empty list is a well-formed catalogue: its slugs follow the rule and every category has a description |
| CacheService.CategoryCache.constructor | src/services/cacheService.ts:6-7 | the cache starts with no data and time 0 |
| CacheService.CategoryCache.GetCachedData | src/services/cacheService.ts:9-20 | it returns the stored data whatever its age. `isFresh` holds iff data is present and `now - lastFetchTime < 3600000`, so `isFresh` implies data. It reads nothing else and changes nothing |
| CacheService.CategoryCache.UpdateCache | src/services/cacheService.ts:22-25 | the slot holds the new data stamped with `now`, whatever it held before |
| CacheService.ReadBeforeAnyUpdate | src/services/cacheService.ts:6-14 | before any update: no data and not fresh |
| CacheService.ReadAfterUpdate | src/services/cacheService.ts:14-25 | after a store the data is returned, fresh for less than one hour and stale from then on |
| CacheService.LastUpdateWins | src/services/cacheService.ts:22-25 | after two stores only the second data and its time are seen |
| FallbackData.FallbackCategories | src/services/fallbackData.ts:5-96 | the demonstration catalogue has six categories |
| FallbackData.FallbackIds | src/services/fallbackData.ts:8-88 | the category ids are "1" to "6" in order |
| FallbackData.FallbackDistinct | src/services/fallbackData.ts:8-90 | the category ids and the slugs are pairwise distinct |
| FallbackData.FallbackShape | src/services/fallbackData.ts:11-92 | only the first category has subcategories (one); every category has a non-empty image and description |
| FallbackData.FallbackVideoIds | src/services/fallbackData.ts:15-55 | the video ids are 101, 102, 111 and 201, pairwise distinct, and the other categories have no videos |
| FallbackData.SlugOfWebDevelopment | src/services/fallbackData.ts:9-10 | the slug of "Web Development" under the slug rule is "web-development" |
| FallbackData.SlugOfFrontendFrameworks | src/services/fallbackData.ts:32-33 | the slug of "Frontend Frameworks" is "frontend-frameworks" |
| FallbackData.SlugOfMobileDevelopment | src/services/fallbackData.ts:49-50 | the slug of "Mobile Development" is "mobile-development" |
| FallbackData.SlugOfDataScience | src/services/fallbackData.ts:65-66 | the slug of "Data Science" is "data-science" |
| FallbackData.SlugOfGameDevelopment | src/services/fallbackData.ts:73-74 | the slug of "Game Development" is "game-development" |
| FallbackData.SlugOfCloudComputing | src/services/fallbackData.ts:81-82 | the slug of "Cloud Computing" is "cloud-computing" |
| FallbackData.SlugOfCybersecurity | src/services/fallbackData.ts:89-90 | the slug of "Cybersecurity" is "cybersecurity" |
| FallbackData.FallbackWellFormed | src/services/fallbackData.ts:5-96 | the demonstration catalogue is a well-formed catalogue: every slug is its name under the slug rule, every category has a description |
| VideoApi.Decide | src/services/videoApi.ts:10-86 | the cache is hit exactly when it is fresh, and the hit serves the cached data; a stored list is never empty |
| VideoApi.DecideFreshHit | src/services/videoApi.ts:12-19 | on a fresh hit the cached list is served and the fetch outcome makes no difference |
| VideoApi.DecideStoresIff | src/services/videoApi.ts:63-74 | without a fresh hit and after a successful request, the list is stored iff every name is present and the categories array is non-empty. What is stored is the transform; an empty array falls back |
| VideoApi.DecideStoredOnlyFromFetch | src/services/videoApi.ts:31-74 | only a successful request with a non-empty, transformable categories array stores anything |
| VideoApi.DecideFailuresFallBack | src/services/videoApi.ts:31-85 | a network error, a non-OK status, unparsable JSON or a missing categories array serve the demonstration catalogue and store nothing |
| VideoApi.DecideWellFormed | src/services/videoApi.ts:10-86 | if the cache holds a well-formed catalogue, what is served and what is stored are well-formed catalogues, so never empty |
| VideoApi.FetchCategories | src/services/videoApi.ts:10-86 | the result is the decision's list. The cache holds the transformed list stamped `completedAt` on success and is unchanged otherwise. A cache holding a well-formed catalogue keeps holding one |
| VideoApi.FindFirst | src/services/videoApi.ts:91 | `find` answers nothing iff no element has the slug, and otherwise the first element that has it |
| VideoApi.FetchCategory | src/services/videoApi.ts:88-100 | the result is the first served category whose slug equals the argument; the cache evolves as in `fetchCategories` |
| VideoApi.Project | src/services/videoApi.ts:116-208 | one resource per video, in order, each holding the video unchanged plus the category and subcategory labels |
| VideoApi.CollectCategoryVideos | src/services/videoApi.ts:111-169 | the pushes and the loop over subcategories build exactly the specified listing of a found category |
| VideoApi.FetchVideos | src/services/videoApi.ts:102-174 | the result is the listing over the served list; the cache evolves as in `fetchCategories` |
| VideoApi.SubcategoryResourcesCount | src/services/videoApi.ts:130-148 | one resource per subcategory video |
| VideoApi.SubcategoryResourcesLabels | src/services/videoApi.ts:135-142 | each subcategory resource carries the category name and the name of one of the subcategories |
| VideoApi.CategoryResourcesUnfiltered | src/services/videoApi.ts:113-148 | with no or an empty subcategory slug the main videos come first, with no subcategory, then the subcategory videos, each with a subcategory. There are `|main| + Σ|sub|` entries, all labelled with the category's name |
| VideoApi.CategoryResourcesFiltered | src/services/videoApi.ts:113-166 | with a subcategory slug, the main videos are followed by the videos of the first subcategory with that slug, or by nothing when there is none |
| VideoApi.ListVideosLookup | src/services/videoApi.ts:105-109 | an unknown category slug lists nothing; a known one lists the first category with that slug |
| VideoApi.CollectAllVideos | src/services/videoApi.ts:182-213 | the loop over all categories builds exactly the flattened catalogue |
| VideoApi.CatalogueResourcesCount | src/services/videoApi.ts:182-213 | the flattened catalogue has one entry per video of the tree |
| VideoApi.FilterByQueryMembership | src/services/videoApi.ts:218-221 | a video is in the results iff it is in the input and its lower-cased searchable text includes the lower-cased query; results are never more than the input |
| VideoApi.FilterByQueryAppend | src/services/videoApi.ts:218-221 | filtering keeps the flattening order |
| VideoApi.FilterByEmptyQuery | src/services/videoApi.ts:218-221 | the empty query returns every video |
| VideoApi.FilterIgnoresQueryCase | src/services/videoApi.ts:220 | queries that lower-case alike give the same results |
| VideoApi.TitleMatchFound | src/services/videoApi.ts:219-220 | a video whose title includes the query, ignoring case, is found |
| VideoApi.DescriptionMatchFound | src/services/videoApi.ts:219-220 | a video whose description includes the query, ignoring case, is found |
| Text.JoinContext | src/services/videoApi.ts:219 | each part of `join(' ')` sits in the joined string between a prefix and a suffix |
| Text.JoinIncludesPart | src/services/videoApi.ts:219 | the joined tags include every tag |
| VideoApi.TagMatchFound | src/services/videoApi.ts:219-220 | a video with a tag that includes the query, ignoring case, is found |
| VideoApi.SearchVideos | src/services/videoApi.ts:176-229 | the result is the filtered flattening of the served list; the cache evolves as in `fetchCategories` |
| VideoApi.SearchEverythingAfterFetch | src/services/videoApi.ts:63-221 | after a successful fetch, searching for "" returns one result per raw item read by the normaliser |

## Left out

- Network, HTTP headers, `response.text()`, `JSON.parse` and logging are
  I/O. They are one `FetchOutcome` input. A JSON value that is a number,
  string, boolean or array has no `categories` field, so the explicit check
  at `src/services/videoApi.ts:48-51` throws; the model gives it a document
  whose `categories` is absent. A JSON `null` throws earlier, in
  `Object.keys(contents)` at `src/services/videoApi.ts:45`; the model
  treats it the same way. Both throws end in the fallback, so only the
  fallback reason differs (`InvalidStructure` in the model).
- `async`/`await`: each call is a sequential method. The module-level
  cache is a `CategoryCache` object passed to the query methods.
  `Date.now()` is the `now` and `completedAt` parameters.
- `toLowerCase` maps only the ASCII letters `A`-`Z`. Unicode case mapping
  is not modelled. Whitespace is the full `\s` set of JavaScript regular
  expressions.
- Raw `items` or `subcategories` that are present but not arrays make
  `.map` throw, and the throw ends in the fallback. The raw types hold
  arrays only, so this case is not modelled.
- Item `name` and `url` are taken as present strings. An item without them
  (a video whose `title` or `url` is `undefined`, with "undefined" at the
  front of its search text) is not modelled. Item `description` and
  `category` are strings or absent.
- `null` entries in `categories`, `subcategories` or `items` are not
  modelled. Each throws a TypeError in the normaliser (at `category.items`,
  `subcat.items` or `item.name`), which ends in the fallback.
- A missing category or direct-subcategory name, which throws in
  `toLowerCase`, is modelled: it is `Fallback(TransformError)`.
- The normalised tree keeps an absent `subcategories` or `videos` array as
  the empty sequence. Every reader in the query layer treats the two
  alike.
- `VideoResource`'s `thumbnail`, `duration` and `date` fields are always
  undefined and are not kept.
- The `catch` branches of `fetchVideos` and `searchVideos` (returning `[]`
  and throwing "Failed to search videos") are not modelled. Nothing inside
  them can throw, because `fetchCategories` never fails.
- `src/services/api.ts` is a re-export and is not part of this model.
  Neither are pages, components, hooks, `ThemeContext`, `lib/utils` and the
  build scripts.
