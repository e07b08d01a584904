/** The shapes the catalogue pipeline passes around: the raw contents
    document as `JSON.parse` hands it over (`AwesomeVideoContents` and its
    parts), the normalised category tree (`ExtendedCategory`, `Subcategory`,
    `VideoItem`) and the query-time projection `VideoResource`. */
module VideoTypes {

  /** A value that may be absent (`undefined` or `null` in the source). */
  datatype Option<+T> = None | Some(value: T)

  /** `xs || []` for an optional array. */
  function OrEmpty<T>(xs: Option<seq<T>>): seq<T> {
    match xs
    case Some(s) => s
    case None => []
  }

  /** JavaScript truthiness of an optional string: present and non-empty. */
  predicate Truthy(s: Option<string>) {
    s.Some? && s.value != ""
  }

  // ---------------------------------------------------------------------
  // Raw contents (untrusted, as parsed)
  // ---------------------------------------------------------------------

  /** An entry of an `items` array. `name` and `url` are taken as present
      strings. The `subcategory` field of the raw item is never read by the
      pipeline and is not kept. */
  datatype RawItem = RawItem(
    name: string,
    description: Option<string>,
    url: string,
    category: Option<string>)

  /** An entry of the `categories` array, or of a category's
      `subcategories` array. `name` is None when the field is missing or is
      not a string. */
  datatype RawCategory = RawCategory(
    name: Option<string>,
    description: Option<string>,
    subcategories: Option<seq<RawCategory>>,
    items: Option<seq<RawItem>>)

  /** The parsed document. `categories` is None when the field is missing,
      null or not an array. */
  datatype RawDocument = RawDocument(categories: Option<seq<RawCategory>>)

  // ---------------------------------------------------------------------
  // Normalised tree
  // ---------------------------------------------------------------------

  datatype VideoItem = VideoItem(
    id: string,
    title: string,
    url: string,
    description: string,
    tags: seq<string>)

  datatype Subcategory = Subcategory(
    id: string,
    name: string,
    slug: string,
    description: Option<string>,
    videos: seq<VideoItem>)

  /** A top-level category. An absent `subcategories` array is the empty
      sequence: every reader of the tree treats the two alike. */
  datatype ExtendedCategory = ExtendedCategory(
    id: string,
    name: string,
    slug: string,
    description: string,
    imageUrl: string,
    videos: seq<VideoItem>,
    subcategories: seq<Subcategory>)

  /** A video together with the names of the category and subcategory it
      was listed under (the always-undefined `thumbnail`, `duration` and
      `date` fields are not kept). */
  datatype VideoResource = VideoResource(
    id: string,
    title: string,
    url: string,
    description: string,
    category: string,
    subcategory: Option<string>,
    tags: seq<string>)

  // ---------------------------------------------------------------------
  // Sizes
  // ---------------------------------------------------------------------

  /** Number of videos held by a list of subcategories. */
  function SubcategoryVideoCount(subs: seq<Subcategory>): nat {
    if subs == [] then 0
    else SubcategoryVideoCount(subs[..|subs| - 1]) + |subs[|subs| - 1].videos|
  }

  /** Number of videos in a category, its own and its subcategories'. */
  function CategoryVideoCount(category: ExtendedCategory): nat {
    |category.videos| + SubcategoryVideoCount(category.subcategories)
  }

  /** Number of videos in a whole tree. */
  function VideoCount(categories: seq<ExtendedCategory>): nat {
    if categories == [] then 0
    else VideoCount(categories[..|categories| - 1]) + CategoryVideoCount(categories[|categories| - 1])
  }

  /** Number of raw items a category carries on the two levels the
      normaliser reads: its own `items` and those of its direct
      subcategories. */
  function RawCategoryItemCount(category: RawCategory): nat {
    |OrEmpty(category.items)| + RawSubcategoryItemCount(OrEmpty(category.subcategories))
  }

  function RawSubcategoryItemCount(subs: seq<RawCategory>): nat {
    if subs == [] then 0
    else RawSubcategoryItemCount(subs[..|subs| - 1]) + |OrEmpty(subs[|subs| - 1].items)|
  }

  function RawItemCount(categories: seq<RawCategory>): nat {
    if categories == [] then 0
    else RawItemCount(categories[..|categories| - 1]) + RawCategoryItemCount(categories[|categories| - 1])
  }
}
