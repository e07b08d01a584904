/** The normaliser `transformAwesomeVideoData`: raw contents to the
    category tree. It is a pure map over categories, their items and their
    direct subcategories, synthesising ids, slugs, default descriptions and
    placeholder image paths. */
module DataTransformer {
  import opened Text
  import opened VideoTypes

  // ---------------------------------------------------------------------
  // The slug rule: `name.toLowerCase().replace(/\s+/g, '-')`
  // ---------------------------------------------------------------------

  /** Drops the leading run of whitespace. */
  function SkipWhitespace(s: string): (r: string)
    ensures |r| <= |s|
    ensures r == [] || !IsWhitespace(r[0])
    ensures s != [] && IsWhitespace(s[0]) ==> |r| < |s|
  {
    if s != [] && IsWhitespace(s[0]) then SkipWhitespace(s[1..]) else s
  }

  /** What is left after the run is the rest of the string. */
  lemma {:induction false} SkipWhitespaceIsSuffix(s: string)
    ensures SkipWhitespace(s) == s[|s| - |SkipWhitespace(s)|..]
  {
    if s != [] && IsWhitespace(s[0]) {
      SkipWhitespaceIsSuffix(s[1..]);
    }
  }

  /** `s.replace(/\s+/g, '-')`: scanning left to right, every maximal run
      of whitespace becomes one hyphen and every other character is kept. */
  function ReplaceWhitespaceRuns(s: string): (r: string)
    ensures |r| <= |s|
    decreases |s|
  {
    if s == [] then []
    else if IsWhitespace(s[0]) then "-" + ReplaceWhitespaceRuns(SkipWhitespace(s))
    else [s[0]] + ReplaceWhitespaceRuns(s[1..])
  }

  /** The slug of a category or subcategory name. */
  function Slugify(name: string): (slug: string)
    ensures |slug| <= |name|
  {
    ReplaceWhitespaceRuns(ToLower(name))
  }

  /** No whitespace survives the replacement. */
  lemma {:induction false} ReplaceLeavesNoWhitespace(s: string)
    ensures NoWhitespace(ReplaceWhitespaceRuns(s))
    decreases |s|
  {
    if s != [] {
      if IsWhitespace(s[0]) {
        ReplaceLeavesNoWhitespace(SkipWhitespace(s));
      } else {
        ReplaceLeavesNoWhitespace(s[1..]);
      }
    }
  }

  /** The rule only ever writes characters of its input and hyphens, so a
      lower-case input gives a lower-case result. */
  lemma {:induction false} ReplaceKeepsLower(s: string)
    requires IsLower(s)
    ensures IsLower(ReplaceWhitespaceRuns(s))
    decreases |s|
  {
    if s != [] {
      if IsWhitespace(s[0]) {
        var rest := SkipWhitespace(s);
        SkipWhitespaceIsSuffix(s);
        assert IsLower(rest) by {
          forall i | 0 <= i < |rest| ensures LowerChar(rest[i]) == rest[i] {
            assert rest[i] == s[|s| - |rest| + i];
          }
        }
        ReplaceKeepsLower(rest);
      } else {
        ReplaceKeepsLower(s[1..]);
      }
    }
  }

  /** A slug is lower-case and holds no whitespace. */
  lemma SlugifyShape(name: string)
    ensures NoWhitespace(Slugify(name)) && IsLower(Slugify(name))
  {
    ToLowerIsLower(name);
    ReplaceKeepsLower(ToLower(name));
    ReplaceLeavesNoWhitespace(ToLower(name));
  }

  /** A string without whitespace is left as it is. */
  lemma {:induction false} ReplaceKeepsWhitespaceFree(s: string)
    requires NoWhitespace(s)
    ensures ReplaceWhitespaceRuns(s) == s
  {
    if s != [] {
      ReplaceKeepsWhitespaceFree(s[1..]);
    }
  }

  /** Applying the slug rule to a slug gives the slug back. */
  lemma {:induction false} SlugifyIdempotent(name: string)
    ensures Slugify(Slugify(name)) == Slugify(name)
  {
    var slug := Slugify(name);
    SlugifyShape(name);
    ToLowerOfLower(slug);
    ReplaceKeepsWhitespaceFree(slug);
  }

  /** Skipping whitespace only looks at the front: text appended behind a
      non-space character is carried along untouched. */
  lemma {:induction false} SkipWhitespaceAppend(a: string, x: string)
    requires a != [] && !IsWhitespace(a[|a| - 1])
    ensures SkipWhitespace(a + x) == SkipWhitespace(a) + x
  {
    if IsWhitespace(a[0]) {
      assert (a + x)[1..] == a[1..] + x;
      SkipWhitespaceAppend(a[1..], x);
    }
  }

  /** A string ending in a non-space character keeps that ending. */
  lemma {:induction false} SkipWhitespaceKeepsLast(a: string)
    requires a != [] && !IsWhitespace(a[|a| - 1])
    ensures var rest := SkipWhitespace(a); rest != [] && rest[|rest| - 1] == a[|a| - 1]
  {
    if IsWhitespace(a[0]) {
      SkipWhitespaceKeepsLast(a[1..]);
    }
  }

  /** Cutting a string just after a non-space character cuts the result at
      the same place. */
  lemma {:induction false} ReplaceAppend(a: string, x: string)
    requires a == [] || !IsWhitespace(a[|a| - 1])
    ensures ReplaceWhitespaceRuns(a + x) == ReplaceWhitespaceRuns(a) + ReplaceWhitespaceRuns(x)
    decreases |a|
  {
    if a == [] {
      assert a + x == x;
    } else if IsWhitespace(a[0]) {
      SkipWhitespaceAppend(a, x);
      SkipWhitespaceKeepsLast(a);
      ReplaceAppend(SkipWhitespace(a), x);
    } else {
      assert (a + x)[1..] == a[1..] + x;
      ReplaceAppend(a[1..], x);
    }
  }

  /** A whole run of whitespace, followed by a non-space character or by
      nothing, is skipped in one step. */
  lemma {:induction false} SkipWhitespaceRun(w: string, b: string)
    requires forall i :: 0 <= i < |w| ==> IsWhitespace(w[i])
    requires b == [] || !IsWhitespace(b[0])
    ensures SkipWhitespace(w + b) == b
  {
    if w == [] {
      assert w + b == b;
    } else {
      assert (w + b)[1..] == w[1..] + b;
      SkipWhitespaceRun(w[1..], b);
    }
  }

  /** A non-empty run of whitespace in front of a non-space character (or
      of nothing) becomes one hyphen. */
  lemma {:induction false} ReplaceLeadingRun(w: string, b: string)
    requires w != [] && forall i :: 0 <= i < |w| ==> IsWhitespace(w[i])
    requires b == [] || !IsWhitespace(b[0])
    ensures ReplaceWhitespaceRuns(w + b) == "-" + ReplaceWhitespaceRuns(b)
  {
    assert (w + b)[0] == w[0];
    SkipWhitespaceRun(w, b);
  }

  lemma SeqAssoc(x: string, y: string, z: string)
    ensures x + (y + z) == x + y + z
  {
  }

  /** Each maximal run of whitespace becomes exactly one hyphen: for a
      string cut as `a`, a non-empty run `w`, and `b`, where `w` is
      maximal (neither `a` ends nor `b` starts with whitespace), the result
      is that of `a`, one `-`, then that of `b`. */
  lemma {:induction false} ReplaceMaximalRun(a: string, w: string, b: string)
    requires a == [] || !IsWhitespace(a[|a| - 1])
    requires w != [] && forall i :: 0 <= i < |w| ==> IsWhitespace(w[i])
    requires b == [] || !IsWhitespace(b[0])
    ensures ReplaceWhitespaceRuns(a + w + b) == ReplaceWhitespaceRuns(a) + "-" + ReplaceWhitespaceRuns(b)
  {
    var wb := w + b;
    ReplaceAppend(a, wb);
    ReplaceLeadingRun(w, b);
    calc {
      ReplaceWhitespaceRuns(a + w + b);
      { assert a + w + b == a + wb; }
      ReplaceWhitespaceRuns(a + wb);
      ReplaceWhitespaceRuns(a) + ("-" + ReplaceWhitespaceRuns(b));
      { SeqAssoc(ReplaceWhitespaceRuns(a), "-", ReplaceWhitespaceRuns(b)); }
      ReplaceWhitespaceRuns(a) + "-" + ReplaceWhitespaceRuns(b);
    }
  }

  /** The slug of a name without whitespace is the lower-cased name. */
  lemma {:induction false} SlugOfWord(word: string)
    requires NoWhitespace(word)
    ensures Slugify(word) == ToLower(word)
  {
    forall i | 0 <= i < |word| ensures !IsWhitespace(ToLower(word)[i]) {
      LowerCharKeepsWhitespace(word[i]);
    }
    ReplaceKeepsWhitespaceFree(ToLower(word));
  }

  /** The slug of two words separated by one space is the two lower-cased
      words joined by a hyphen. */
  lemma {:induction false} SlugOfTwoWords(first: string, second: string)
    requires first != [] && second != [] && NoWhitespace(first) && NoWhitespace(second)
    ensures Slugify(first + " " + second) == ToLower(first) + "-" + ToLower(second)
  {
    var a, b := ToLower(first), ToLower(second);
    ToLowerAppend(first + " ", second);
    ToLowerAppend(first, " ");
    assert ToLower(" ") == " ";
    assert ToLower(first + " " + second) == a + " " + b;
    LowerCharKeepsWhitespace(first[|first| - 1]);
    LowerCharKeepsWhitespace(second[0]);
    ReplaceMaximalRun(a, " ", b);
    SlugOfWord(first);
    SlugOfWord(second);
  }

  predicate IsAsciiLetter(c: char) {
    'A' <= c <= 'Z' || 'a' <= c <= 'z'
  }

  /** The slug of two words of ASCII letters separated by one space. */
  lemma {:induction false} SlugOfTwoLetterWords(first: string, second: string)
    requires first != [] && second != []
    requires forall i :: 0 <= i < |first| ==> IsAsciiLetter(first[i])
    requires forall i :: 0 <= i < |second| ==> IsAsciiLetter(second[i])
    ensures Slugify(first + " " + second) == ToLower(first) + "-" + ToLower(second)
  {
    SlugOfTwoWords(first, second);
  }

  // ---------------------------------------------------------------------
  // Synthesised ids
  // ---------------------------------------------------------------------

  /** Where a node sits in the normalised tree, by position: category `c`,
      video `i` of category `c`, subcategory `s` of category `c`, video `i`
      of that subcategory. */
  datatype Position =
    | CategoryAt(c: nat)
    | CategoryVideoAt(c: nat, i: nat)
    | SubcategoryAt(c: nat, s: nat)
    | SubcategoryVideoAt(c: nat, s: nat, i: nat)

  /** The id the normaliser gives the node at a position. */
  function IdOf(p: Position): string {
    match p
    case CategoryAt(c) => "cat-" + NatToString(c)
    case CategoryVideoAt(c, i) => NatToString(c) + "-item-" + NatToString(i)
    case SubcategoryAt(c, s) => NatToString(c) + "-sub-" + NatToString(s)
    case SubcategoryVideoAt(c, s, i) => NatToString(c) + "-" + NatToString(s) + "-item-" + NatToString(i)
  }

  /** Length of the run of digits at the front of `s`. */
  function DigitPrefixLength(s: string): (k: nat)
    ensures k <= |s| && AllDigits(s[..k])
    ensures k == |s| || !IsDigit(s[k])
  {
    if s != [] && IsDigit(s[0]) then
      var k := 1 + DigitPrefixLength(s[1..]);
      assert s[..k] == [s[0]] + s[1..][..k - 1];
      k
    else 0
  }

  /** A whole string read as a decimal number, if it is one. */
  function ParseNumber(s: string): Option<nat> {
    if s != [] && AllDigits(s) then Some(DigitsValue(s)) else None
  }

  /** Splits `<digits>-<rest>` into the number and the rest. */
  function SplitNumber(s: string): Option<(nat, string)> {
    var k := DigitPrefixLength(s);
    if k == 0 || k == |s| || s[k] != '-' then None
    else Some((DigitsValue(s[..k]), s[k + 1..]))
  }

  /** Reads the position back out of an id. */
  function ParseId(id: string): Option<Position> {
    if "cat-" <= id then
      match ParseNumber(id[4..])
      case Some(c) => Some(CategoryAt(c))
      case None => None
    else
      match SplitNumber(id)
      case None => None
      case Some((c, rest)) => ParseAfterCategory(c, rest)
  }

  /** Reads what follows `<c>-` in an id. */
  function ParseAfterCategory(c: nat, rest: string): Option<Position> {
    if "item-" <= rest then
      match ParseNumber(rest[5..])
      case Some(i) => Some(CategoryVideoAt(c, i))
      case None => None
    else if "sub-" <= rest then
      match ParseNumber(rest[4..])
      case Some(s) => Some(SubcategoryAt(c, s))
      case None => None
    else
      match SplitNumber(rest)
      case None => None
      case Some((s, tail)) =>
        if "item-" <= tail then
          match ParseNumber(tail[5..])
          case Some(i) => Some(SubcategoryVideoAt(c, s, i))
          case None => None
        else None
  }

  /** The digit run at the front of `d + x` is `d` when `x` starts with a
      non-digit. */
  lemma {:induction false} DigitPrefixOf(d: string, x: string)
    requires AllDigits(d)
    requires x != [] && !IsDigit(x[0])
    ensures DigitPrefixLength(d + x) == |d|
  {
    if d != [] {
      assert (d + x)[1..] == d[1..] + x;
      DigitPrefixOf(d[1..], x);
    }
  }

  lemma ParseNumberOfNatToString(n: nat)
    ensures ParseNumber(NatToString(n)) == Some(n)
  {
    DigitsValueOfNatToString(n);
  }

  /** `NatToString(n) + "-" + x` splits back into `n` and `x`. */
  lemma {:induction false} SplitNumberOf(n: nat, x: string)
    ensures SplitNumber(NatToString(n) + "-" + x) == Some((n, x))
  {
    var d := NatToString(n);
    var id := d + "-" + x;
    assert id == d + ("-" + x);
    DigitPrefixOf(d, "-" + x);
    assert id[|d|] == '-';
    assert id[..|d|] == d;
    assert id[|d| + 1..] == x;
    DigitsValueOfNatToString(n);
  }

  /** An id made of a number, a hyphen and more does not start with the
      category prefix `cat-`. */
  lemma NumberFirst(n: nat, x: string)
    ensures !("cat-" <= NatToString(n) + "-" + x)
  {
    var id := NatToString(n) + "-" + x;
    assert id[0] == NatToString(n)[0];
  }

  lemma ParseCategoryId(c: nat)
    ensures ParseId(IdOf(CategoryAt(c))) == Some(CategoryAt(c))
  {
    var id := IdOf(CategoryAt(c));
    assert "cat-" <= id;
    assert id[4..] == NatToString(c);
    ParseNumberOfNatToString(c);
  }

  lemma ParseCategoryVideoId(c: nat, i: nat)
    ensures ParseId(IdOf(CategoryVideoAt(c, i))) == Some(CategoryVideoAt(c, i))
  {
    var rest := "item-" + NatToString(i);
    assert IdOf(CategoryVideoAt(c, i)) == NatToString(c) + "-" + rest;
    NumberFirst(c, rest);
    SplitNumberOf(c, rest);
    assert rest[5..] == NatToString(i);
    ParseNumberOfNatToString(i);
  }

  lemma ParseSubcategoryId(c: nat, s: nat)
    ensures ParseId(IdOf(SubcategoryAt(c, s))) == Some(SubcategoryAt(c, s))
  {
    var rest := "sub-" + NatToString(s);
    assert IdOf(SubcategoryAt(c, s)) == NatToString(c) + "-" + rest;
    NumberFirst(c, rest);
    SplitNumberOf(c, rest);
    assert rest[0] == 's';
    assert rest[4..] == NatToString(s);
    ParseNumberOfNatToString(s);
  }

  lemma ParseSubcategoryVideoTail(c: nat, s: nat, i: nat)
    ensures ParseAfterCategory(c, NatToString(s) + "-item-" + NatToString(i)) == Some(SubcategoryVideoAt(c, s, i))
  {
    var tail := "item-" + NatToString(i);
    var rest := NatToString(s) + "-" + tail;
    assert rest == NatToString(s) + "-item-" + NatToString(i);
    assert rest[0] == NatToString(s)[0];
    SplitNumberOf(s, tail);
    assert tail[5..] == NatToString(i);
    ParseNumberOfNatToString(i);
  }

  lemma ParseSubcategoryVideoId(c: nat, s: nat, i: nat)
    ensures ParseId(IdOf(SubcategoryVideoAt(c, s, i))) == Some(SubcategoryVideoAt(c, s, i))
  {
    var rest := NatToString(s) + "-item-" + NatToString(i);
    assert IdOf(SubcategoryVideoAt(c, s, i)) == NatToString(c) + "-" + rest;
    NumberFirst(c, rest);
    SplitNumberOf(c, rest);
    ParseSubcategoryVideoTail(c, s, i);
  }

  /** Every id reads back as the position it was made from. */
  lemma ParseIdOf(p: Position)
    ensures ParseId(IdOf(p)) == Some(p)
  {
    match p
    case CategoryAt(c) => ParseCategoryId(c);
    case CategoryVideoAt(c, i) => ParseCategoryVideoId(c, i);
    case SubcategoryAt(c, s) => ParseSubcategoryId(c, s);
    case SubcategoryVideoAt(c, s, i) => ParseSubcategoryVideoId(c, s, i);
  }

  /** Different positions never share an id. */
  lemma IdOfInjective(p: Position, q: Position)
    requires IdOf(p) == IdOf(q)
    ensures p == q
  {
    ParseIdOf(p);
    ParseIdOf(q);
  }

  // ---------------------------------------------------------------------
  // The transform
  // ---------------------------------------------------------------------

  /** The placeholder image of category `c`. */
  function ImageUrlOf(c: nat): string {
    "/images/category-" + NatToString(c) + ".jpg"
  }

  /** The description a category gets when its own is missing or empty. */
  function DefaultDescription(name: string): string {
    "Resources related to " + name
  }

  /** `item.category ? [item.category] : []`. */
  function TagsOf(category: Option<string>): seq<string> {
    if Truthy(category) then [category.value] else []
  }

  /** One raw item as a video with the given id. */
  function ToVideoItem(item: RawItem, id: string): VideoItem {
    VideoItem(
      id,
      item.name,
      item.url,
      if Truthy(item.description) then item.description.value else "",
      TagsOf(item.category))
  }

  /** The normaliser reads `name` of every category and of every direct
      subcategory and calls `toLowerCase` on it, which throws when the name
      is missing or not a string. */
  predicate Transformable(category: RawCategory) {
    && category.name.Some?
    && AllNamed(OrEmpty(category.subcategories))
  }

  predicate AllNamed(subs: seq<RawCategory>) {
    forall s :: 0 <= s < |subs| ==> subs[s].name.Some?
  }

  predicate AllTransformable(categories: seq<RawCategory>) {
    forall c :: 0 <= c < |categories| ==> Transformable(categories[c])
  }

  function TransformSubcategory(sub: RawCategory, c: nat, s: nat): Subcategory
    requires sub.name.Some?
  {
    var items := OrEmpty(sub.items);
    Subcategory(
      IdOf(SubcategoryAt(c, s)),
      sub.name.value,
      Slugify(sub.name.value),
      sub.description,
      seq(|items|, i requires 0 <= i < |items| => ToVideoItem(items[i], IdOf(SubcategoryVideoAt(c, s, i)))))
  }

  /** `category.subcategories?.map(...) || []` for category `c`. */
  function TransformSubcategories(subs: seq<RawCategory>, c: nat): (out: seq<Subcategory>)
    requires AllNamed(subs)
  {
    seq(|subs|, s requires 0 <= s < |subs| => TransformSubcategory(subs[s], c, s))
  }

  function TransformCategory(category: RawCategory, c: nat): ExtendedCategory
    requires Transformable(category)
  {
    var name := category.name.value;
    var items := OrEmpty(category.items);
    ExtendedCategory(
      IdOf(CategoryAt(c)),
      name,
      Slugify(name),
      if Truthy(category.description) then category.description.value else DefaultDescription(name),
      ImageUrlOf(c),
      seq(|items|, i requires 0 <= i < |items| => ToVideoItem(items[i], IdOf(CategoryVideoAt(c, i)))),
      TransformSubcategories(OrEmpty(category.subcategories), c))
  }

  /** `transformAwesomeVideoData(contents)`, given `contents.categories`:
      one category out per category in, in the same order. */
  function Transform(categories: seq<RawCategory>): (out: seq<ExtendedCategory>)
    requires AllTransformable(categories)
    ensures |out| == |categories|
  {
    seq(|categories|, c requires 0 <= c < |categories| => TransformCategory(categories[c], c))
  }

  // ---------------------------------------------------------------------
  // What the transform guarantees
  // ---------------------------------------------------------------------

  /** Category `c` of the output: it keeps the raw name, its slug follows
      the slug rule, its id reads back as position `c`, its image is the
      numbered placeholder, its description is the raw one when that is
      non-empty and the template otherwise (so it is never empty), and it
      has one video per raw item and one subcategory per raw subcategory,
      none when the raw array is missing. */
  lemma TransformCategoryFields(categories: seq<RawCategory>, c: nat)
    requires AllTransformable(categories) && c < |categories|
    ensures var out := Transform(categories)[c];
      var raw := categories[c];
      && out.name == raw.name.value
      && out.slug == Slugify(raw.name.value)
      && out.id == IdOf(CategoryAt(c)) && ParseId(out.id) == Some(CategoryAt(c))
      && out.imageUrl == "/images/category-" + NatToString(c) + ".jpg"
      && (Truthy(raw.description) ==> out.description == raw.description.value)
      && (!Truthy(raw.description) ==> out.description == "Resources related to " + raw.name.value)
      && out.description != ""
      && |out.videos| == |OrEmpty(raw.items)|
      && |out.subcategories| == |OrEmpty(raw.subcategories)|
      && (raw.items.None? ==> out.videos == [])
      && (raw.subcategories.None? ==> out.subcategories == [])
  {
    ParseCategoryId(c);
  }

  /** Subcategory `s` of category `c`: raw name, slug by the rule, the raw
      description copied as it is (possibly absent), an id that reads back
      as its position, and one video per raw item. */
  lemma TransformSubcategoryFields(categories: seq<RawCategory>, c: nat, s: nat)
    requires AllTransformable(categories) && c < |categories|
    requires s < |OrEmpty(categories[c].subcategories)|
    ensures var raw := OrEmpty(categories[c].subcategories)[s];
      var out := Transform(categories)[c].subcategories[s];
      && raw.name.Some?
      && out.name == raw.name.value
      && out.slug == Slugify(raw.name.value)
      && out.description == raw.description
      && out.id == IdOf(SubcategoryAt(c, s)) && ParseId(out.id) == Some(SubcategoryAt(c, s))
      && |out.videos| == |OrEmpty(raw.items)|
  {
    ParseSubcategoryId(c, s);
  }

  /** What a raw item becomes: the same title and url, its description or
      the empty string, at most one tag (its category, when that is a
      non-empty string). */
  predicate VideoFromItem(v: VideoItem, item: RawItem) {
    && v.title == item.name
    && v.url == item.url
    && v.description == (if Truthy(item.description) then item.description.value else "")
    && |v.tags| <= 1
    && (v.tags != [] <==> Truthy(item.category))
    && (v.tags != [] ==> v.tags[0] == item.category.value && v.tags[0] != "")
  }

  /** Video `i` of category `c` is raw item `i` of that category, and its
      id reads back as its position. */
  lemma TransformCategoryVideo(categories: seq<RawCategory>, c: nat, i: nat)
    requires AllTransformable(categories) && c < |categories|
    requires i < |OrEmpty(categories[c].items)|
    ensures var v := Transform(categories)[c].videos[i];
      && VideoFromItem(v, OrEmpty(categories[c].items)[i])
      && v.id == IdOf(CategoryVideoAt(c, i)) && ParseId(v.id) == Some(CategoryVideoAt(c, i))
  {
    ParseCategoryVideoId(c, i);
  }

  /** Video `i` of subcategory `s` of category `c` is raw item `i` of that
      subcategory, and its id reads back as its position. */
  lemma TransformSubcategoryVideo(categories: seq<RawCategory>, c: nat, s: nat, i: nat)
    requires AllTransformable(categories) && c < |categories|
    requires s < |OrEmpty(categories[c].subcategories)|
    requires i < |OrEmpty(OrEmpty(categories[c].subcategories)[s].items)|
    ensures var v := Transform(categories)[c].subcategories[s].videos[i];
      && VideoFromItem(v, OrEmpty(OrEmpty(categories[c].subcategories)[s].items)[i])
      && v.id == IdOf(SubcategoryVideoAt(c, s, i)) && ParseId(v.id) == Some(SubcategoryVideoAt(c, s, i))
  {
    ParseSubcategoryVideoId(c, s, i);
  }

  /** The nodes of a tree, by position. */
  predicate ValidPosition(out: seq<ExtendedCategory>, p: Position) {
    match p
    case CategoryAt(c) => c < |out|
    case CategoryVideoAt(c, i) => c < |out| && i < |out[c].videos|
    case SubcategoryAt(c, s) => c < |out| && s < |out[c].subcategories|
    case SubcategoryVideoAt(c, s, i) =>
      c < |out| && s < |out[c].subcategories| && i < |out[c].subcategories[s].videos|
  }

  /** The id of the node at a position. */
  function IdAt(out: seq<ExtendedCategory>, p: Position): string
    requires ValidPosition(out, p)
  {
    match p
    case CategoryAt(c) => out[c].id
    case CategoryVideoAt(c, i) => out[c].videos[i].id
    case SubcategoryAt(c, s) => out[c].subcategories[s].id
    case SubcategoryVideoAt(c, s, i) => out[c].subcategories[s].videos[i].id
  }

  /** In a transformed tree every node carries the id of its position. */
  lemma TransformIdAt(categories: seq<RawCategory>, p: Position)
    requires AllTransformable(categories) && ValidPosition(Transform(categories), p)
    ensures IdAt(Transform(categories), p) == IdOf(p)
  {
  }

  /** The ids of one transformed tree are pairwise distinct: two nodes
      share an id only if they are the same node. */
  lemma TransformIdsDistinct(categories: seq<RawCategory>, p: Position, q: Position)
    requires AllTransformable(categories)
    requires ValidPosition(Transform(categories), p) && ValidPosition(Transform(categories), q)
    ensures IdAt(Transform(categories), p) == IdAt(Transform(categories), q) <==> p == q
  {
    TransformIdAt(categories, p);
    TransformIdAt(categories, q);
    if IdOf(p) == IdOf(q) {
      IdOfInjective(p, q);
    }
  }

  /** Cutting the input list cuts the output list at the same place. */
  lemma TransformPrefix(categories: seq<RawCategory>, n: nat)
    requires AllTransformable(categories) && n <= |categories|
    ensures AllTransformable(categories[..n])
    ensures Transform(categories)[..n] == Transform(categories[..n])
  {
  }

  lemma TransformSubcategoriesPrefix(subs: seq<RawCategory>, c: nat, n: nat)
    requires AllNamed(subs) && n <= |subs|
    ensures AllNamed(subs[..n])
    ensures TransformSubcategories(subs, c)[..n] == TransformSubcategories(subs[..n], c)
  {
  }

  lemma {:induction false} SubcategoryItemCount(subs: seq<RawCategory>, c: nat)
    requires AllNamed(subs)
    ensures SubcategoryVideoCount(TransformSubcategories(subs, c)) == RawSubcategoryItemCount(subs)
    decreases |subs|
  {
    if subs != [] {
      var n := |subs| - 1;
      TransformSubcategoriesPrefix(subs, c, n);
      SubcategoryItemCount(subs[..n], c);
    }
  }

  /** Every raw item on the two levels the normaliser reads becomes exactly
      one video: the tree holds as many videos as the input holds items. */
  lemma {:induction false} TransformPreservesItemCount(categories: seq<RawCategory>)
    requires AllTransformable(categories)
    ensures VideoCount(Transform(categories)) == RawItemCount(categories)
    decreases |categories|
  {
    if categories != [] {
      var n := |categories| - 1;
      TransformPrefix(categories, n);
      TransformPreservesItemCount(categories[..n]);
      SubcategoryItemCount(OrEmpty(categories[n].subcategories), n);
    }
  }

  /** Drops whatever a subcategory nests below itself. */
  function Flatten(category: RawCategory): RawCategory {
    var subs := OrEmpty(category.subcategories);
    if category.subcategories.None? then category
    else category.(subcategories := Some(seq(|subs|, s requires 0 <= s < |subs| => subs[s].(subcategories := None))))
  }

  /** Only one level of subcategories is kept: removing everything nested
      below the direct subcategories does not change the output. */
  lemma TransformIgnoresNestedSubcategories(categories: seq<RawCategory>)
    requires AllTransformable(categories)
    ensures var flat := seq(|categories|, c requires 0 <= c < |categories| => Flatten(categories[c]));
      AllTransformable(flat) && Transform(flat) == Transform(categories)
  {
    var flat := seq(|categories|, c requires 0 <= c < |categories| => Flatten(categories[c]));
    forall c | 0 <= c < |categories|
      ensures Transformable(flat[c]) && TransformCategory(flat[c], c) == TransformCategory(categories[c], c)
    {
      var subs := OrEmpty(categories[c].subcategories);
      var flatSubs := OrEmpty(flat[c].subcategories);
      assert |flatSubs| == |subs|;
      assert forall s :: 0 <= s < |subs| ==> TransformSubcategory(flatSubs[s], c, s) == TransformSubcategory(subs[s], c, s);
      assert TransformSubcategories(flatSubs, c) == TransformSubcategories(subs, c);
    }
  }

  // ---------------------------------------------------------------------
  // Well-formed catalogues
  // ---------------------------------------------------------------------

  /** A category whose slugs follow the slug rule and which has a
      description. */
  predicate WellFormedCategory(category: ExtendedCategory) {
    && category.slug == Slugify(category.name)
    && category.description != ""
    && forall s :: 0 <= s < |category.subcategories| ==>
         category.subcategories[s].slug == Slugify(category.subcategories[s].name)
  }

  /** What every category list served to the pages satisfies: it is not
      empty, and each of its categories is well formed. */
  predicate WellFormedCatalogue(categories: seq<ExtendedCategory>) {
    && categories != []
    && forall category :: category in categories ==> WellFormedCategory(category)
  }

  /** A transform of a non-empty list is a well-formed catalogue. */
  lemma TransformWellFormed(categories: seq<RawCategory>)
    requires AllTransformable(categories) && categories != []
    ensures WellFormedCatalogue(Transform(categories))
  {
    forall c | 0 <= c < |categories| ensures WellFormedCategory(Transform(categories)[c]) {
      TransformCategoryFields(categories, c);
    }
  }
}
