/**
 * The `blog` content collection schema: how one markdown file's front matter is
 * validated and normalised into the typed data of a blog post.
 *
 * Each field rule follows the zod schema of `src/content.config.ts`:
 *   - `title`, `description`: required strings;
 *   - `pubDate`: required, coerced to a date;
 *   - `updatedDate`: optional, coerced to a date when present;
 *   - `author`, `draft`, `tags`: defaulted when absent;
 *   - `image`: optional object with both `src` and `alt` strings;
 *   - `readingTime`: optional number.
 * Keys outside the schema are dropped. Validation does not stop at the first bad
 * field: every issue is collected, in the order the schema lists its fields.
 *
 * Date coercion (`new Date(value)`) is library code and is passed in as a
 * function `coerce` that either yields an instant or reports an invalid date.
 */
module ContentSchema {
  import opened Wrappers

  /** A JavaScript `Date`, represented by its time value in milliseconds since the epoch. */
  datatype Instant = Instant(millis: int)

  /** A front-matter value as the markdown loader hands it to the schema. */
  datatype Value =
    | Null
    | Bool(b: bool)
    | Num(n: real)
    | Str(s: string)
    | Timestamp(t: Instant)   // a date the front-matter parser already turned into a `Date`
    | List(items: seq<Value>)
    | Object(fields: map<string, Value>)

  /** The front matter of one file: keys that are absent are simply not in the map. */
  type FrontMatter = map<string, Value>

  /** `new Date(value)`: an instant, or `None` for an Invalid Date. */
  type DateCoercion = Value -> Option<Instant>

  /** Where in the front matter an issue was found. */
  datatype PathSegment = Key(name: string) | Index(i: nat)

  /**
   * The kinds of validation issue the schema can raise. The schema library reports a
   * missing key as a type issue whose received type is `undefined` (message "Required");
   * `Required` stands for that case, `InvalidType` for a present value of the wrong type,
   * and `InvalidDate` for a value that coerces to an Invalid Date.
   */
  datatype IssueCode = Required | InvalidType | InvalidDate

  datatype Issue = Issue(path: seq<PathSegment>, code: IssueCode)

  datatype Image = Image(src: string, alt: string)

  /** The validated, defaulted data of one blog post. */
  datatype PostData = PostData(
    title: string,
    description: string,
    pubDate: Instant,
    updatedDate: Option<Instant>,
    author: string,
    draft: bool,
    tags: seq<string>,
    image: Option<Image>,
    readingTime: Option<real>)

  /** An entry of the collection: the slug the loader derived from the file path, and its data. */
  datatype CollectionEntry = CollectionEntry(id: string, data: PostData)

  const DefaultAuthor: string := "Daniel Dieppa"

  const SchemaKeys: set<string> :=
    {"title", "description", "pubDate", "updatedDate", "author", "draft", "tags", "image", "readingTime"}

  function Lookup<V>(m: map<string, V>, key: string): Option<V>
  {
    if key in m then Some(m[key]) else None
  }

  function IssuesOf<T>(r: Result<T, seq<Issue>>): seq<Issue>
  {
    if r.Failure? then r.error else []
  }

  /** The issue raised for a `tags` element that is not a string. */
  function TagIssue(i: nat): Issue
  {
    Issue([Key("tags"), Index(i)], InvalidType)
  }

  /** The issue is reported at one of the schema's own fields. */
  predicate AtSchemaField(e: Issue)
  {
    |e.path| > 0 && e.path[0].Key? && e.path[0].name in SchemaKeys
  }

  predicate AllAtSchemaFields(issues: seq<Issue>)
  {
    forall e :: e in issues ==> AtSchemaField(e)
  }

  predicate IsString(v: Option<Value>)
  {
    v.Some? && v.value.Str?
  }

  predicate AllStrings(items: seq<Value>)
  {
    forall i :: 0 <= i < |items| ==> items[i].Str?
  }

  // ---------------------------------------------------------------------------
  // Field rules
  // ---------------------------------------------------------------------------

  /** `z.string()`: an absent value is `Required`, any non-string is `InvalidType`. */
  function CheckString(path: seq<PathSegment>, v: Option<Value>): Result<string, seq<Issue>>
  {
    match v
    case None => Failure([Issue(path, Required)])
    case Some(Str(s)) => Success(s)
    case Some(_) => Failure([Issue(path, InvalidType)])
  }

  /**
   * `z.coerce.date()`: the value is always passed through `new Date(...)` first, and
   * `new Date(undefined)` is an Invalid Date, so an absent value is an `InvalidDate`.
   */
  function CheckDate(path: seq<PathSegment>, v: Option<Value>, coerce: DateCoercion): Result<Instant, seq<Issue>>
  {
    var coerced := if v.Some? then coerce(v.value) else None;
    match coerced
    case Some(t) => Success(t)
    case None => Failure([Issue(path, InvalidDate)])
  }

  /** `z.coerce.date().optional()`: absence is accepted before coercion is tried. */
  function CheckOptionalDate(path: seq<PathSegment>, v: Option<Value>, coerce: DateCoercion): Result<Option<Instant>, seq<Issue>>
  {
    if v.None? then Success(None)
    else match CheckDate(path, v, coerce)
      case Success(t) => Success(Some(t))
      case Failure(e) => Failure(e)
  }

  /** `z.string().default('Daniel Dieppa')`. */
  function CheckAuthor(v: Option<Value>): Result<string, seq<Issue>>
  {
    if v.None? then Success(DefaultAuthor) else CheckString([Key("author")], v)
  }

  /** `z.boolean().default(false)`: only an absent value is defaulted; `null` is a type error. */
  function CheckDraft(v: Option<Value>): Result<bool, seq<Issue>>
  {
    match v
    case None => Success(false)
    case Some(Bool(b)) => Success(b)
    case Some(_) => Failure([Issue([Key("draft")], InvalidType)])
  }

  /** `z.array(z.string())` on the elements of `tags`: every non-string element is reported. */
  function CheckTagItems(items: seq<Value>): (r: Result<seq<string>, seq<Issue>>)
    ensures r.Success? <==> AllStrings(items)
    ensures r.Success? ==> |r.value| == |items| && forall i :: 0 <= i < |items| ==> r.value[i] == items[i].s
    ensures r.Failure? ==> r.error != []
    ensures r.Failure? ==> forall i :: 0 <= i < |items| && !items[i].Str? ==> TagIssue(i) in r.error
    ensures r.Failure? ==> forall e :: e in r.error ==> exists i :: 0 <= i < |items| && !items[i].Str? && e == TagIssue(i)
    decreases |items|
  {
    if |items| == 0 then Success([])
    else
      var n := |items| - 1;
      var front := CheckTagItems(items[..n]);
      var last := items[n];
      if front.Success? && last.Str? then Success(front.value + [last.s])
      else Failure(IssuesOf(front) + (if last.Str? then [] else [TagIssue(n)]))
  }

  /** `z.array(z.string()).default([])`. */
  function CheckTags(v: Option<Value>): Result<seq<string>, seq<Issue>>
  {
    match v
    case None => Success([])
    case Some(List(items)) => CheckTagItems(items)
    case Some(_) => Failure([Issue([Key("tags")], InvalidType)])
  }

  /** `z.object({ src: z.string(), alt: z.string() }).optional()`. */
  function CheckImage(v: Option<Value>): Result<Option<Image>, seq<Issue>>
  {
    match v
    case None => Success(None)
    case Some(Object(fields)) =>
      var src := CheckString([Key("image"), Key("src")], Lookup(fields, "src"));
      var alt := CheckString([Key("image"), Key("alt")], Lookup(fields, "alt"));
      if src.Success? && alt.Success? then Success(Some(Image(src.value, alt.value)))
      else Failure(IssuesOf(src) + IssuesOf(alt))
    case Some(_) => Failure([Issue([Key("image")], InvalidType)])
  }

  /** `z.number().optional()`. */
  function CheckReadingTime(v: Option<Value>): Result<Option<real>, seq<Issue>>
  {
    match v
    case None => Success(None)
    case Some(Num(n)) => Success(Some(n))
    case Some(_) => Failure([Issue([Key("readingTime")], InvalidType)])
  }

  // ---------------------------------------------------------------------------
  // The schema
  // ---------------------------------------------------------------------------

  /**
   * Validates and normalises one file's front matter. Either every field passes and
   * the defaulted data is returned, or the issues of every failing field are returned.
   */
  function Parse(fm: FrontMatter, coerce: DateCoercion): (r: Result<PostData, seq<Issue>>)
    ensures r.Success? <==> Conforms(fm, coerce)
    ensures r.Failure? ==> r.error != []
  {
    var title := CheckString([Key("title")], Lookup(fm, "title"));
    var description := CheckString([Key("description")], Lookup(fm, "description"));
    var pubDate := CheckDate([Key("pubDate")], Lookup(fm, "pubDate"), coerce);
    var updatedDate := CheckOptionalDate([Key("updatedDate")], Lookup(fm, "updatedDate"), coerce);
    var author := CheckAuthor(Lookup(fm, "author"));
    var draft := CheckDraft(Lookup(fm, "draft"));
    var tags := CheckTags(Lookup(fm, "tags"));
    var image := CheckImage(Lookup(fm, "image"));
    var readingTime := CheckReadingTime(Lookup(fm, "readingTime"));
    if && title.Success? && description.Success? && pubDate.Success?
       && updatedDate.Success? && author.Success? && draft.Success?
       && tags.Success? && image.Success? && readingTime.Success?
    then
      Success(PostData(title.value, description.value, pubDate.value, updatedDate.value,
                       author.value, draft.value, tags.value, image.value, readingTime.value))
    else
      Failure(ParseIssues(fm, coerce))
  }

  /** Every issue the schema raises on the front matter, field by field in schema order. */
  function ParseIssues(fm: FrontMatter, coerce: DateCoercion): seq<Issue>
  {
    IssuesOf(CheckString([Key("title")], Lookup(fm, "title")))
    + IssuesOf(CheckString([Key("description")], Lookup(fm, "description")))
    + IssuesOf(CheckDate([Key("pubDate")], Lookup(fm, "pubDate"), coerce))
    + IssuesOf(CheckOptionalDate([Key("updatedDate")], Lookup(fm, "updatedDate"), coerce))
    + IssuesOf(CheckAuthor(Lookup(fm, "author")))
    + IssuesOf(CheckDraft(Lookup(fm, "draft")))
    + IssuesOf(CheckTags(Lookup(fm, "tags")))
    + IssuesOf(CheckImage(Lookup(fm, "image")))
    + IssuesOf(CheckReadingTime(Lookup(fm, "readingTime")))
  }

  /** The schema as a plain statement of which front matter is acceptable. */
  predicate Conforms(fm: FrontMatter, coerce: DateCoercion)
  {
    && IsString(Lookup(fm, "title"))
    && IsString(Lookup(fm, "description"))
    && "pubDate" in fm && coerce(fm["pubDate"]).Some?
    && ("updatedDate" in fm ==> coerce(fm["updatedDate"]).Some?)
    && ("author" in fm ==> fm["author"].Str?)
    && ("draft" in fm ==> fm["draft"].Bool?)
    && ("tags" in fm ==> fm["tags"].List? && AllStrings(fm["tags"].items))
    && ("image" in fm ==>
          fm["image"].Object?
          && IsString(Lookup(fm["image"].fields, "src"))
          && IsString(Lookup(fm["image"].fields, "alt")))
    && ("readingTime" in fm ==> fm["readingTime"].Num?)
  }

  /** Writes post data back as front matter, every field explicit. */
  function Render(d: PostData): FrontMatter
  {
    var base := map[
      "title" := Str(d.title),
      "description" := Str(d.description),
      "pubDate" := Timestamp(d.pubDate),
      "author" := Str(d.author),
      "draft" := Bool(d.draft),
      "tags" := List(seq(|d.tags|, i requires 0 <= i < |d.tags| => Str(d.tags[i])))];
    var withUpdated := if d.updatedDate.Some? then base["updatedDate" := Timestamp(d.updatedDate.value)] else base;
    var withImage :=
      if d.image.Some?
      then withUpdated["image" := Object(map["src" := Str(d.image.value.src), "alt" := Str(d.image.value.alt)])]
      else withUpdated;
    if d.readingTime.Some? then withImage["readingTime" := Num(d.readingTime.value)] else withImage
  }

  /** The front matter with every key outside the schema dropped. */
  function KnownKeys(fm: FrontMatter): FrontMatter
  {
    map k | k in fm && k in SchemaKeys :: fm[k]
  }

  // ---------------------------------------------------------------------------
  // Properties
  // ---------------------------------------------------------------------------

  /** The three required fields: a missing one is reported and no entry is produced. */
  lemma MissingRequiredFieldRejected(fm: FrontMatter, coerce: DateCoercion)
    ensures "title" !in fm ==>
      Parse(fm, coerce).Failure? && Issue([Key("title")], Required) in Parse(fm, coerce).error
    ensures "description" !in fm ==>
      Parse(fm, coerce).Failure? && Issue([Key("description")], Required) in Parse(fm, coerce).error
    ensures "pubDate" !in fm ==>
      Parse(fm, coerce).Failure? && Issue([Key("pubDate")], InvalidDate) in Parse(fm, coerce).error
  {
  }

  /** Required fields are carried over unchanged; `pubDate` is the coerced instant. */
  lemma NormalisedRequiredFields(fm: FrontMatter, coerce: DateCoercion)
    requires Parse(fm, coerce).Success?
    ensures "title" in fm && Parse(fm, coerce).value.title == fm["title"].s
    ensures "description" in fm && Parse(fm, coerce).value.description == fm["description"].s
    ensures "pubDate" in fm && coerce(fm["pubDate"]) == Some(Parse(fm, coerce).value.pubDate)
  {
  }

  /** Defaults apply exactly when the key is absent; a present value is kept as written. */
  lemma NormalisedDefaults(fm: FrontMatter, coerce: DateCoercion)
    requires Parse(fm, coerce).Success?
    ensures Parse(fm, coerce).value.author == if "author" in fm then fm["author"].s else DefaultAuthor
    ensures Parse(fm, coerce).value.draft == if "draft" in fm then fm["draft"].b else false
    ensures "tags" !in fm ==> Parse(fm, coerce).value.tags == []
    ensures "tags" in fm ==>
      var items := fm["tags"].items;
      var tags := Parse(fm, coerce).value.tags;
      |tags| == |items| && forall i :: 0 <= i < |items| ==> tags[i] == items[i].s
  {
  }

  /** Optional fields: absent in means absent out, present in means carried through. */
  lemma NormalisedOptionals(fm: FrontMatter, coerce: DateCoercion)
    requires Parse(fm, coerce).Success?
    ensures Parse(fm, coerce).value.updatedDate == if "updatedDate" in fm then coerce(fm["updatedDate"]) else None
    ensures Parse(fm, coerce).value.readingTime == if "readingTime" in fm then Some(fm["readingTime"].n) else None
    ensures Parse(fm, coerce).value.image ==
      if "image" in fm
      then Some(Image(fm["image"].fields["src"].s, fm["image"].fields["alt"].s))
      else None
  {
  }

  /** An image given with only one of `src` and `alt` rejects the whole entry. */
  lemma HalfSpecifiedImageRejected(fm: FrontMatter, coerce: DateCoercion)
    requires "image" in fm && fm["image"].Object?
    requires ("src" in fm["image"].fields) != ("alt" in fm["image"].fields)
    ensures Parse(fm, coerce).Failure?
    ensures "src" !in fm["image"].fields ==> Issue([Key("image"), Key("src")], Required) in Parse(fm, coerce).error
    ensures "alt" !in fm["image"].fields ==> Issue([Key("image"), Key("alt")], Required) in Parse(fm, coerce).error
  {
  }

  /**
   * A `draft` that is present but not a boolean (the string "true", say, or `null`)
   * rejects the entry instead of being read as published or as a draft.
   */
  lemma NonBooleanDraftRejected(fm: FrontMatter, coerce: DateCoercion)
    requires "draft" in fm && !fm["draft"].Bool?
    ensures Parse(fm, coerce).Failure?
    ensures Issue([Key("draft")], InvalidType) in Parse(fm, coerce).error
  {
  }

  /**
   * The normalised `draft` is true exactly when the front matter says `draft: true`.
   * So the strict boolean test on the entry agrees with the tri-state `draft === true`
   * test on what the author wrote, where an absent draft counts as not true.
   */
  lemma NormalisedDraftMatchesRawTest(fm: FrontMatter, coerce: DateCoercion)
    requires Parse(fm, coerce).Success?
    ensures Parse(fm, coerce).value.draft <==> Lookup(fm, "draft") == Some(Bool(true))
  {
  }

  /** Every issue names a schema field: no key outside the schema is ever complained about. */
  lemma IssuesNameSchemaFields(fm: FrontMatter, coerce: DateCoercion)
    requires Parse(fm, coerce).Failure?
    ensures AllAtSchemaFields(Parse(fm, coerce).error)
  {
    ScalarIssuesAtSchemaFields(fm, coerce);
    DefaultedIssuesAtSchemaFields(fm);
    ImageIssuesAtSchemaField(Lookup(fm, "image"));
    TagIssuesAtSchemaField(Lookup(fm, "tags"));
  }

  lemma ScalarIssuesAtSchemaFields(fm: FrontMatter, coerce: DateCoercion)
    ensures AllAtSchemaFields(IssuesOf(CheckString([Key("title")], Lookup(fm, "title"))))
    ensures AllAtSchemaFields(IssuesOf(CheckString([Key("description")], Lookup(fm, "description"))))
    ensures AllAtSchemaFields(IssuesOf(CheckDate([Key("pubDate")], Lookup(fm, "pubDate"), coerce)))
    ensures AllAtSchemaFields(IssuesOf(CheckOptionalDate([Key("updatedDate")], Lookup(fm, "updatedDate"), coerce)))
  {
  }

  lemma DefaultedIssuesAtSchemaFields(fm: FrontMatter)
    ensures AllAtSchemaFields(IssuesOf(CheckAuthor(Lookup(fm, "author"))))
    ensures AllAtSchemaFields(IssuesOf(CheckDraft(Lookup(fm, "draft"))))
    ensures AllAtSchemaFields(IssuesOf(CheckReadingTime(Lookup(fm, "readingTime"))))
  {
  }

  lemma ImageIssuesAtSchemaField(v: Option<Value>)
    ensures AllAtSchemaFields(IssuesOf(CheckImage(v)))
  {
  }

  lemma TagIssuesAtSchemaField(v: Option<Value>)
    ensures AllAtSchemaFields(IssuesOf(CheckTags(v)))
  {
    var tags := CheckTags(v);
    if v.Some? && v.value.List? && tags.Failure? {
      forall e | e in tags.error
        ensures AtSchemaField(e)
      {
        var i :| 0 <= i < |v.value.items| && !v.value.items[i].Str? && e == TagIssue(i);
      }
    }
  }

  /** Keys outside the schema have no effect on the outcome. */
  lemma UnknownKeysIgnored(fm: FrontMatter, coerce: DateCoercion)
    ensures Parse(KnownKeys(fm), coerce) == Parse(fm, coerce)
  {
    forall k | k in SchemaKeys
      ensures Lookup(KnownKeys(fm), k) == Lookup(fm, k)
    {
    }
  }

  /**
   * Normalised data written back with every field explicit validates to itself,
   * given that coercing a date that is already a `Date` keeps its instant.
   */
  lemma ParseRenderRoundTrip(d: PostData, coerce: DateCoercion)
    requires forall t :: coerce(Timestamp(t)) == Some(t)
    ensures Parse(Render(d), coerce) == Success(d)
  {
    var fm := Render(d);
    RenderLookups(d);
    var items := fm["tags"].items;
    var tags := CheckTagItems(items);
    assert AllStrings(items);
    assert tags.value == d.tags;
  }

  lemma RenderLookups(d: PostData)
    ensures Lookup(Render(d), "title") == Some(Str(d.title))
    ensures Lookup(Render(d), "description") == Some(Str(d.description))
    ensures Lookup(Render(d), "pubDate") == Some(Timestamp(d.pubDate))
    ensures Lookup(Render(d), "author") == Some(Str(d.author))
    ensures Lookup(Render(d), "draft") == Some(Bool(d.draft))
    ensures Lookup(Render(d), "tags") == Some(List(seq(|d.tags|, i requires 0 <= i < |d.tags| => Str(d.tags[i]))))
    ensures Lookup(Render(d), "updatedDate") == if d.updatedDate.Some? then Some(Timestamp(d.updatedDate.value)) else None
    ensures Lookup(Render(d), "image") ==
      if d.image.Some?
      then Some(Object(map["src" := Str(d.image.value.src), "alt" := Str(d.image.value.alt)]))
      else None
    ensures Lookup(Render(d), "readingTime") == if d.readingTime.Some? then Some(Num(d.readingTime.value)) else None
  {
  }
}
