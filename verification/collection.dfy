/**
 * The request as a whole: the loader validates every file of the `blog`
 * collection against the schema (one invalid file fails the whole load), the
 * collection query keeps the visible entries, and the endpoint returns their
 * search records. File discovery and front-matter parsing happen before this
 * point: the loader's output is given as a sequence of files in its
 * enumeration order.
 */
module Collection {
  import opened Wrappers
  import opened ContentSchema
  import opened SearchIndex

  /** One markdown file of the collection: the slug derived from its path, and its front matter. */
  datatype SourceFile = SourceFile(id: string, frontMatter: FrontMatter)

  /** The only failure of the pipeline: a file whose front matter does not fit the schema. */
  datatype LoadError = SchemaValidationError(id: string, issues: seq<Issue>)

  /** The file's front matter says `draft: true`, the only value the endpoint's filter hides. */
  predicate MarkedDraft(f: SourceFile)
  {
    Lookup(f.frontMatter, "draft") == Some(Bool(true))
  }

  /** The positions of the files not marked `draft: true`. */
  function UnmarkedPositions(files: seq<SourceFile>): set<int>
  {
    set i | 0 <= i < |files| && !MarkedDraft(files[i])
  }

  /** The record the endpoint serves for a file whose front matter validates. */
  function FileRecord(iso: IsoRendering, coerce: DateCoercion, f: SourceFile): SearchRecord
    requires Parse(f.frontMatter, coerce).Success?
  {
    ToRecord(iso, CollectionEntry(f.id, Parse(f.frontMatter, coerce).value))
  }

  /** File i is the first, in enumeration order, whose front matter fails validation. */
  predicate FirstInvalid(files: seq<SourceFile>, coerce: DateCoercion, i: int)
  {
    && 0 <= i < |files|
    && Parse(files[i].frontMatter, coerce).Failure?
    && forall j :: 0 <= j < i ==> Parse(files[j].frontMatter, coerce).Success?
  }

  /**
   * Validates every file. All valid: one entry per file, in order, carrying the file's
   * slug and normalised data. Otherwise the load fails with the first invalid file's issues.
   */
  function LoadCollection(files: seq<SourceFile>, coerce: DateCoercion): (r: Result<seq<CollectionEntry>, LoadError>)
    ensures r.Success? <==> forall i :: 0 <= i < |files| ==> Parse(files[i].frontMatter, coerce).Success?
    ensures r.Success? ==>
      && |r.value| == |files|
      && forall i :: 0 <= i < |files| ==>
           r.value[i] == CollectionEntry(files[i].id, Parse(files[i].frontMatter, coerce).value)
    ensures r.Failure? ==>
      exists i :: FirstInvalid(files, coerce, i)
        && r.error == SchemaValidationError(files[i].id, Parse(files[i].frontMatter, coerce).error)
    decreases |files|
  {
    if files == [] then Success([])
    else
      match Parse(files[0].frontMatter, coerce)
      case Failure(issues) =>
        assert FirstInvalid(files, coerce, 0);
        Failure(SchemaValidationError(files[0].id, issues))
      case Success(d) =>
        match LoadCollection(files[1..], coerce)
        case Failure(e) =>
          var i :| FirstInvalid(files[1..], coerce, i)
            && e == SchemaValidationError(files[1..][i].id, Parse(files[1..][i].frontMatter, coerce).error);
          assert FirstInvalid(files, coerce, i + 1);
          Failure(e)
        case Success(rest) => Success([CollectionEntry(files[0].id, d)] + rest)
  }

  /**
   * The search-index request: load the collection, then build the index. A single
   * invalid file means no index at all, never a partial one.
   */
  function ServeSearchIndex(production: bool, files: seq<SourceFile>, coerce: DateCoercion, iso: IsoRendering): (r: Result<seq<SearchRecord>, LoadError>)
    ensures r.Failure? <==> exists i :: 0 <= i < |files| && Parse(files[i].frontMatter, coerce).Failure?
    ensures r.Success? ==> |r.value| <= |files|
    ensures r.Success? && !production ==>
      && |r.value| == |files|
      && forall i :: 0 <= i < |files| ==> r.value[i] == FileRecord(iso, coerce, files[i])
  {
    match LoadCollection(files, coerce)
    case Failure(e) => Failure(e)
    case Success(entries) =>
      DevelopmentKeepsEverything(iso, entries);
      Success(BuildIndex(production, iso, entries))
  }

  /**
   * The visibility test on a loaded entry agrees with the `draft !== true` test on the
   * file's own front matter: the schema's default of `false` never changes visibility,
   * and an absent `draft` means visible.
   */
  lemma ProductionVisibilityFollowsRawDraft(files: seq<SourceFile>, coerce: DateCoercion)
    requires LoadCollection(files, coerce).Success?
    ensures forall i :: 0 <= i < |files| ==>
      (Visible(true, LoadCollection(files, coerce).value[i])
       <==> Lookup(files[i].frontMatter, "draft") != Some(Bool(true)))
  {
    forall i | 0 <= i < |files|
      ensures (Visible(true, LoadCollection(files, coerce).value[i])
               <==> Lookup(files[i].frontMatter, "draft") != Some(Bool(true)))
    {
      NormalisedDraftMatchesRawTest(files[i].frontMatter, coerce);
    }
  }

  /**
   * In production, each record of the index is the record of a file whose front matter
   * does not say `draft: true`, and each such file contributes its record.
   */
  lemma ProductionIndexFromFiles(files: seq<SourceFile>, coerce: DateCoercion, iso: IsoRendering)
    requires ServeSearchIndex(true, files, coerce, iso).Success?
    ensures var index := ServeSearchIndex(true, files, coerce, iso).value;
      forall k :: 0 <= k < |index| ==>
        exists i :: 0 <= i < |files|
          && Lookup(files[i].frontMatter, "draft") != Some(Bool(true))
          && index[k] == ToRecord(iso, LoadCollection(files, coerce).value[i])
    ensures var index := ServeSearchIndex(true, files, coerce, iso).value;
      forall i :: 0 <= i < |files| && Lookup(files[i].frontMatter, "draft") != Some(Bool(true)) ==>
        ToRecord(iso, LoadCollection(files, coerce).value[i]) in index
  {
    var entries := LoadCollection(files, coerce).value;
    ProductionVisibilityFollowsRawDraft(files, coerce);
    ProductionHidesDrafts(iso, entries);
  }

  /**
   * In production the index is the records of the files not marked `draft: true`, in
   * file order: there is one record per such file, and record k comes from the k-th of
   * them (the k-th kept position, which is strictly increasing and covers them all).
   */
  lemma ProductionIndexInFileOrder(files: seq<SourceFile>, coerce: DateCoercion, iso: IsoRendering)
    requires ServeSearchIndex(true, files, coerce, iso).Success?
    ensures var index := ServeSearchIndex(true, files, coerce, iso).value;
      var idx := KeptPositions(true, LoadCollection(files, coerce).value);
      && |index| == |idx| == |UnmarkedPositions(files)|
      && StrictlyIncreasing(idx)
      && (forall k :: 0 <= k < |idx| ==>
            && idx[k] < |files|
            && !MarkedDraft(files[idx[k]])
            && index[k] == FileRecord(iso, coerce, files[idx[k]]))
      && (forall i :: 0 <= i < |files| && !MarkedDraft(files[i]) ==> i in idx)
  {
    var entries := LoadCollection(files, coerce).value;
    var idx := KeptPositions(true, entries);
    ProductionVisibilityFollowsRawDraft(files, coerce);
    RetainedAtKeptPositions(true, entries);
    NonDraftCount(entries);
    assert NonDraftPositions(entries) == UnmarkedPositions(files) by {
      forall i | 0 <= i < |files|
        ensures !entries[i].data.draft <==> !MarkedDraft(files[i])
      {
        assert Visible(true, entries[i]) <==> !entries[i].data.draft;
      }
    }
  }

  /** Two example files: a draft "A" and a published "B" with no `draft` key. */
  function ExampleFiles(): seq<SourceFile>
  {
    [ SourceFile("a", map["title" := Str("A"), "description" := Str("d1"),
                          "pubDate" := Str("2024-01-01"), "draft" := Bool(true)]),
      SourceFile("b", map["title" := Str("B"), "description" := Str("d2"),
                          "pubDate" := Str("2024-02-01")]) ]
  }

  /** The two example files load to a draft entry "a" and a published entry "b", defaults applied. */
  lemma ExampleLoads(coerce: DateCoercion)
    requires coerce(Str("2024-01-01")).Some? && coerce(Str("2024-02-01")).Some?
    ensures LoadCollection(ExampleFiles(), coerce) == Success([
      CollectionEntry("a", PostData("A", "d1", coerce(Str("2024-01-01")).value, None, DefaultAuthor, true, [], None, None)),
      CollectionEntry("b", PostData("B", "d2", coerce(Str("2024-02-01")).value, None, DefaultAuthor, false, [], None, None))])
  {
    var files := ExampleFiles();
    var a := files[0].frontMatter;
    var b := files[1].frontMatter;
    assert a.Keys == {"title", "description", "pubDate", "draft"};
    assert b.Keys == {"title", "description", "pubDate"};
    ExampleParses(a, coerce);
    ExampleParses(b, coerce);
    var loaded := LoadCollection(files, coerce);
    assert loaded.Success? && |loaded.value| == 2;
    assert loaded.value[0] == CollectionEntry("a", Parse(a, coerce).value);
    assert loaded.value[1] == CollectionEntry("b", Parse(b, coerce).value);
    assert a["title"] == Str("A") && a["description"] == Str("d1") && a["pubDate"] == Str("2024-01-01");
    assert a["draft"] == Bool(true);
    assert b["title"] == Str("B") && b["description"] == Str("d2") && b["pubDate"] == Str("2024-02-01");
    assert "draft" !in b;
    var da := PostData("A", "d1", coerce(Str("2024-01-01")).value, None, DefaultAuthor, true, [], None, None);
    var db := PostData("B", "d2", coerce(Str("2024-02-01")).value, None, DefaultAuthor, false, [], None, None);
    assert Parse(a, coerce) == Success(da);
    assert Parse(b, coerce) == Success(db);
    assert loaded.value == [CollectionEntry("a", da), CollectionEntry("b", db)];
  }

  lemma ExampleParses(fm: FrontMatter, coerce: DateCoercion)
    requires fm.Keys <= {"title", "description", "pubDate", "draft"}
    requires "title" in fm && fm["title"].Str?
    requires "description" in fm && fm["description"].Str?
    requires "pubDate" in fm && coerce(fm["pubDate"]).Some?
    requires "draft" in fm ==> fm["draft"].Bool?
    ensures Parse(fm, coerce) == Success(PostData(fm["title"].s, fm["description"].s, coerce(fm["pubDate"]).value,
      None, DefaultAuthor, "draft" in fm && fm["draft"].b, [], None, None))
  {
    assert Lookup(fm, "updatedDate") == None;
    assert Lookup(fm, "author") == None;
    assert Lookup(fm, "tags") == None;
    assert Lookup(fm, "image") == None;
    assert Lookup(fm, "readingTime") == None;
  }

  /** Production shows only "B"; development shows both, in source order. */
  lemma ExampleScenario(coerce: DateCoercion, iso: IsoRendering)
    requires coerce(Str("2024-01-01")).Some? && coerce(Str("2024-02-01")).Some?
    ensures ServeSearchIndex(true, ExampleFiles(), coerce, iso)
      == Success([SearchRecord("B", "d2", "b", [], iso(coerce(Str("2024-02-01")).value))])
    ensures ServeSearchIndex(false, ExampleFiles(), coerce, iso)
      == Success([SearchRecord("A", "d1", "a", [], iso(coerce(Str("2024-01-01")).value)),
                  SearchRecord("B", "d2", "b", [], iso(coerce(Str("2024-02-01")).value))])
  {
    ExampleLoads(coerce);
    var ea := CollectionEntry("a", PostData("A", "d1", coerce(Str("2024-01-01")).value, None, DefaultAuthor, true, [], None, None));
    var eb := CollectionEntry("b", PostData("B", "d2", coerce(Str("2024-02-01")).value, None, DefaultAuthor, false, [], None, None));
    assert [ea, eb][..1] == [ea];
    assert Retained(true, [ea]) == [];
    assert Retained(true, [ea, eb]) == [eb];
    assert BuildIndex(true, iso, [ea, eb]) == [ToRecord(iso, eb)];
    DevelopmentKeepsEverything(iso, [ea, eb]);
    assert BuildIndex(false, iso, [ea, eb]) == [ToRecord(iso, ea), ToRecord(iso, eb)];
  }
}
