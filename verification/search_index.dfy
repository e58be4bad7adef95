/**
 * The search-index endpoint's core: the visibility predicate handed to the
 * collection query, and the projection of each retained entry to the record the
 * client-side search reads. Together they are a filter followed by a map.
 *
 * `Date.prototype.toISOString` is library code and is passed in as `iso`.
 */
module SearchIndex {
  import opened ContentSchema

  /** One element of the JSON search index. */
  datatype SearchRecord = SearchRecord(
    title: string,
    description: string,
    slug: string,
    tags: seq<string>,
    pubDate: string)

  /** The ISO-8601 rendering of an instant. */
  type IsoRendering = Instant -> string

  /** Whether the collection query keeps an entry: in production a draft is hidden. */
  predicate Visible(production: bool, e: CollectionEntry)
  {
    if production then e.data.draft != true else true
  }

  /** The record an entry contributes to the index. */
  function ToRecord(iso: IsoRendering, e: CollectionEntry): SearchRecord
  {
    SearchRecord(e.data.title, e.data.description, e.id, e.data.tags, iso(e.data.pubDate))
  }

  /** The entries the collection query returns, in the loader's order. */
  function Retained(production: bool, entries: seq<CollectionEntry>): (kept: seq<CollectionEntry>)
    ensures |kept| <= |entries|
    ensures forall i :: 0 <= i < |kept| ==> Visible(production, kept[i])
    decreases |entries|
  {
    if entries == [] then []
    else
      var n := |entries| - 1;
      Retained(production, entries[..n]) + (if Visible(production, entries[n]) then [entries[n]] else [])
  }

  /** The search index: the retained entries, each projected to its record, order kept. */
  function BuildIndex(production: bool, iso: IsoRendering, entries: seq<CollectionEntry>): (index: seq<SearchRecord>)
    ensures |index| <= |entries|
    ensures entries == [] ==> index == []
  {
    var kept := Retained(production, entries);
    seq(|kept|, i requires 0 <= i < |kept| => ToRecord(iso, kept[i]))
  }

  // ---------------------------------------------------------------------------
  // An independent description of the filter: the positions it keeps
  // ---------------------------------------------------------------------------

  predicate StrictlyIncreasing(s: seq<nat>)
  {
    forall i, j :: 0 <= i < j < |s| ==> s[i] < s[j]
  }

  /**
   * The positions of the visible entries, in increasing order. Its contract pins it
   * down uniquely: strictly increasing, only visible positions, and every one of them.
   */
  function KeptPositions(production: bool, entries: seq<CollectionEntry>): (idx: seq<nat>)
    ensures StrictlyIncreasing(idx)
    ensures forall k :: 0 <= k < |idx| ==> idx[k] < |entries| && Visible(production, entries[idx[k]])
    ensures forall j :: 0 <= j < |entries| && Visible(production, entries[j]) ==> j in idx
    decreases |entries|
  {
    if entries == [] then []
    else
      var n := |entries| - 1;
      KeptPositions(production, entries[..n]) + (if Visible(production, entries[n]) then [n] else [])
  }

  /** The positions of the entries that are not drafts. */
  function NonDraftPositions(entries: seq<CollectionEntry>): set<int>
  {
    set i | 0 <= i < |entries| && !entries[i].data.draft
  }

  // ---------------------------------------------------------------------------
  // Properties
  // ---------------------------------------------------------------------------

  /** The filter keeps exactly the entries at the kept positions, in that order. */
  lemma {:induction false} RetainedAtKeptPositions(production: bool, entries: seq<CollectionEntry>)
    ensures var idx := KeptPositions(production, entries);
      && |Retained(production, entries)| == |idx|
      && forall k :: 0 <= k < |idx| ==> Retained(production, entries)[k] == entries[idx[k]]
    decreases |entries|
  {
    if entries != [] {
      var n := |entries| - 1;
      var prefix := entries[..n];
      RetainedAtKeptPositions(production, prefix);
      var front := Retained(production, prefix);
      var idx := KeptPositions(production, prefix);
      var tail := if Visible(production, entries[n]) then [entries[n]] else [];
      var tailIdx := if Visible(production, entries[n]) then [n] else [];
      assert Retained(production, entries) == front + tail;
      assert KeptPositions(production, entries) == idx + tailIdx;
      forall k | 0 <= k < |idx| + |tailIdx|
        ensures (front + tail)[k] == entries[(idx + tailIdx)[k]]
      {
        if k < |idx| {
          assert prefix[idx[k]] == entries[idx[k]];
        }
      }
    }
  }

  /**
   * Record k of the index comes from the k-th visible entry: its slug is the entry's
   * id, its title, description and tags are the entry's, and its pubDate is the ISO
   * rendering of the entry's pubDate.
   */
  lemma BuildIndexFollowsKeptPositions(production: bool, iso: IsoRendering, entries: seq<CollectionEntry>)
    ensures var idx := KeptPositions(production, entries);
      var index := BuildIndex(production, iso, entries);
      && |index| == |idx|
      && forall k :: 0 <= k < |idx| ==>
           && index[k].slug == entries[idx[k]].id
           && index[k].title == entries[idx[k]].data.title
           && index[k].description == entries[idx[k]].data.description
           && index[k].tags == entries[idx[k]].data.tags
           && index[k].pubDate == iso(entries[idx[k]].data.pubDate)
  {
    RetainedAtKeptPositions(production, entries);
  }

  /**
   * In production every record comes from an entry that is not a draft, every entry
   * that is not a draft contributes its record, and the index has one record per
   * non-draft entry.
   */
  lemma {:induction false} ProductionHidesDrafts(iso: IsoRendering, entries: seq<CollectionEntry>)
    ensures var index := BuildIndex(true, iso, entries);
      forall k :: 0 <= k < |index| ==>
        exists i :: 0 <= i < |entries| && !entries[i].data.draft && index[k] == ToRecord(iso, entries[i])
    ensures forall i :: 0 <= i < |entries| && !entries[i].data.draft ==>
      ToRecord(iso, entries[i]) in BuildIndex(true, iso, entries)
    ensures |BuildIndex(true, iso, entries)| == |NonDraftPositions(entries)|
  {
    var index := BuildIndex(true, iso, entries);
    var idx := KeptPositions(true, entries);
    RetainedAtKeptPositions(true, entries);
    forall k | 0 <= k < |index|
      ensures exists i :: 0 <= i < |entries| && !entries[i].data.draft && index[k] == ToRecord(iso, entries[i])
    {
      assert index[k] == ToRecord(iso, entries[idx[k]]);
    }
    forall i | 0 <= i < |entries| && !entries[i].data.draft
      ensures ToRecord(iso, entries[i]) in index
    {
      assert Visible(true, entries[i]);
      var k :| 0 <= k < |idx| && idx[k] == i;
      assert index[k] == ToRecord(iso, entries[i]);
    }
    NonDraftCount(entries);
  }

  /** The production filter keeps as many entries as there are non-draft positions. */
  lemma {:induction false} NonDraftCount(entries: seq<CollectionEntry>)
    ensures |Retained(true, entries)| == |NonDraftPositions(entries)|
    decreases |entries|
  {
    if entries != [] {
      var n := |entries| - 1;
      var prefix := entries[..n];
      NonDraftCount(prefix);
      var last := if entries[n].data.draft then {} else {n};
      assert NonDraftPositions(entries) == NonDraftPositions(prefix) + last;
      assert n !in NonDraftPositions(prefix);
    }
  }

  /** Outside production nothing is filtered: record i is the record of entry i. */
  lemma {:induction false} DevelopmentKeepsEverything(iso: IsoRendering, entries: seq<CollectionEntry>)
    ensures var index := BuildIndex(false, iso, entries);
      |index| == |entries| && forall i :: 0 <= i < |entries| ==> index[i] == ToRecord(iso, entries[i])
  {
    RetainedAtKeptPositions(false, entries);
    var idx := KeptPositions(false, entries);
    KeptPositionsAreAll(idx, |entries|);
  }

  /** A strictly increasing sequence below n that contains every position below n is 0, 1, ..., n-1. */
  lemma KeptPositionsAreAll(idx: seq<nat>, n: nat)
    requires StrictlyIncreasing(idx)
    requires forall k :: 0 <= k < |idx| ==> idx[k] < n
    requires forall j :: 0 <= j < n ==> j in idx
    ensures |idx| == n && forall k :: 0 <= k < n ==> idx[k] == k
  {
    forall j | 0 <= j < n
      ensures j < |idx| && idx[j] == j
    {
      PositionIsIdentity(idx, n, j);
    }
    if |idx| > n {
      IncreasingAtLeastPosition(idx, n);
    } else if n > 0 {
      PositionIsIdentity(idx, n, n - 1);
    }
  }

  lemma {:induction false} PositionIsIdentity(idx: seq<nat>, n: nat, j: nat)
    requires StrictlyIncreasing(idx)
    requires forall k :: 0 <= k < |idx| ==> idx[k] < n
    requires forall p :: 0 <= p < n ==> p in idx
    requires j < n
    ensures j < |idx| && idx[j] == j
    decreases j
  {
    assert j in idx;
    var k :| 0 <= k < |idx| && idx[k] == j;
    if j > 0 {
      PositionIsIdentity(idx, n, j - 1);
      assert k >= j;
    }
  }

  lemma {:induction false} IncreasingAtLeastPosition(idx: seq<nat>, k: nat)
    requires StrictlyIncreasing(idx)
    requires k < |idx|
    ensures idx[k] >= k
    decreases k
  {
    if k > 0 {
      IncreasingAtLeastPosition(idx, k - 1);
    }
  }

  /**
   * A record is determined by, and determines, exactly the entry's id, title,
   * description, tags and rendered pubDate: author, draft, image, updatedDate and
   * readingTime never reach the index.
   */
  lemma RecordDependsOnlyOnIndexedFields(iso: IsoRendering, e1: CollectionEntry, e2: CollectionEntry)
    ensures ToRecord(iso, e1) == ToRecord(iso, e2) <==>
      && e1.id == e2.id
      && e1.data.title == e2.data.title
      && e1.data.description == e2.data.description
      && e1.data.tags == e2.data.tags
      && iso(e1.data.pubDate) == iso(e2.data.pubDate)
  {
  }
}
