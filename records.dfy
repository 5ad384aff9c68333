/** The index-records screen: the records of one search index, a
    case-insensitive search over them, record deletion, and the base path the
    screen's navigation links are built from. Both copies of the screen
    (components/index-records and components/channels) are modelled here.
    Submitting the search box refetches in the first and re-filters in the
    second; only the first derives the base path. */
module Records {
  import opened Common
  import opened Text

  datatype Category = Category(en: string)

  /** The fields of an index record the screen reads; every other field of the
      stored JSON object is only displayed. `nameEn` is `name.en`. */
  datatype Record = Record(nameEn: string, productType: string, categories: seq<Category>, objectID: string)

  /** The body of a successful browse call: its `hits` array. */
  datatype BrowseBody = BrowseBody(hits: seq<Record>)

  /** The search predicate: the lower-cased term occurs in the lower-cased
      name, object ID, product type or the label of some category. The
      empty term matches every record, and a record's own object ID finds
      it. */
  predicate Matches(r: Record, term: string)
    ensures term == "" || term == r.objectID ==> Matches(r, term)
  {
    var t := Lower(term);
    || Includes(Lower(r.nameEn), t)
    || Includes(Lower(r.objectID), t)
    || Includes(Lower(r.productType), t)
    || exists i :: 0 <= i < |r.categories| && Includes(Lower(r.categories[i].en), t)
  }

  /** `records.filter(record => Matches(record, searchTerm))`. */
  function FilterRecords(rs: seq<Record>, term: string): (r: seq<Record>)
    ensures |r| <= |rs|
    ensures forall i :: 0 <= i < |r| ==> r[i] in rs && Matches(r[i], term)
    decreases |rs|
  {
    if rs == [] then []
    else (if Matches(rs[0], term) then [rs[0]] else []) + FilterRecords(rs[1..], term)
  }

  /** The search ignores the case of the term: a term and its lower-cased
      form match the same records. */
  lemma MatchesIgnoresCase(r: Record, term: string)
    ensures Matches(r, term) <==> Matches(r, Lower(term))
  {
    LowerIdempotent(term);
  }

  /** The positions `idx` pick out a subsequence of `rs` in increasing order. */
  ghost predicate Picks(idx: seq<nat>, rs: seq<Record>, r: seq<Record>)
  {
    && |idx| == |r|
    && (forall k :: 0 <= k < |idx| ==> idx[k] < |rs| && r[k] == rs[idx[k]])
    && (forall k, l :: 0 <= k < l < |idx| ==> idx[k] < idx[l])
  }

  /** The positions of `idx`, each moved one place to the right. */
  function Shift(idx: seq<nat>): (r: seq<nat>)
    ensures |r| == |idx|
    ensures forall k :: 0 <= k < |idx| ==> r[k] == idx[k] + 1
  {
    seq(|idx|, k requires 0 <= k < |idx| => idx[k] + 1)
  }

  /** Positions picked from the tail of `rs` are picked from `rs` once shifted. */
  lemma PicksShift(idx: seq<nat>, rs: seq<Record>, r: seq<Record>)
    requires rs != []
    requires Picks(idx, rs[1..], r)
    ensures Picks(Shift(idx), rs, r)
    ensures 0 !in Shift(idx)
    ensures forall i :: 1 <= i < |rs| ==> (i in Shift(idx) <==> i - 1 in idx)
  {
    var sh := Shift(idx);
    forall i | 1 <= i < |rs| ensures i in sh <==> i - 1 in idx {
      if i - 1 in idx {
        var k :| 0 <= k < |idx| && idx[k] == i - 1;
        assert sh[k] == i;
      }
    }
  }

  /** Putting the head of `rs` in front of a pick from its tail. */
  lemma PicksCons(idx: seq<nat>, rs: seq<Record>, r: seq<Record>)
    requires rs != []
    requires Picks(idx, rs, r)
    requires 0 !in idx
    ensures Picks([0] + idx, rs, [rs[0]] + r)
  {
    var idx', r' := [0] + idx, [rs[0]] + r;
    forall k, l | 0 <= k < l < |idx'| ensures idx'[k] < idx'[l] {
      if k > 0 {
        assert idx'[k] == idx[k - 1] && idx'[l] == idx[l - 1];
      } else {
        assert idx'[l] == idx[l - 1] && idx[l - 1] != 0;
      }
    }
    forall k | 0 <= k < |idx'| ensures idx'[k] < |rs| && r'[k] == rs[idx'[k]] {
      if k > 0 {
        assert idx'[k] == idx[k - 1] && r'[k] == r[k - 1];
      }
    }
  }

  /** The filtered list is the subsequence of `rs`, in the original order,
      made of exactly the records that match: `idx` lists their positions. */
  lemma {:induction false} FilterSelectsMatches(rs: seq<Record>, term: string) returns (idx: seq<nat>)
    ensures Picks(idx, rs, FilterRecords(rs, term))
    ensures forall i :: 0 <= i < |rs| ==> (Matches(rs[i], term) <==> i in idx)
    decreases |rs|
  {
    if rs == [] {
      idx := [];
    } else {
      var tail := FilterSelectsMatches(rs[1..], term);
      var rt := FilterRecords(rs[1..], term);
      PicksShift(tail, rs, rt);
      var sh := Shift(tail);
      if Matches(rs[0], term) {
        idx := [0] + sh;
        PicksCons(sh, rs, rt);
        assert FilterRecords(rs, term) == [rs[0]] + rt;
      } else {
        idx := sh;
        assert FilterRecords(rs, term) == rt;
      }
      forall i | 0 <= i < |rs| ensures Matches(rs[i], term) <==> i in idx {
        if i > 0 {
          assert rs[i] == rs[1..][i - 1];
          assert i in idx <==> i in sh;
        }
      }
    }
  }

  /** Every record of the filtered list matches, and every matching record of
      `rs` is in it. */
  lemma FilterMembership(rs: seq<Record>, term: string, x: Record)
    ensures x in FilterRecords(rs, term) <==> x in rs && Matches(x, term)
  {
    var idx := FilterSelectsMatches(rs, term);
    var r := FilterRecords(rs, term);
    if x in r {
      var k :| 0 <= k < |r| && r[k] == x;
      assert rs[idx[k]] == x;
    }
    if x in rs && Matches(x, term) {
      var i :| 0 <= i < |rs| && rs[i] == x;
      var k :| 0 <= k < |idx| && idx[k] == i;
      assert r[k] == x;
    }
  }

  /** An empty search term keeps every record, in order. */
  lemma {:induction false} FilterEmptyTerm(rs: seq<Record>)
    ensures FilterRecords(rs, "") == rs
    decreases |rs|
  {
    if rs != [] {
      IncludesEmpty(Lower(rs[0].nameEn));
      assert Lower("") == "";
      FilterEmptyTerm(rs[1..]);
      assert [rs[0]] + rs[1..] == rs;
    }
  }

  /** Filtering an already filtered list with the same term changes nothing. */
  lemma {:induction false} FilterIdempotent(rs: seq<Record>, term: string)
    ensures FilterRecords(FilterRecords(rs, term), term) == FilterRecords(rs, term)
    decreases |rs|
  {
    if rs != [] {
      var tail := FilterRecords(rs[1..], term);
      FilterIdempotent(rs[1..], term);
      if Matches(rs[0], term) {
        var r := [rs[0]] + tail;
        assert r[0] == rs[0] && r[1..] == tail;
        assert FilterRecords(r, term) == [rs[0]] + FilterRecords(tail, term);
      } else {
        assert FilterRecords(rs, term) == tail;
      }
    }
  }

  /** The route segment whose prefix is the screen's base path. */
  const IndexRecordsSegment: string := "/index-records"

  /** `url.split('/index-records')[0]`: the part of the URL before the first
      occurrence of the segment, or the whole URL when it has none. */
  function BasePath(url: string): (r: string)
    ensures r <= url
    ensures IndexOf(url, IndexRecordsSegment).None? ==> r == url
    ensures IndexOf(url, IndexRecordsSegment).Some? ==>
      |r| + |IndexRecordsSegment| <= |url| && url[|r|..|r| + |IndexRecordsSegment|] == IndexRecordsSegment
    ensures forall j :: 0 <= j < |r| ==> !OccursAt(url, IndexRecordsSegment, j)
  {
    match IndexOf(url, IndexRecordsSegment)
    case None => url
    case Some(k) => url[..k]
  }

  /** The base path of `base + "/index-records" + rest` is `base` whenever
      `base` itself does not contain the segment: no occurrence can straddle
      the join, because the segment's only '/' is its first character. */
  lemma BasePathOfJoin(base: string, rest: string)
    requires !Includes(base, IndexRecordsSegment)
    ensures BasePath(base + IndexRecordsSegment + rest) == base
  {
    var seg := IndexRecordsSegment;
    var url := base + seg + rest;
    assert url[|base|..|base| + |seg|] == seg;
    forall j | 0 <= j < |base|
      ensures !OccursAt(url, seg, j)
    {
      if j + |seg| <= |base| {
        assert url[j..j + |seg|] == base[j..j + |seg|];
        assert !OccursAt(base, seg, j);
      } else {
        // The segment's leading '/' would fall inside a copy of it.
        var k := |base| - j;
        assert url[|base|] == seg[0] == '/' by {
          assert url[|base|..|base| + |seg|][0] == url[|base|];
        }
        assert url[j..j + |seg|][k] == url[|base|];
        assert seg[k] != '/' by {
          assert seg[k] == seg[1..][k - 1];
          assert '/' !in seg[1..];
        }
      }
    }
    IndexOfFirst(url, seg, |base|);
  }

  /** The state of one index-records screen: its `useState` slots. */
  class RecordsScreen {
    var indexName: string
    var records: seq<Record>
    var filteredRecords: seq<Record>
    var error: Option<Message>
    var searchTerm: string

    /** The list on screen is the filter of the fetched records by the
        current term, which is what the filter effect re-establishes. */
    ghost predicate Settled()
      reads this
    {
      filteredRecords == FilterRecords(records, searchTerm)
    }

    constructor ()
      ensures indexName == "" && records == [] && filteredRecords == []
      ensures error == None && searchTerm == ""
      ensures Settled()
    {
      indexName, records, filteredRecords := "", [], [];
      error, searchTerm := None, "";
    }

    /** The index-name input's change handler. */
    method EditIndexName(name: string)
      modifies this
      ensures indexName == name
      ensures records == old(records) && filteredRecords == old(filteredRecords)
      ensures error == old(error) && searchTerm == old(searchTerm)
    {
      indexName := name;
    }

    /** `handleSearchChange` and `handleSearchReset` (the latter with ""). */
    method SearchChange(term: string)
      modifies this
      ensures searchTerm == term
      ensures indexName == old(indexName) && records == old(records)
      ensures filteredRecords == old(filteredRecords) && error == old(error)
    {
      searchTerm := term;
    }

    /** The effect that re-filters whenever `searchTerm` or `records` changes. */
    method ApplyFilterEffect()
      modifies this
      ensures Settled()
      ensures filteredRecords == FilterRecords(records, searchTerm)
      ensures indexName == old(indexName) && records == old(records)
      ensures error == old(error) && searchTerm == old(searchTerm)
    {
      filteredRecords := FilterRecords(records, searchTerm);
    }

    /** `fetchRecords`: on success both lists become the hits and the error
        is cleared; on any failure the error is set and both lists emptied. */
    method FetchRecords(browse: Response<BrowseBody>)
      modifies this
      ensures browse.Ok? ==> records == browse.data.hits && filteredRecords == browse.data.hits && error == None
      ensures browse.Failed? ==> records == [] && filteredRecords == [] && error == Some(FetchRecordsError)
      ensures indexName == old(indexName) && searchTerm == old(searchTerm)
    {
      match browse
      case Ok(body) =>
        records := body.hits;
        filteredRecords := body.hits;
        error := None;
      case Failed(_) =>
        error := Some(FetchRecordsError);
        records := [];
        filteredRecords := [];
    }

    /** `handleDeleteRecord`: a failed delete only sets the delete error; a
        successful one re-runs the fetch, whose own failure is caught there. */
    method DeleteRecord(objectID: string, delete: Response<()>, refetch: Response<BrowseBody>)
      modifies this
      ensures delete.Failed? ==> error == Some(DeleteRecordError)
      ensures delete.Failed? ==> records == old(records) && filteredRecords == old(filteredRecords)
      ensures delete.Ok? && refetch.Ok? ==>
        records == refetch.data.hits && filteredRecords == refetch.data.hits && error == None
      ensures delete.Ok? && refetch.Failed? ==>
        records == [] && filteredRecords == [] && error == Some(FetchRecordsError)
      ensures delete.Ok? && (refetch.Ok? ==> forall x :: x in refetch.data.hits ==> x.objectID != objectID) ==>
        forall x :: x in records ==> x.objectID != objectID
      ensures indexName == old(indexName) && searchTerm == old(searchTerm)
    {
      if delete.Ok? {
        FetchRecords(refetch);
      } else {
        error := Some(DeleteRecordError);
      }
    }

    /** `handleSearchSubmit` of the channels copy: re-filters the fetched
        records with the current term, exactly as the effect does, so on a
        settled screen it changes nothing. (The top-level copy submits by
        calling FetchRecords.) */
    method SubmitSearch()
      modifies this
      ensures Settled()
      ensures old(Settled()) ==> filteredRecords == old(filteredRecords)
      ensures indexName == old(indexName) && records == old(records)
      ensures error == old(error) && searchTerm == old(searchTerm)
    {
      filteredRecords := FilterRecords(records, searchTerm);
    }
  }
}
