/**
 * The list side of the materials testing lab
 * (`MaterialsTestingLabViewModel.kt`): the fixed list of records, the
 * selected record, the search query, and the filter the list screen shows.
 */
module MaterialsTestingLab {
  import opened Wrappers
  import opened KotlinText
  import opened SoilProctorModel

  /** A record matches a lower-cased query on its project name or its sample id. */
  function Matches(p: SoilProctor, lowercaseQuery: string): (b: bool)
    ensures b <==> || (exists i: nat :: OccursAt(Lower(p.projectName), lowercaseQuery, i))
                   || (exists i: nat :: OccursAt(Lower(p.sampleId), lowercaseQuery, i))
  {
    var name, sampleId := Lower(p.projectName), Lower(p.sampleId);
    assert forall i: nat :: OccursAt(name, lowercaseQuery, i) <==> OccursAt(Lower(p.projectName), lowercaseQuery, i);
    assert forall i: nat :: OccursAt(sampleId, lowercaseQuery, i) <==> OccursAt(Lower(p.sampleId), lowercaseQuery, i);
    Contains(name, lowercaseQuery) || Contains(sampleId, lowercaseQuery)
  }

  /** `r` is `s` with some elements dropped and the rest kept in order. */
  predicate IsSubsequence(r: seq<SoilProctor>, s: seq<SoilProctor>)
    decreases |s|
  {
    if r == [] then true
    else if s == [] then false
    else if r[0] == s[0] then IsSubsequence(r[1..], s[1..])
    else IsSubsequence(r, s[1..])
  }

  /**
   * `filter` over the list with the matching predicate: the records that
   * match, in their original order, each as often as it occurs in the list.
   */
  function FilterMatching(proctors: seq<SoilProctor>, lowercaseQuery: string): (r: seq<SoilProctor>)
    ensures forall p :: p in r ==> p in proctors && Matches(p, lowercaseQuery)
    ensures forall p :: p in proctors && Matches(p, lowercaseQuery) ==> p in r
    ensures forall p :: multiset(r)[p] == if Matches(p, lowercaseQuery) then multiset(proctors)[p] else 0
    ensures IsSubsequence(r, proctors)
  {
    if proctors == [] then []
    else
      assert proctors == [proctors[0]] + proctors[1..];
      var rest := FilterMatching(proctors[1..], lowercaseQuery);
      if Matches(proctors[0], lowercaseQuery) then [proctors[0]] + rest else rest
  }

  /**
   * `getFilteredProctors` as a function of the list and the query: a blank
   * query shows the whole list; any other query, lower-cased but not
   * trimmed, keeps exactly the matching records in their order.
   */
  function FilteredProctors(proctors: seq<SoilProctor>, searchQuery: string): (r: seq<SoilProctor>)
    ensures IsBlank(searchQuery) ==> r == proctors
    ensures !IsBlank(searchQuery) ==>
      forall p :: p in r <==> p in proctors && Matches(p, Lower(searchQuery))
    ensures !IsBlank(searchQuery) ==>
      forall p :: multiset(r)[p] == if Matches(p, Lower(searchQuery)) then multiset(proctors)[p] else 0
    ensures IsSubsequence(r, proctors)
  {
    SubsequenceOfItself(proctors);
    if IsBlank(searchQuery) then proctors else FilterMatching(proctors, Lower(searchQuery))
  }

  lemma {:induction false} SubsequenceOfItself(s: seq<SoilProctor>)
    ensures IsSubsequence(s, s)
  {
    if s != [] {
      SubsequenceOfItself(s[1..]);
    }
  }

  /** Two queries that agree after lower-casing show the same records. */
  lemma LowercaseEquivalentQueries(proctors: seq<SoilProctor>, q1: string, q2: string)
    requires Lower(q1) == Lower(q2)
    ensures FilteredProctors(proctors, q1) == FilteredProctors(proctors, q2)
  {
  }

  /** A record whose lower-cased fields both lack a character of the query does not match. */
  lemma MissingCharNoMatch(p: SoilProctor, lowercaseQuery: string, j: nat)
    requires j < |lowercaseQuery|
    requires forall i :: 0 <= i < |p.projectName| ==> LowerChar(p.projectName[i]) != lowercaseQuery[j]
    requires forall i :: 0 <= i < |p.sampleId| ==> LowerChar(p.sampleId[i]) != lowercaseQuery[j]
    ensures !Matches(p, lowercaseQuery)
  {
  }

  /** A project name that starts with "Highway" matches the query "highway". */
  lemma HighwayPrefixMatches(p: SoilProctor)
    requires |p.projectName| >= 7 && p.projectName[..7] == "Highway"
    ensures Matches(p, "highway")
  {
  }

  lemma {:induction false} FilterStep(proctors: seq<SoilProctor>, lowercaseQuery: string)
    requires |proctors| > 0
    ensures FilterMatching(proctors, lowercaseQuery)
         == (if Matches(proctors[0], lowercaseQuery) then [proctors[0]] else [])
            + FilterMatching(proctors[1..], lowercaseQuery)
  {
  }

  /** Filtering five records of which only the first and the fourth match. */
  lemma FilterFirstAndFourth(proctors: seq<SoilProctor>, lowercaseQuery: string)
    requires |proctors| == 5
    requires Matches(proctors[0], lowercaseQuery) && Matches(proctors[3], lowercaseQuery)
    requires !Matches(proctors[1], lowercaseQuery) && !Matches(proctors[2], lowercaseQuery)
    requires !Matches(proctors[4], lowercaseQuery)
    ensures FilterMatching(proctors, lowercaseQuery) == [proctors[0], proctors[3]]
  {
    FilterStep(proctors[4..], lowercaseQuery);
    assert proctors[4..][1..] == [];
    assert FilterMatching(proctors[4..], lowercaseQuery) == [];
    FilterStep(proctors[3..], lowercaseQuery);
    assert proctors[3..][1..] == proctors[4..];
    assert FilterMatching(proctors[3..], lowercaseQuery) == [proctors[3]];
    FilterStep(proctors[2..], lowercaseQuery);
    assert proctors[2..][1..] == proctors[3..];
    FilterStep(proctors[1..], lowercaseQuery);
    assert proctors[1..][1..] == proctors[2..];
    assert FilterMatching(proctors[1..], lowercaseQuery) == [proctors[3]];
    FilterStep(proctors, lowercaseQuery);
  }

  /** Of the sample records, exactly the first and the fourth match "highway". */
  lemma HighwayMatches(i: nat)
    requires i < |SampleData|
    ensures Matches(SampleData[i], "highway") <==> i == 0 || i == 3
  {
    if i == 0 || i == 3 {
      HighwayPrefixMatches(SampleData[i]);
    } else {
      MissingCharNoMatch(SampleData[i], "highway", 0);
    }
  }

  /** Filtering the sample records with "highway" keeps the first and the fourth. */
  lemma HighwayFilter()
    ensures FilterMatching(SampleData, "highway") == [SampleData[0], SampleData[3]]
  {
    HighwayMatches(0);
    HighwayMatches(1);
    HighwayMatches(2);
    HighwayMatches(3);
    HighwayMatches(4);
    FilterFirstAndFourth(SampleData, "highway");
  }

  /** The query "highway" finds exactly the two Highway 101 records. */
  lemma HighwayQuery()
    ensures FilteredProctors(SampleData, "highway") == [SampleData[0], SampleData[3]]
  {
    assert !IsWhitespace("highway"[0]);
    LowerOfLowercase("highway");
    HighwayFilter();
  }

  /** A record without '-' in its project name and with a short sample id. */
  lemma PaddedQueryNoMatch(p: SoilProctor)
    requires forall i :: 0 <= i < |p.projectName| ==> LowerChar(p.projectName[i]) != '-'
    requires |p.sampleId| < |" h101-s01 "|
    ensures !Matches(p, " h101-s01 ")
  {
    var padded := " h101-s01 ";
    LowerLacks(p.projectName, '-');
    if Contains(Lower(p.projectName), padded) {
      ContainsCharOf(Lower(p.projectName), padded, 5);
    }
    if Contains(Lower(p.sampleId), padded) {
      ContainsNoLonger(Lower(p.sampleId), padded);
    }
  }

  /** A filter over records none of which match is empty. */
  lemma FilterNoneMatching(proctors: seq<SoilProctor>, lowercaseQuery: string)
    requires forall i :: 0 <= i < |proctors| ==> !Matches(proctors[i], lowercaseQuery)
    ensures FilterMatching(proctors, lowercaseQuery) == []
  {
  }

  /** No sample record matches the padded query " h101-s01 ". */
  lemma PaddedMatches(i: nat)
    requires i < |SampleData|
    ensures !Matches(SampleData[i], " h101-s01 ")
  {
    PaddedQueryNoMatch(SampleData[i]);
  }

  /** The first sample record matches "h101-s01" through its sample id. */
  lemma TrimmedMatchesFirst()
    ensures Matches(SampleData[0], "h101-s01")
  {
    assert Lower("H101-S01") == "h101-s01";
    assert StartsWith(Lower(SampleData[0].sampleId), "h101-s01");
  }

  /** The query "h101-s01" finds the first record. */
  lemma TrimmedQuery()
    ensures SampleData[0] in FilteredProctors(SampleData, "h101-s01")
  {
    assert !IsWhitespace("h101-s01"[0]);
    LowerOfLowercase("h101-s01");
    TrimmedMatchesFirst();
  }

  lemma PaddedFilter()
    ensures FilterMatching(SampleData, " h101-s01 ") == []
  {
    forall i | 0 <= i < |SampleData|
      ensures !Matches(SampleData[i], " h101-s01 ")
    {
      PaddedMatches(i);
    }
    FilterNoneMatching(SampleData, " h101-s01 ");
  }

  /** The query " h101-s01 " finds nothing. */
  lemma PaddedQuery()
    ensures FilteredProctors(SampleData, " h101-s01 ") == []
  {
    assert !IsWhitespace(" h101-s01 "[1]);
    LowerOfLowercase(" h101-s01 ");
    PaddedFilter();
  }

  /**
   * A non-blank query is not trimmed: the spaces around " h101-s01 " are
   * part of the text searched for, so it finds nothing, although the
   * trimmed query "h101-s01" finds the first record.
   */
  lemma UntrimmedQuery()
    ensures SampleData[0] in FilteredProctors(SampleData, "h101-s01")
    ensures FilteredProctors(SampleData, " h101-s01 ") == []
  {
    TrimmedQuery();
    PaddedQuery();
  }

  /** The view-model: the list never changes; the selection and the query do. */
  class LabViewModel {
    /** `soilProctors`: seeded from the sample data and never reassigned. */
    const soilProctors: seq<SoilProctor>
    var selectedProctor: Option<SoilProctor>
    var searchQuery: string

    constructor ()
      ensures soilProctors == SampleData
      ensures selectedProctor == None && searchQuery == ""
    {
      soilProctors := SampleData;
      selectedProctor := None;
      searchQuery := "";
    }

    /** Stores the query as given; the list shown follows from it on the next read. */
    method UpdateSearchQuery(query: string)
      modifies this
      ensures searchQuery == query
      ensures selectedProctor == old(selectedProctor)
    {
      searchQuery := query;
    }

    method SelectProctor(proctor: SoilProctor)
      modifies this
      ensures selectedProctor == Some(proctor)
      ensures searchQuery == old(searchQuery)
    {
      selectedProctor := Some(proctor);
    }

    method ClearSelection()
      modifies this
      ensures selectedProctor == None
      ensures searchQuery == old(searchQuery)
    {
      selectedProctor := None;
    }

    /** The records the list screen shows for the current query. */
    method GetFilteredProctors() returns (r: seq<SoilProctor>)
      ensures r == FilteredProctors(soilProctors, searchQuery)
      ensures IsBlank(searchQuery) ==> r == soilProctors
      ensures forall p :: p in r ==> p in soilProctors && (IsBlank(searchQuery) || Matches(p, Lower(searchQuery)))
      ensures forall p :: p in soilProctors && Matches(p, Lower(searchQuery)) ==> p in r
      ensures IsSubsequence(r, soilProctors)
    {
      if IsBlank(searchQuery) {
        SubsequenceOfItself(soilProctors);
        return soilProctors;
      }
      var lowercaseQuery := Lower(searchQuery);
      r := FilterMatching(soilProctors, lowercaseQuery);
    }
  }
}
