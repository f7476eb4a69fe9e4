/** find_program of each script: run that script's extract_filters on the query,
    then the shared matcher over the catalog. */
module Search {
  import opened Text
  import opened Seqs
  import opened Keywords
  import opened Catalog
  import opened Matcher
  import opened Filters

  /** find_program of chatbot.py, test2.py and test6.py: the records of the catalog,
      in catalog order, that pass every criterion the query asks for (the month
      digits followed by a full stop in the period, a vocabulary hit in the
      description, title or benefits, the audience token in 신청대상). */
  method SingleMonthSearch(catalog: seq<Record>, query: string) returns (results: seq<Record>)
    ensures results == Select(catalog, SingleMonthFilters(query))
    ensures IsSubsequence(results, catalog)
    ensures forall r :: r in results <==> r in catalog && Matches(r, SingleMonthFilters(query))
  {
    var c := SingleMonthFilters(query);
    results := FindProgram(catalog, c);
    SelectIsSubsequence(catalog, c);
    FilterMembersAll(catalog, MatchesFn(c));
  }

  /** find_program of test5.py: the month test is "some dddd.dd token of the query
      occurs in the lower-cased period", the keywords are the expanded hits, and
      there is no audience criterion. */
  method TokenSearch(catalog: seq<Record>, query: string) returns (results: seq<Record>)
    ensures results == Select(catalog, TokenFilters(query))
    ensures IsSubsequence(results, catalog)
    ensures forall r :: r in results <==> r in catalog && Matches(r, TokenFilters(query))
  {
    var c := TokenFilters(query);
    results := FindProgram(catalog, c);
    SelectIsSubsequence(catalog, c);
    FilterMembersAll(catalog, MatchesFn(c));
  }

  /** find_program of test7.py: the test5.py month and keyword tests plus the
      audience test. The date range extract_filters also finds is not consulted:
      only the criteria part of the extraction reaches the matcher. */
  method RangeSearch(catalog: seq<Record>, query: string) returns (results: seq<Record>)
    ensures results == Select(catalog, RangeFilters(query).criteria)
    ensures IsSubsequence(results, catalog)
    ensures forall r :: r in results <==> r in catalog && Matches(r, RangeFilters(query).criteria)
  {
    var c := RangeFilters(query).criteria;
    results := FindProgram(catalog, c);
    SelectIsSubsequence(catalog, c);
    FilterMembersAll(catalog, MatchesFn(c));
  }

  /** The test5.py result never depends on a record's audience: two catalogs that
      differ only in 신청대상 select the same positions. */
  lemma TokenSearchIgnoresAudience(catalog: seq<Record>, audiences: seq<string>, query: string)
    requires |audiences| == |catalog|
    ensures forall i :: 0 <= i < |catalog| ==>
              Matches(catalog[i], TokenFilters(query))
              == Matches(catalog[i].(target := audiences[i]), TokenFilters(query))
  {
  }

  /** The 점프업 expansion of test5.py and test7.py never changes what they find:
      searching with the plain vocabulary hits gives the same records. */
  lemma ExpansionNeverChangesResults(catalog: seq<Record>, query: string)
    ensures Select(catalog, TokenFilters(query))
            == Select(catalog, TokenFilters(query).(keywords := MatchedKeywords(ExtendedVocabulary, Lower(query))))
    ensures Select(catalog, RangeFilters(query).criteria)
            == Select(catalog, RangeFilters(query).criteria.(keywords := MatchedKeywords(ExtendedVocabulary, Lower(query))))
  {
    ExpansionKeepsSelection(catalog, TokenFilters(query), Lower(query));
    ExpansionKeepsSelection(catalog, RangeFilters(query).criteria, Lower(query));
  }
}
