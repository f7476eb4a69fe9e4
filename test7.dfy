/** test7.py: lexical search by month tokens, expanded keywords and audience, whose
    result (or its absence) the language model always answers from. */
module Test7 {
  import opened Text
  import opened Wrappers
  import opened Catalog
  import opened Scanners
  import opened Matcher
  import opened Filters
  import opened Rag

  /** generate_rag_response: the generator is always consulted. The prompt lists
      the serialised results when find_program found any and is the fallback prompt
      exactly when it found none; both prompts hold the query. */
  function RagResponse(catalog: seq<Record>, query: string, dumps: seq<Record> -> string): (r: Response)
    ensures r.Generated? && Contains(r.prompt, query)
    ensures r.prompt == FallbackPrompt(query) <==> Select(catalog, RangeFilters(query).criteria) == []
    ensures Select(catalog, RangeFilters(query).criteria) != [] ==>
              Contains(r.prompt, dumps(Select(catalog, RangeFilters(query).criteria)))
  {
    AnsweringResponse(query, Select(catalog, RangeFilters(query).criteria), dumps)
  }

  /** The date range itself never reaches the matcher, but its first date begins
      with a dddd.dd token, so a query with a date range always carries a month
      criterion. */
  lemma DateRangeImpliesMonthTokens(query: string)
    requires SearchDateRange(Lower(query)).Some?
    ensures RangeFilters(query).dateRange.Some?
    ensures FindAllYearMonths(Lower(query)) != []
    ensures MonthPresent(RangeFilters(query).criteria.month)
  {
    DateRangeYieldsYearMonth(Lower(query));
  }
}
