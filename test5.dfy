/** test5.py: lexical search by month tokens and expanded keywords (no audience
    criterion) whose result the language model explains. */
module Test5 {
  import opened Text
  import opened Wrappers
  import opened Catalog
  import opened Matcher
  import opened Filters
  import opened Rag

  /** The record test of test5.py's find_program: some month token in the
      lower-cased period (when there are tokens) and some keyword in the lower-cased
      description, title or benefits (when there are keywords); with no audience
      token, 신청대상 plays no part. */
  lemma TokenCriteria(r: Record, query: string)
    ensures Matches(r, TokenFilters(query)) <==>
              && (TokenFilters(query).month.tokens != [] ==>
                    exists t :: t in TokenFilters(query).month.tokens && Contains(Lower(r.period), t))
              && (TokenFilters(query).keywords != [] ==>
                    KeywordHolds(TokenFilters(query).keywords, Lower(r.title), Lower(r.description),
                                 Lower(r.benefits)))
  {
    var c := TokenFilters(query);
    assert c == Criteria(Tokens(c.month.tokens), c.keywords, None);
    TokenCriteriaHold(r, c.month.tokens, c.keywords);
  }

  /** generate_rag_response: the fixed reply when find_program finds nothing, so the
      generator is not consulted; otherwise a prompt that holds the query and the
      serialised results. */
  function RagResponse(catalog: seq<Record>, query: string, dumps: seq<Record> -> string): (r: Response)
    ensures r.Fixed? <==> Select(catalog, TokenFilters(query)) == []
    ensures r.Fixed? ==> r.text == NotFoundReply
    ensures r.Generated? ==> Contains(r.prompt, query)
                             && Contains(r.prompt, dumps(Select(catalog, TokenFilters(query))))
  {
    ExplainingResponse(query, Select(catalog, TokenFilters(query)), dumps)
  }
}
