/** test2.py: lexical search whose result the language model explains. */
module Test2 {
  import opened Text
  import opened Catalog
  import opened Matcher
  import opened Filters
  import opened Rag

  /** generate_rag_response: the fixed reply when find_program finds nothing, so the
      generator is not consulted; otherwise a prompt that holds the query and the
      serialised results. */
  function RagResponse(catalog: seq<Record>, query: string, dumps: seq<Record> -> string): (r: Response)
    ensures r.Fixed? <==> Select(catalog, SingleMonthFilters(query)) == []
    ensures r.Fixed? ==> r.text == NotFoundReply
    ensures r.Generated? ==> Contains(r.prompt, query)
                             && Contains(r.prompt, dumps(Select(catalog, SingleMonthFilters(query))))
  {
    ExplainingResponse(query, Select(catalog, SingleMonthFilters(query)), dumps)
  }

  /** A catalog none of whose records passes the criteria always gets the fixed
      reply, whichever generator is plugged in. */
  lemma NoMatchIgnoresGenerator(catalog: seq<Record>, query: string, dumps: seq<Record> -> string,
                                generate: string -> string)
    requires forall i :: 0 <= i < |catalog| ==> !Matches(catalog[i], SingleMonthFilters(query))
    ensures ReplyText(RagResponse(catalog, query, dumps), generate) == NotFoundReply
  {
    Seqs.FilterKeepsNone(catalog, MatchesFn(SingleMonthFilters(query)));
  }
}
