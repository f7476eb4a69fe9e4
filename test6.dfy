/** test6.py: hybrid retrieval (vector results, then lexical results) and a
    deterministic reply that falls back to the first catalog records. */
module Test6 {
  import opened Text
  import opened Catalog
  import opened Matcher
  import opened Filters
  import opened Render
  import opened Search

  /** The opening of the reply when there is nothing to list. */
  const AlternativesNotice := "⚠️ 해당 조건에 맞는 비교과 프로그램을 찾을 수 없습니다. 다음과 같은 프로그램이 있습니다:\n\n"

  /** How many catalog records the fallback suggests. */
  const AlternativeCount := 5

  /** `program_data[:5]`: the first five records, or all of them when there are fewer. */
  function Alternatives(catalog: seq<Record>): (alts: seq<Record>)
    ensures |alts| == if |catalog| < AlternativeCount then |catalog| else AlternativeCount
    ensures alts <= catalog
  {
    if |catalog| < AlternativeCount then catalog else catalog[..AlternativeCount]
  }

  /** The no-result reply: the notice, then the short blocks of the alternatives,
      one per alternative and in catalog order. */
  function Fallback(catalog: seq<Record>): (reply: string)
    ensures reply == AlternativesNotice + Join(ShortBlocks(Alternatives(catalog)), BlockSeparator)
    ensures AlternativesNotice <= reply
    ensures forall i :: 0 <= i < |Alternatives(catalog)| ==> Contains(reply, ShortBlock(catalog[i]))
    ensures catalog == [] ==> reply == AlternativesNotice
  {
    var alts := Alternatives(catalog);
    var body := Join(ShortBlocks(alts), BlockSeparator);
    forall i | 0 <= i < |alts| ensures Contains(AlternativesNotice + body, ShortBlock(catalog[i])) {
      JoinContains(ShortBlocks(alts), BlockSeparator, i);
      ContainsPrepend(AlternativesNotice, body, ShortBlock(catalog[i]));
    }
    AlternativesNotice + body
  }

  /** Only the first five records can appear in the fallback: records after them
      never change it. */
  lemma FallbackIgnoresLaterRecords(catalog: seq<Record>, later: seq<Record>)
    requires |catalog| >= AlternativeCount
    ensures Fallback(catalog + later) == Fallback(catalog)
  {
    assert (catalog + later)[..AlternativeCount] == catalog[..AlternativeCount];
  }

  /** generate_response: the listing under the header the query's criteria select,
      or the fallback when there is nothing to list. */
  function GenerateResponse(catalog: seq<Record>, query: string, results: seq<Record>): (reply: string)
    ensures results == [] ==> reply == Fallback(catalog)
    ensures results != [] ==> Header(SingleMonthFilters(query)) + BlockSeparator <= reply
    ensures results != [] ==>
              reply == Header(SingleMonthFilters(query)) + BlockSeparator + Join(Blocks(results), BlockSeparator)
    ensures forall i :: 0 <= i < |results| ==> Contains(reply, Block(results[i]))
  {
    var c := SingleMonthFilters(query);
    if results == [] then Fallback(catalog)
    else
      ListingShowsEveryResult(c, results);
      Listing(c, results)
  }

  /** `similar_results + keyword_results`: the vector results first, then the
      lexical ones, nothing removed. */
  function Hybrid(similar: seq<Record>, lexical: seq<Record>): (merged: seq<Record>)
    ensures |merged| == |similar| + |lexical|
    ensures merged[..|similar|] == similar && merged[|similar|..] == lexical
    ensures multiset(merged) == multiset(similar) + multiset(lexical)
  {
    similar + lexical
  }

  /** A program both searches return is listed twice: vector results [a, b] and
      lexical results [b, c] merge to [a, b, b, c], not to [a, b, c]. */
  lemma HybridKeepsDuplicates(a: Record, b: Record, c: Record)
    ensures Hybrid([a, b], [b, c]) == [a, b, b, c]
    ensures multiset(Hybrid([a, b], [b, c]))[b] >= 2
  {
  }

  /** One chat turn: the vector results (an input, since the vector store is not
      modelled), the lexical find_program result, their concatenation, and the reply
      over it. */
  method Answer(catalog: seq<Record>, similar: seq<Record>, query: string) returns (reply: string)
    ensures reply == GenerateResponse(catalog, query, Hybrid(similar, Select(catalog, SingleMonthFilters(query))))
  {
    var keywordResults := SingleMonthSearch(catalog, query);
    var finalResults := similar + keywordResults;
    reply := GenerateResponse(catalog, query, finalResults);
  }

  /** Any vector result rules out the fallback: the reply shows the header, then
      the block of every vector result and of every lexical result. */
  lemma VectorResultsAreAlwaysListed(catalog: seq<Record>, similar: seq<Record>, query: string)
    requires similar != []
    ensures var lexical := Select(catalog, SingleMonthFilters(query));
            var reply := GenerateResponse(catalog, query, Hybrid(similar, lexical));
            && Header(SingleMonthFilters(query)) + BlockSeparator <= reply
            && (forall i :: 0 <= i < |similar| ==> Contains(reply, Block(similar[i])))
            && (forall i :: 0 <= i < |lexical| ==> Contains(reply, Block(lexical[i])))
  {
    var lexical := Select(catalog, SingleMonthFilters(query));
    var merged := Hybrid(similar, lexical);
    forall i | 0 <= i < |similar| ensures merged[i] == similar[i] {
      assert merged[..|similar|][i] == merged[i];
    }
    forall i | 0 <= i < |lexical| ensures merged[|similar| + i] == lexical[i] {
      assert merged[|similar|..][i] == merged[|similar| + i];
    }
  }
}
