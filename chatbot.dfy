/** chatbot.py: lexical search and a deterministic reply, with a fixed message when
    nothing matches. */
module Chatbot {
  import opened Text
  import opened Wrappers
  import opened Scanners
  import opened Catalog
  import opened Keywords
  import opened Matcher
  import opened Filters
  import opened Render
  import opened Search

  /** The reply when no program matches. */
  const NoMatchMessage := "⚠️ 해당 조건에 맞는 비교과 프로그램을 찾을 수 없습니다. 다른 키워드로 검색해보세요!"

  /** generate_response: the listing under the header the query's criteria select,
      or the fixed message when there is nothing to list. */
  function GenerateResponse(query: string, results: seq<Record>): (reply: string)
    ensures results == [] ==> reply == NoMatchMessage
    ensures results != [] ==> Header(SingleMonthFilters(query)) + BlockSeparator <= reply
    ensures results != [] ==>
              reply == Header(SingleMonthFilters(query)) + BlockSeparator + Join(Blocks(results), BlockSeparator)
    ensures forall i :: 0 <= i < |results| ==> Contains(reply, Block(results[i]))
  {
    var c := SingleMonthFilters(query);
    if results == [] then NoMatchMessage
    else
      ListingShowsEveryResult(c, results);
      Listing(c, results)
  }

  /** One chat turn: find_program on the query, then generate_response on its
      result. Every listed block belongs to a catalog record that passes the
      query's criteria. */
  method Answer(catalog: seq<Record>, query: string) returns (reply: string)
    ensures reply == GenerateResponse(query, Select(catalog, SingleMonthFilters(query)))
  {
    var results := SingleMonthSearch(catalog, query);
    reply := GenerateResponse(query, results);
  }

  /** There is no expansion here: 점프업 alone is not a keyword of this script, so
      it never appears among the keyword criteria. */
  lemma UmbrellaIsNoKeyword(query: string)
    ensures Umbrella !in SingleMonthFilters(query).keywords
  {
    assert Umbrella !in BasicVocabulary;
  }

  /** A query naming only 점프업 has no keyword criterion at all. */
  lemma UmbrellaOnlyQuery()
    ensures SingleMonthFilters("점프업").keywords == []
  {
    var s := "점프업";
    var q := Lower(s);
    assert q == s by {
      assert forall i :: 0 <= i < |s| ==> !IsUpper(s[i]);
    }
    var vocabulary := BasicVocabulary;
    forall i | 0 <= i < |vocabulary| ensures !InQuery(q)(vocabulary[i]) {
      if |vocabulary[i]| > |q| {
        LongerAbsent(q, vocabulary[i]);
      } else {
        FirstCharAbsent(q, vocabulary[i]);
      }
    }
    Seqs.FilterKeepsNone(vocabulary, InQuery(q));
  }

  /** A month question: "3월 일정 알려줘" asks for month 3. */
  lemma MonthQueryScenario()
    ensures SingleMonthFilters("3월 일정 알려줘").month == Anchor("3")
  {
    var q := Lower("3월 일정 알려줘");
    assert q == "3월 일정 알려줘";
    assert q[0] == '3' && q[1] == '월' && !IsDigit(q[1]);
    assert q[0..1] == "3";
    assert MonthAt(q, 0) == Some("3");
    var found := SearchMonth(q);
    assert found.Some? && found.value.start == 0;
    assert MonthDigits(q) == Anchor("3");
  }

  /** A record running 2025.03.10 to 2025.03.20 passes the test for month 3,
      because its period shows "3.". */
  lemma MonthPeriodScenario()
    ensures MonthHolds(Anchor("3"), Lower("2025.03.10 ~ 2025.03.20"))
  {
    var period := "2025.03.10 ~ 2025.03.20";
    var p := Lower(period);
    assert period[6] == '3' && period[7] == '.';
    assert p[6] == '3' && p[7] == '.';
    assert p[6..8] == "3.";
    assert OccursAt(p, 6, "3.");
    ContainsAt(p, 6, "3.");
    assert "3" + "." == "3.";
  }
}
