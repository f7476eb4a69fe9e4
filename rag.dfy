/** The prompts generate_rag_response builds for the language model, and the choice
    between a fixed reply and a generated one. The model itself and json.dumps are
    parameters: `generate` maps a prompt to the model's answer, `dumps` serialises
    the result list. */
module Rag {
  import opened Text
  import opened Catalog

  /** What generate_rag_response does with a query: reply with a fixed text, or hand
      a prompt to the generator and return its answer verbatim. */
  datatype Response = Fixed(text: string) | Generated(prompt: string)

  /** The text the user receives. */
  function ReplyText(r: Response, generate: string -> string): string
  {
    match r
    case Fixed(text) => text
    case Generated(prompt) => generate(prompt)
  }

  /** Every prompt line is a triple-quoted f-string line indented by eight spaces. */
  const Indent := "\n        "
  const ListingHeading := "검색된 비교과 프로그램 목록:"
  /** The closing request of test2.py and test5.py. */
  const ExplainRequest := "위 정보를 바탕으로 사용자가 이해하기 쉽게 설명해줘."
  /** The closing request of test7.py. */
  const AnswerRequest := "위 정보를 바탕으로 사용자에게 적절한 답변을 만들어줘."
  /** The line test7.py sends instead of a listing when nothing matched. */
  const NoProgramsNote := NoMatchSentence + " " + BestEffortSentence
  const NoMatchSentence := "관련된 비교과 프로그램이 데이터에 명확히 없습니다."
  const BestEffortSentence := "하지만 유사한 정보를 제공할 수 있도록 최선을 다할게요."
  /** The reply of test2.py and test5.py when nothing matched. */
  const NotFoundReply := "⚠️ 관련된 비교과 프로그램을 찾을 수 없습니다. 다시 검색해 주세요!"

  /** The opening of every prompt: `사용자 질문: "{query}"` on its own line. */
  function QuestionHead(query: string): (h: string)
    ensures Contains(h, query)
  {
    var before := Indent + "사용자 질문: \"";
    ContainsInfix(before, query, "\"" + Indent);
    assert before + query + ("\"" + Indent) == before + query + "\"" + Indent;
    before + query + "\"" + Indent
  }

  /** The part of a listing prompt after the question: the heading, the serialised
      results, a blank line, the closing request. */
  function ListingBody(listing: string, request: string): (b: string)
    ensures Contains(b, listing) && Contains(b, request)
  {
    var b := ListingHeading + Indent + listing + (Indent + Indent + request + Indent);
    ContainsInfix(ListingHeading + Indent, listing, Indent + Indent + request + Indent);
    assert b == ListingHeading + Indent + listing + Indent + Indent + request + Indent;
    ContainsInfix(ListingHeading + Indent + listing + Indent + Indent, request, Indent);
    b
  }

  /** The prompt around a serialised result list. */
  function ListingPrompt(query: string, listing: string, request: string): (p: string)
    ensures Contains(p, query) && Contains(p, listing) && Contains(p, request)
  {
    var h, b := QuestionHead(query), ListingBody(listing, request);
    ContainsAppend(h, query, b);
    ContainsPrepend(h, b, listing);
    ContainsPrepend(h, b, request);
    h + b
  }

  /** The prompt test7.py sends when nothing matched. */
  function FallbackPrompt(query: string): (p: string)
    ensures Contains(p, query) && Contains(p, NoProgramsNote)
  {
    var h := QuestionHead(query);
    ContainsAppend(h, query, NoProgramsNote + Indent);
    ContainsInfix(h, NoProgramsNote, Indent);
    assert h + NoProgramsNote + Indent == h + (NoProgramsNote + Indent);
    h + (NoProgramsNote + Indent)
  }

  /** Both prompt shapes open with the question line; the line after it tells the
      two apart, so no listing prompt is ever the fallback prompt. */
  lemma PromptsDiffer(query: string, listing: string, request: string)
    ensures QuestionHead(query) <= ListingPrompt(query, listing, request)
    ensures QuestionHead(query) <= FallbackPrompt(query)
    ensures ListingPrompt(query, listing, request) != FallbackPrompt(query)
  {
    var h := QuestionHead(query);
    var b := ListingBody(listing, request);
    assert b[0] == ListingHeading[0] == '검';
    assert NoProgramsNote[0] == NoMatchSentence[0] == '관';
    assert ListingPrompt(query, listing, request)[|h|] == '검';
    assert FallbackPrompt(query)[|h|] == '관';
  }

  /** generate_rag_response of test2.py and test5.py over the find_program result:
      no result gives the fixed reply without consulting the generator; otherwise the
      generator gets a prompt holding the query and the serialised results. */
  function ExplainingResponse(query: string, results: seq<Record>, dumps: seq<Record> -> string): (r: Response)
    ensures r.Fixed? <==> results == []
    ensures r.Fixed? ==> r.text == NotFoundReply
    ensures r.Generated? ==> Contains(r.prompt, query) && Contains(r.prompt, dumps(results))
                             && Contains(r.prompt, ExplainRequest)
  {
    if results == [] then Fixed(NotFoundReply)
    else Generated(ListingPrompt(query, dumps(results), ExplainRequest))
  }

  /** generate_rag_response of test7.py: the generator is always consulted; the
      prompt lists the results when there are any and says that nothing matched
      otherwise. Both prompts hold the query. */
  function AnsweringResponse(query: string, results: seq<Record>, dumps: seq<Record> -> string): (r: Response)
    ensures r.Generated? && Contains(r.prompt, query)
    ensures results == [] <==> r.prompt == FallbackPrompt(query)
    ensures results != [] ==> Contains(r.prompt, dumps(results)) && Contains(r.prompt, AnswerRequest)
  {
    if results == [] then Generated(FallbackPrompt(query))
    else
      PromptsDiffer(query, dumps(results), AnswerRequest);
      Generated(ListingPrompt(query, dumps(results), AnswerRequest))
  }

  /** Without results, the test2/test5 reply is the same whatever the generator. */
  lemma FixedReplyIgnoresGenerator(query: string, dumps: seq<Record> -> string,
                                   g1: string -> string, g2: string -> string)
    ensures ReplyText(ExplainingResponse(query, [], dumps), g1) == NotFoundReply
    ensures ReplyText(ExplainingResponse(query, [], dumps), g1)
            == ReplyText(ExplainingResponse(query, [], dumps), g2)
  {
  }
}
