/** The topic vocabularies and the 점프업 (jump-up) keyword expansion. */
module Keywords {
  import opened Text
  import opened Seqs

  /** The seven-word vocabulary of chatbot.py, test2.py and test6.py. */
  const BasicVocabulary := ["점프업 포인트", "비교과 포인트", "ncs", "멘토링", "창업", "자격증", "특강"]

  /** The eleven-word vocabulary of test5.py and test7.py. */
  const ExtendedVocabulary := ["점프업", "점프업 포인트", "점프업 자기주도형 포인트", "점프업 프로그램",
                               "비교과 포인트", "ncs", "멘토링", "창업", "자격증", "특강", "취업"]

  /** The umbrella term and the variants its presence appends. */
  const Umbrella := "점프업"
  const UmbrellaVariants := ["점프업 포인트", "점프업 자기주도형 포인트", "점프업 프로그램"]

  function InQuery(query: string): string -> bool
  {
    kw => Contains(query, kw)
  }

  /** `[kw for kw in keywords if kw in query_lower]`. */
  function MatchedKeywords(vocabulary: seq<string>, query: string): seq<string>
  {
    Filter(vocabulary, InQuery(query))
  }

  /** The hits are exactly the vocabulary entries that occur in the query, in
      vocabulary order, and without duplicates when the vocabulary has none. */
  lemma MatchedKeywordsSpec(vocabulary: seq<string>, query: string)
    ensures forall kw :: kw in MatchedKeywords(vocabulary, query) <==> kw in vocabulary && Contains(query, kw)
    ensures IsSubsequence(MatchedKeywords(vocabulary, query), vocabulary)
    ensures Distinct(vocabulary) ==> Distinct(MatchedKeywords(vocabulary, query))
  {
    FilterMembersAll(vocabulary, InQuery(query));
    FilterIsSubsequence(vocabulary, InQuery(query));
    if Distinct(vocabulary) {
      FilterDistinct(vocabulary, InQuery(query));
    }
  }

  lemma VocabulariesDistinct()
    ensures Distinct(BasicVocabulary) && Distinct(ExtendedVocabulary)
  {
  }

  /** `if "점프업" in query_lower: matched_keywords.extend(UmbrellaVariants)`. */
  function Expand(query: string, hits: seq<string>): (r: seq<string>)
    ensures |hits| <= |r| && r[..|hits|] == hits
    ensures Contains(query, Umbrella) ==> r[|hits|..] == UmbrellaVariants
    ensures !Contains(query, Umbrella) ==> r == hits
  {
    if Contains(query, Umbrella) then hits + UmbrellaVariants else hits
  }

  /** Every variant extends the umbrella term. */
  lemma VariantsExtendUmbrella()
    ensures forall v :: v in UmbrellaVariants ==> Umbrella <= v
  {
  }

  /** As a set, the expansion is the hits together with the variants when the
      umbrella term occurs; applying it a second time adds no new element. */
  lemma ExpandAsSet(query: string, hits: seq<string>)
    ensures Elements(Expand(query, hits)) ==
              Elements(hits) + (if Contains(query, Umbrella) then Elements(UmbrellaVariants) else {})
    ensures Elements(Expand(query, Expand(query, hits))) == Elements(Expand(query, hits))
  {
  }
}
