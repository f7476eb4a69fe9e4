/** The three variants of extract_filters: each lower-cases the query and runs the
    month, keyword and audience extractors over it. */
module Filters {
  import opened Text
  import opened Wrappers
  import opened Seqs
  import opened Scanners
  import opened Keywords
  import opened Catalog
  import opened Matcher

  /** `month_match.group(1) if month_match else None` for `(\d{1,2})월`: one or two
      digits that the query shows immediately before 월. */
  function MonthDigits(q: string): (m: MonthFilter)
    ensures m.NoMonth? || m.Anchor?
    ensures m.Anchor? ==> 1 <= |m.digits| <= 2 && AllDigits(m.digits) && Contains(q, m.digits + MonthSuffix)
  {
    match SearchMonth(q)
    case None => NoMonth
    case Some(found) =>
      ContainsAt(q, found.start, found.text + MonthSuffix);
      Anchor(found.text)
  }

  /** The month digits come from the leftmost match; there are none exactly when no
      one- or two-digit number followed by 월 occurs anywhere in the query. */
  lemma MonthDigitsLeftmost(q: string)
    ensures MonthDigits(q).Anchor? ==>
              exists i :: 0 <= i < |q| && MonthAt(q, i) == Some(MonthDigits(q).digits)
                          && forall j :: 0 <= j < i ==> MonthAt(q, j).None?
    ensures MonthDigits(q).NoMonth? <==>
              forall i: nat, d :: 1 <= |d| <= 2 && AllDigits(d) ==> !OccursAt(q, i, d + MonthSuffix)
  {
    if MonthDigits(q).NoMonth? {
      forall i: nat, d | 1 <= |d| <= 2 && AllDigits(d) ensures !OccursAt(q, i, d + MonthSuffix) {
        if OccursAt(q, i, d + MonthSuffix) {
          MonthAtComplete(q, i, d);
        }
      }
    } else {
      var found := SearchMonth(q).value;
      assert OccursAt(q, found.start, found.text + MonthSuffix);
    }
  }

  /** `target_match.group(1) if target_match else None`: a digit followed by 학년,
      or 졸업 예정자, as it occurs in the query. */
  function TargetToken(q: string): (t: Option<string>)
    ensures t.Some? ==> Contains(q, t.value)
    ensures t.Some? ==> t.value == Graduating
                        || (|t.value| == 3 && IsDigit(t.value[0]) && t.value[1..] == GradeSuffix)
  {
    match SearchTarget(q)
    case None => None
    case Some(found) =>
      ContainsAt(q, found.start, found.text);
      Some(found.text)
  }

  /** The audience token is the leftmost match; there is none exactly when neither
      alternative occurs anywhere in the query. */
  lemma TargetTokenLeftmost(q: string)
    ensures TargetToken(q).Some? ==>
              exists i :: 0 <= i < |q| && TargetAt(q, i) == TargetToken(q)
                          && forall j :: 0 <= j < i ==> TargetAt(q, j).None?
    ensures TargetToken(q).None? <==>
              forall i: nat, t :: (t == Graduating || (|t| == 3 && IsDigit(t[0]) && t[1..] == GradeSuffix))
                                  ==> !OccursAt(q, i, t)
  {
    if TargetToken(q).None? {
      forall i: nat, t | t == Graduating || (|t| == 3 && IsDigit(t[0]) && t[1..] == GradeSuffix)
        ensures !OccursAt(q, i, t)
      {
        if OccursAt(q, i, t) {
          TargetAtComplete(q, i, t);
        }
      }
    } else {
      var found := SearchTarget(q).value;
      assert OccursAt(q, found.start, found.text);
    }
  }

  /** extract_filters of chatbot.py, test2.py and test6.py (the same code in all
      three): the first `N월`, hits of the seven-word vocabulary without expansion,
      the first audience token. */
  function SingleMonthFilters(query: string): (c: Criteria)
    ensures c.month == MonthDigits(Lower(query)) && c.target == TargetToken(Lower(query))
    ensures forall kw :: kw in c.keywords <==> kw in BasicVocabulary && Contains(Lower(query), kw)
    ensures IsSubsequence(c.keywords, BasicVocabulary) && Distinct(c.keywords)
  {
    var q := Lower(query);
    MatchedKeywordsSpec(BasicVocabulary, q);
    VocabulariesDistinct();
    Criteria(MonthDigits(q), MatchedKeywords(BasicVocabulary, q), TargetToken(q))
  }

  /** The keyword list of test5.py and test7.py: the eleven-word vocabulary hits,
      then the variants when 점프업 occurs. */
  function ExpandedKeywords(q: string): (kws: seq<string>)
    ensures Contains(q, Umbrella) ==> kws == MatchedKeywords(ExtendedVocabulary, q) + UmbrellaVariants
    ensures !Contains(q, Umbrella) ==> kws == MatchedKeywords(ExtendedVocabulary, q)
  {
    Expand(q, MatchedKeywords(ExtendedVocabulary, q))
  }

  /** extract_filters of test5.py: every dddd.dd token, the expanded keywords, and
      no audience criterion. */
  function TokenFilters(query: string): (c: Criteria)
    ensures c.month.Tokens? && c.target.None?
    ensures c.month.tokens == FindAllYearMonths(Lower(query))
    ensures forall t :: t in c.month.tokens ==> IsYearMonth(t) && Contains(Lower(query), t)
    ensures c.keywords == ExpandedKeywords(Lower(query))
  {
    var q := Lower(query);
    Criteria(Tokens(FindAllYearMonths(q)), ExpandedKeywords(q), None)
  }

  /** What extract_filters of test7.py returns: the criteria and the date range. */
  datatype Extraction = Extraction(criteria: Criteria, dateRange: Option<DateRange>)

  /** extract_filters of test7.py: the dddd.dd tokens, the first date range, the
      expanded keywords and the first audience token. */
  function RangeFilters(query: string): (e: Extraction)
    ensures e.criteria.month.Tokens?
    ensures e.criteria.month.tokens == FindAllYearMonths(Lower(query))
    ensures forall t :: t in e.criteria.month.tokens ==> IsYearMonth(t) && Contains(Lower(query), t)
    ensures e.criteria.keywords == ExpandedKeywords(Lower(query))
    ensures e.criteria.target == TargetToken(Lower(query))
    ensures e.dateRange == SearchDateRange(Lower(query))
    ensures e.dateRange.Some? ==> IsFullDate(e.dateRange.value.first) && IsFullDate(e.dateRange.value.last)
  {
    var q := Lower(query);
    Extraction(Criteria(Tokens(FindAllYearMonths(q)), ExpandedKeywords(q), TargetToken(q)),
               SearchDateRange(q))
  }

  /** Appending keywords that each extend a keyword already in the list does not
      change the keyword test. */
  lemma ExtendingKeepsKeywordTest(hits: seq<string>, extra: seq<string>, u: string,
                                  title: string, description: string, benefits: string)
    requires u in hits && forall v :: v in extra ==> u <= v
    ensures KeywordHolds(hits + extra, title, description, benefits)
            == KeywordHolds(hits, title, description, benefits)
  {
    if KeywordHolds(hits + extra, title, description, benefits) {
      var kw :| kw in hits + extra
                && (Contains(description, kw) || Contains(title, kw) || Contains(benefits, kw));
      if kw !in hits {
        if Contains(description, kw) {
          ContainsPrefix(description, kw, u);
        } else if Contains(title, kw) {
          ContainsPrefix(title, kw, u);
        } else {
          ContainsPrefix(benefits, kw, u);
        }
      }
    }
  }

  /** The expansion never changes a record's keyword test: 점프업 is itself in the
      vocabulary, so it is already a hit whenever the expansion fires, and every
      variant starts with it. */
  lemma ExpansionKeepsKeywordTest(q: string, title: string, description: string, benefits: string)
    ensures (ExpandedKeywords(q) != []) == (MatchedKeywords(ExtendedVocabulary, q) != [])
    ensures KeywordHolds(ExpandedKeywords(q), title, description, benefits)
            == KeywordHolds(MatchedKeywords(ExtendedVocabulary, q), title, description, benefits)
  {
    var hits := MatchedKeywords(ExtendedVocabulary, q);
    if Contains(q, Umbrella) {
      assert ExtendedVocabulary[0] == Umbrella;
      FilterMembers(ExtendedVocabulary, InQuery(q), Umbrella);
      VariantsExtendUmbrella();
      ExtendingKeepsKeywordTest(hits, UmbrellaVariants, Umbrella, title, description, benefits);
    }
  }

  /** Hence the expansion never changes a matcher result. */
  lemma ExpansionKeepsSelection(catalog: seq<Record>, c: Criteria, q: string)
    requires c.keywords == ExpandedKeywords(q)
    ensures Select(catalog, c) == Select(catalog, c.(keywords := MatchedKeywords(ExtendedVocabulary, q)))
  {
    forall i | 0 <= i < |catalog|
      ensures Matches(catalog[i], c) == Matches(catalog[i], c.(keywords := MatchedKeywords(ExtendedVocabulary, q)))
    {
      var r := catalog[i];
      ExpansionKeepsKeywordTest(q, Lower(r.title), Lower(r.description), Lower(r.benefits));
    }
    SelectCongruent(catalog, c, c.(keywords := MatchedKeywords(ExtendedVocabulary, q)));
  }

  /** A query none of whose patterns occur leaves every criterion absent. */
  lemma UnrecognisedQueryIsUnconstrained(query: string)
    requires forall i: nat, d :: 1 <= |d| <= 2 && AllDigits(d) ==> !OccursAt(Lower(query), i, d + MonthSuffix)
    requires forall kw :: kw in BasicVocabulary ==> !Contains(Lower(query), kw)
    requires forall i: nat, t :: (t == Graduating || (|t| == 3 && IsDigit(t[0]) && t[1..] == GradeSuffix))
                                 ==> !OccursAt(Lower(query), i, t)
    ensures !MonthPresent(SingleMonthFilters(query).month)
    ensures SingleMonthFilters(query).keywords == []
    ensures !TargetPresent(SingleMonthFilters(query).target)
  {
    var q := Lower(query);
    MonthDigitsLeftmost(q);
    TargetTokenLeftmost(q);
  }
}
