/** The lexical matcher shared by every script's find_program: a record is kept when
    it passes every criterion that is present, and the catalog order is kept. */
module Matcher {
  import opened Text
  import opened Wrappers
  import opened Seqs
  import opened Catalog

  /** The month part of the criteria. The single-month scripts extract the digits of
      `N월` (Anchor); the findall scripts extract every dddd.dd token (Tokens). */
  datatype MonthFilter = NoMonth | Anchor(digits: string) | Tokens(tokens: seq<string>)

  /** What extract_filters returns, as the matcher consumes it. */
  datatype Criteria = Criteria(month: MonthFilter, keywords: seq<string>, target: Option<string>)

  /** Python truthiness of the month value: None, "" and [] mean unconstrained. */
  predicate MonthPresent(m: MonthFilter)
  {
    match m
    case NoMonth => false
    case Anchor(d) => d != ""
    case Tokens(ts) => ts != []
  }

  /** The month test against the lower-cased period. For an Anchor this is
      `re.search(rf"{d}\.", period)`, which for a digit string d is the plain
      substring test for d followed by a full stop. */
  predicate MonthHolds(m: MonthFilter, period: string)
  {
    match m
    case NoMonth => true
    case Anchor(d) => Contains(period, d + ".")
    case Tokens(ts) => exists t :: t in ts && Contains(period, t)
  }

  /** `any(kw in description or kw in title or kw in benefits for kw in keywords)`. */
  predicate KeywordHolds(keywords: seq<string>, title: string, description: string, benefits: string)
  {
    exists kw :: kw in keywords && (Contains(description, kw) || Contains(title, kw) || Contains(benefits, kw))
  }

  predicate TargetPresent(t: Option<string>)
  {
    t.Some? && t.value != ""
  }

  /** The three `continue` tests of find_program, on the lower-cased fields. */
  predicate Matches(r: Record, c: Criteria)
  {
    && (MonthPresent(c.month) ==> MonthHolds(c.month, Lower(r.period)))
    && (c.keywords != [] ==>
          KeywordHolds(c.keywords, Lower(r.title), Lower(r.description), Lower(r.benefits)))
    && (TargetPresent(c.target) ==> Contains(Lower(r.target), c.target.value))
  }

  function MatchesFn(c: Criteria): Record -> bool
  {
    r => Matches(r, c)
  }

  /** What find_program returns: the catalog filtered by the criteria. */
  function Select(catalog: seq<Record>, c: Criteria): seq<Record>
  {
    Filter(catalog, MatchesFn(c))
  }

  /** find_program's loop over program_data: lower-case the fields, skip the record
      on the first failing criterion, append it otherwise. */
  method FindProgram(catalog: seq<Record>, c: Criteria) returns (results: seq<Record>)
    ensures results == Select(catalog, c)
  {
    results := [];
    var i := 0;
    while i < |catalog|
      invariant 0 <= i <= |catalog|
      invariant Select(catalog, c) == results + Filter(catalog[i..], MatchesFn(c))
    {
      var program := catalog[i];
      assert catalog[i..][1..] == catalog[i + 1..];
      i := i + 1;
      var title := Lower(program.title);
      var description := Lower(program.description);
      var period := Lower(program.period);
      var benefits := Lower(program.benefits);
      var target := Lower(program.target);
      if MonthPresent(c.month) && !MonthHolds(c.month, period) {
        continue;
      }
      if c.keywords != [] && !KeywordHolds(c.keywords, title, description, benefits) {
        continue;
      }
      if TargetPresent(c.target) && !Contains(target, c.target.value) {
        continue;
      }
      results := results + [program];
    }
    assert catalog[i..] == [];
  }

  /** The result is an order-preserving subsequence of the catalog, never longer. */
  lemma SelectIsSubsequence(catalog: seq<Record>, c: Criteria)
    ensures IsSubsequence(Select(catalog, c), catalog)
    ensures |Select(catalog, c)| <= |catalog|
  {
    FilterIsSubsequence(catalog, MatchesFn(c));
  }

  /** A record is in the result exactly when it is in the catalog and passes every
      present criterion: the month anchor or one of the month tokens occurs in the
      lower-cased period, a keyword occurs in the lower-cased description, title or
      benefits, and the target token occurs in the lower-cased audience. */
  lemma SelectMembers(catalog: seq<Record>, c: Criteria, r: Record)
    ensures r in Select(catalog, c) <==>
              && r in catalog
              && (MonthPresent(c.month) ==> MonthHolds(c.month, Lower(r.period)))
              && (c.keywords != [] ==>
                    exists kw :: kw in c.keywords && (Contains(Lower(r.description), kw)
                                                     || Contains(Lower(r.title), kw)
                                                     || Contains(Lower(r.benefits), kw)))
              && (TargetPresent(c.target) ==> Contains(Lower(r.target), c.target.value))
  {
    FilterMembers(catalog, MatchesFn(c), r);
  }

  /** With no month, keyword or target criterion the whole catalog comes back. */
  lemma SelectUnconstrained(catalog: seq<Record>, c: Criteria)
    requires !MonthPresent(c.month) && c.keywords == [] && !TargetPresent(c.target)
    ensures Select(catalog, c) == catalog
  {
    FilterKeepsAll(catalog, MatchesFn(c));
  }

  /** Dropping any one criterion can only enlarge the result: the full result is a
      subsequence of the result without that criterion. */
  lemma SelectRelaxing(catalog: seq<Record>, c: Criteria)
    ensures IsSubsequence(Select(catalog, c), Select(catalog, c.(month := NoMonth)))
    ensures IsSubsequence(Select(catalog, c), Select(catalog, c.(keywords := [])))
    ensures IsSubsequence(Select(catalog, c), Select(catalog, c.(target := None)))
  {
    FilterMonotone(catalog, MatchesFn(c), MatchesFn(c.(month := NoMonth)));
    FilterMonotone(catalog, MatchesFn(c), MatchesFn(c.(keywords := [])));
    FilterMonotone(catalog, MatchesFn(c), MatchesFn(c.(target := None)));
  }

  /** The record test for month tokens and keywords without an audience token:
      some token occurs in the lower-cased period (when there are tokens) and some
      keyword in the lower-cased description, title or benefits (when there are
      keywords). */
  lemma TokenCriteriaHold(r: Record, tokens: seq<string>, keywords: seq<string>)
    ensures Matches(r, Criteria(Tokens(tokens), keywords, None)) <==>
              && (tokens != [] ==> exists t :: t in tokens && Contains(Lower(r.period), t))
              && (keywords != [] ==>
                    KeywordHolds(keywords, Lower(r.title), Lower(r.description), Lower(r.benefits)))
  {
  }

  /** The month test is a plain substring test, so the digits also match where
      they end a longer number followed by a full stop: a period showing the year
      2025 as "2025." passes the test for 5월 (and for 25월) whatever its month. */
  lemma AnchorMatchesNumberEnding(period: string, number: string, d: string)
    requires Contains(period, number + ".") && |d| <= |number| && number[|number| - |d|..] == d
    ensures MonthHolds(Anchor(d), period)
  {
    var i := ContainsPosition(period, number + ".");
    var j := i + |number| - |d|;
    assert OccursAt(period, j, d + ".") by {
      assert period[i..i + |number| + 1] == number + ".";
      assert period[j..j + |d| + 1] == (number + ".")[|number| - |d|..];
    }
    ContainsAt(period, j, d + ".");
  }

  /** For instance, every period that shows a 2025 date passes the test for 5월. */
  lemma FiveMatchesAny2025Period(period: string)
    requires Contains(period, "2025.")
    ensures MonthHolds(Anchor("5"), period)
  {
    assert "2025" + "." == "2025." && "2025"[3..] == "5";
    AnchorMatchesNumberEnding(period, "2025", "5");
  }

  /** Criteria that every catalog record judges alike give the same result. */
  lemma SelectCongruent(catalog: seq<Record>, c: Criteria, d: Criteria)
    requires forall i :: 0 <= i < |catalog| ==> Matches(catalog[i], c) == Matches(catalog[i], d)
    ensures Select(catalog, c) == Select(catalog, d)
  {
    FilterCongruent(catalog, MatchesFn(c), MatchesFn(d));
  }
}
