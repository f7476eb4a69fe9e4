/** Hand-written matchers for the four regular expressions the scripts apply to the
    lower-cased query. Each pattern is a function "does it match at position i, and
    with which group text"; `re.search` is the leftmost position that matches and
    `re.findall` is the left-to-right scan of non-overlapping matches. `\d` is read
    as an ASCII digit and `\s` as ASCII white space. */
module Scanners {
  import opened Text
  import opened Wrappers

  /** A successful `re.search`: where the match starts and the text of group 1. */
  datatype Match = Match(start: nat, text: string)

  /** The first position in [from, n) at which `at` succeeds, trying positions in
      increasing order as `re.search` does. */
  function Leftmost<T>(n: nat, from: nat, at: nat -> Option<T>): (r: Option<nat>)
    decreases n - from
    ensures r.Some? ==> from <= r.value < n && at(r.value).Some?
    ensures r.Some? ==> forall j :: from <= j < r.value ==> at(j).None?
    ensures r.None? ==> forall j :: from <= j < n ==> at(j).None?
  {
    if from >= n then None
    else if at(from).Some? then Some(from)
    else Leftmost(n, from + 1, at)
  }

  // ---------------------------------------------------------------- (\d{1,2})월

  const MonthSuffix := "월"

  /** `(\d{1,2})월` tried at position i: the greedy two-digit form first, then the
      one-digit form. */
  function MonthAt(q: string, i: nat): (r: Option<string>)
    ensures r.Some? ==> 1 <= |r.value| <= 2 && AllDigits(r.value)
    ensures r.Some? ==> OccursAt(q, i, r.value + MonthSuffix)
  {
    if i + 2 < |q| && IsDigit(q[i]) && IsDigit(q[i + 1]) && q[i + 2] == '월' then
      assert q[i..i + 3] == q[i..i + 2] + MonthSuffix;
      Some(q[i..i + 2])
    else if i + 1 < |q| && IsDigit(q[i]) && q[i + 1] == '월' then
      assert q[i..i + 2] == q[i..i + 1] + MonthSuffix;
      Some(q[i..i + 1])
    else None
  }

  /** Every occurrence of one or two digits followed by 월 is a match at its position,
      and its group is exactly those digits (a digit before 월 is never taken as the
      second digit of a shorter reading). */
  lemma MonthAtComplete(q: string, i: nat, d: string)
    requires 1 <= |d| <= 2 && AllDigits(d) && OccursAt(q, i, d + MonthSuffix)
    ensures MonthAt(q, i) == Some(d)
  {
    assert q[i..i + |d| + 1] == d + MonthSuffix;
    assert q[i] == d[0];
    if |d| == 2 {
      assert q[i + 1] == d[1] && q[i + 2] == '월';
      assert q[i..i + 2] == d;
    } else {
      assert q[i + 1] == '월' && !IsDigit(q[i + 1]);
      assert q[i..i + 1] == d;
    }
  }

  /** `re.search(r"(\d{1,2})월", q)`. */
  function SearchMonth(q: string): (r: Option<Match>)
    ensures r.Some? ==> r.value.start < |q| && MonthAt(q, r.value.start) == Some(r.value.text)
    ensures r.Some? ==> forall j :: 0 <= j < r.value.start ==> MonthAt(q, j).None?
    ensures r.None? ==> forall j :: 0 <= j < |q| ==> MonthAt(q, j).None?
  {
    var at := (i: nat) => MonthAt(q, i);
    assert forall j: nat :: at(j) == MonthAt(q, j);
    match Leftmost(|q|, 0, at)
    case None => None
    case Some(k) => Some(Match(k, MonthAt(q, k).value))
  }

  // ---------------------------------------------------------- (\d학년|졸업 예정자)

  const GradeSuffix := "학년"
  const Graduating := "졸업 예정자"

  /** `(\d학년|졸업 예정자)` tried at position i: the first alternative, then the second. */
  function TargetAt(q: string, i: nat): (r: Option<string>)
    ensures r.Some? ==> OccursAt(q, i, r.value)
    ensures r.Some? ==> r.value == Graduating
                        || (|r.value| == 3 && IsDigit(r.value[0]) && r.value[1..] == GradeSuffix)
  {
    if i + 3 <= |q| && IsDigit(q[i]) && q[i + 1..i + 3] == GradeSuffix then Some(q[i..i + 3])
    else if OccursAt(q, i, Graduating) then Some(Graduating)
    else None
  }

  /** Every occurrence of either alternative is a match at its position. */
  lemma TargetAtComplete(q: string, i: nat, t: string)
    requires OccursAt(q, i, t)
    requires t == Graduating || (|t| == 3 && IsDigit(t[0]) && t[1..] == GradeSuffix)
    ensures TargetAt(q, i) == Some(t)
  {
    if t != Graduating {
      assert q[i] == t[0] && q[i + 1..i + 3] == t[1..];
    } else {
      assert q[i] == '졸';
    }
  }

  /** `re.search(r"(\d학년|졸업 예정자)", q)`. */
  function SearchTarget(q: string): (r: Option<Match>)
    ensures r.Some? ==> r.value.start < |q| && TargetAt(q, r.value.start) == Some(r.value.text)
    ensures r.Some? ==> forall j :: 0 <= j < r.value.start ==> TargetAt(q, j).None?
    ensures r.None? ==> forall j :: 0 <= j < |q| ==> TargetAt(q, j).None?
  {
    var at := (i: nat) => TargetAt(q, i);
    assert forall j: nat :: at(j) == TargetAt(q, j);
    match Leftmost(|q|, 0, at)
    case None => None
    case Some(k) => Some(Match(k, TargetAt(q, k).value))
  }

  // ------------------------------------------------------------- \d{4}\.\d{2}

  const YearMonthWidth := 7

  /** A string of the form dddd.dd. */
  predicate IsYearMonth(t: string)
  {
    |t| == YearMonthWidth && AllDigits(t[..4]) && t[4] == '.' && AllDigits(t[5..])
  }

  predicate YearMonthAt(q: string, i: nat)
  {
    i + YearMonthWidth <= |q| && IsYearMonth(q[i..i + YearMonthWidth])
  }

  /** The start positions `re.findall(r"(\d{4}\.\d{2})", q)` reports from position i
      on: a match is taken and the scan resumes after it; otherwise the scan moves one
      character on. */
  function FindAllFrom(q: string, i: nat): (ps: seq<nat>)
    decreases |q| - i
  {
    if i + YearMonthWidth > |q| then []
    else if YearMonthAt(q, i) then [i] + FindAllFrom(q, i + YearMonthWidth)
    else FindAllFrom(q, i + 1)
  }

  /** Every reported position is a match at or after the starting point, and the
      reported matches are increasing and do not overlap. */
  lemma {:induction false} FindAllSound(q: string, i: nat)
    ensures forall k :: 0 <= k < |FindAllFrom(q, i)| ==>
              i <= FindAllFrom(q, i)[k] && YearMonthAt(q, FindAllFrom(q, i)[k])
    ensures forall k :: 0 <= k < |FindAllFrom(q, i)| - 1 ==>
              FindAllFrom(q, i)[k] + YearMonthWidth <= FindAllFrom(q, i)[k + 1]
    decreases |q| - i
  {
    if i + YearMonthWidth > |q| {
    } else if YearMonthAt(q, i) {
      FindAllSound(q, i + YearMonthWidth);
      var rest := FindAllFrom(q, i + YearMonthWidth);
      assert FindAllFrom(q, i) == [i] + rest;
      forall k | 0 <= k < |rest| + 1
        ensures i <= ([i] + rest)[k] && YearMonthAt(q, ([i] + rest)[k])
      {
        if k > 0 { assert ([i] + rest)[k] == rest[k - 1]; }
      }
      forall k | 0 <= k < |rest|
        ensures ([i] + rest)[k] + YearMonthWidth <= ([i] + rest)[k + 1]
      {
        if k > 0 { assert ([i] + rest)[k] == rest[k - 1]; }
        assert ([i] + rest)[k + 1] == rest[k];
      }
    } else {
      FindAllSound(q, i + 1);
    }
  }

  /** No match is skipped: every match position from i on is reported or lies
      inside a reported match that starts before it. Together with FindAllSound this
      determines the scan's result uniquely. */
  lemma {:induction false} FindAllComplete(q: string, i: nat, p: nat)
    requires i <= p && YearMonthAt(q, p)
    ensures exists k :: 0 <= k < |FindAllFrom(q, i)| &&
              FindAllFrom(q, i)[k] <= p < FindAllFrom(q, i)[k] + YearMonthWidth
    decreases |q| - i
  {
    var ps := FindAllFrom(q, i);
    if YearMonthAt(q, i) {
      var rest := FindAllFrom(q, i + YearMonthWidth);
      assert ps == [i] + rest;
      if p < i + YearMonthWidth {
        assert ps[0] <= p < ps[0] + YearMonthWidth;
      } else {
        FindAllComplete(q, i + YearMonthWidth, p);
        var k :| 0 <= k < |rest| && rest[k] <= p < rest[k] + YearMonthWidth;
        assert ps[k + 1] == rest[k];
      }
    } else {
      FindAllComplete(q, i + 1, p);
    }
  }

  /** `re.findall(r"(\d{4}\.\d{2})", q)`: the matched texts, left to right. Each is
      a dddd.dd token of the query. */
  function FindAllYearMonths(q: string): (tokens: seq<string>)
    ensures |tokens| == |FindAllFrom(q, 0)|
    ensures forall k :: 0 <= k < |tokens| ==> OccursAt(q, FindAllFrom(q, 0)[k], tokens[k])
    ensures forall t :: t in tokens ==> IsYearMonth(t) && Contains(q, t)
  {
    var ps := FindAllFrom(q, 0);
    FindAllSound(q, 0);
    var tokens := seq(|ps|, k requires 0 <= k < |ps| => q[ps[k]..ps[k] + YearMonthWidth]);
    assert forall k :: 0 <= k < |ps| ==> OccursAt(q, ps[k], tokens[k]);
    forall t | t in tokens ensures Contains(q, t) {
      var k :| 0 <= k < |tokens| && tokens[k] == t;
      ContainsAt(q, ps[k], t);
    }
    tokens
  }

  // ------------------------- (\d{4}\.\d{2}\.\d{2})\s*~\s*(\d{4}\.\d{2}\.\d{2})

  const FullDateWidth := 10

  /** A string of the form dddd.dd.dd. */
  predicate IsFullDate(t: string)
  {
    |t| == FullDateWidth && IsYearMonth(t[..YearMonthWidth]) && t[7] == '.' && AllDigits(t[8..])
  }

  predicate FullDateAt(q: string, i: nat)
  {
    i + FullDateWidth <= |q| && IsFullDate(q[i..i + FullDateWidth])
  }

  predicate IsSpace(c: char)
  {
    c == ' ' || c == '\t' || c == '\n' || c == '\r' || c == '\U{B}' || c == '\U{C}'
  }

  /** The end of the run of white space starting at i (the greedy `\s*`). */
  function SkipSpaces(q: string, i: nat): (j: nat)
    decreases |q| - i
    ensures i <= j && (j == i || j <= |q|)
    ensures j < |q| ==> !IsSpace(q[j])
    ensures forall k :: i <= k < j ==> IsSpace(q[k])
  {
    if i < |q| && IsSpace(q[i]) then SkipSpaces(q, i + 1) else i
  }

  /** The two groups of a date-range match. */
  datatype DateRange = DateRange(first: string, last: string)

  /** The date-range pattern tried at position i. Because neither `~` nor a digit is
      white space, the greedy `\s*` never has to give characters back. */
  function DateRangeAt(q: string, i: nat): (r: Option<DateRange>)
    ensures r.Some? ==> IsFullDate(r.value.first) && IsFullDate(r.value.last)
    ensures r.Some? ==> OccursAt(q, i, r.value.first) && Contains(q, r.value.last)
  {
    if FullDateAt(q, i) then
      var j := SkipSpaces(q, i + FullDateWidth);
      if j < |q| && q[j] == '~' then
        var k := SkipSpaces(q, j + 1);
        if FullDateAt(q, k) then
          ContainsAt(q, k, q[k..k + FullDateWidth]);
          Some(DateRange(q[i..i + FullDateWidth], q[k..k + FullDateWidth]))
        else None
      else None
    else None
  }

  /** A run of white space from i up to a character that is not white space is
      exactly what the greedy `\s*` skips. */
  lemma {:induction false} SkipSpacesStops(q: string, i: nat, e: nat)
    requires i <= e < |q| && !IsSpace(q[e])
    requires forall m :: i <= m < e ==> IsSpace(q[m])
    ensures SkipSpaces(q, i) == e
    decreases e - i
  {
    if i < e {
      SkipSpacesStops(q, i + 1, e);
    }
  }

  /** Every textual occurrence of the pattern is a match: a full date at i, white
      space, `~` at a, white space, and a full date at b match at i with those two
      dates as groups. */
  lemma DateRangeAtComplete(q: string, i: nat, a: nat, b: nat)
    requires FullDateAt(q, i) && FullDateAt(q, b) && i + FullDateWidth <= a < b && q[a] == '~'
    requires forall m :: i + FullDateWidth <= m < a ==> IsSpace(q[m])
    requires forall m :: a + 1 <= m < b ==> IsSpace(q[m])
    ensures DateRangeAt(q, i) == Some(DateRange(q[i..i + FullDateWidth], q[b..b + FullDateWidth]))
  {
    SkipSpacesStops(q, i + FullDateWidth, a);
    assert q[b..b + FullDateWidth][0] == q[b];
    assert IsDigit(q[b..b + FullDateWidth][0]);
    SkipSpacesStops(q, a + 1, b);
  }

  /** Every match is a textual occurrence of the pattern: a full date at i, white
      space up to a `~` at a, white space up to a full date at b, with the dates at i
      and b as the two groups. */
  lemma DateRangeAtSound(q: string, i: nat) returns (a: nat, b: nat)
    requires DateRangeAt(q, i).Some?
    ensures FullDateAt(q, i) && FullDateAt(q, b) && i + FullDateWidth <= a < b && q[a] == '~'
    ensures forall m :: i + FullDateWidth <= m < a ==> IsSpace(q[m])
    ensures forall m :: a + 1 <= m < b ==> IsSpace(q[m])
    ensures DateRangeAt(q, i) == Some(DateRange(q[i..i + FullDateWidth], q[b..b + FullDateWidth]))
  {
    a := SkipSpaces(q, i + FullDateWidth);
    b := SkipSpaces(q, a + 1);
  }

  /** `re.search` with the date-range pattern. */
  function SearchDateRange(q: string): (r: Option<DateRange>)
    ensures r.Some? ==> exists i :: 0 <= i < |q| && DateRangeAt(q, i) == r
                                  && forall j :: 0 <= j < i ==> DateRangeAt(q, j).None?
    ensures r.None? ==> forall j :: 0 <= j < |q| ==> DateRangeAt(q, j).None?
  {
    var at := (i: nat) => DateRangeAt(q, i);
    assert forall j: nat :: at(j) == DateRangeAt(q, j);
    match Leftmost(|q|, 0, at)
    case None => None
    case Some(k) => DateRangeAt(q, k)
  }

  /** A date range starts with a full date, whose first seven characters are a
      dddd.dd match, so the findall scan over the same text reports at least one
      token. */
  lemma DateRangeYieldsYearMonth(q: string)
    requires SearchDateRange(q).Some?
    ensures FindAllYearMonths(q) != []
  {
    var i :| 0 <= i < |q| && DateRangeAt(q, i) == SearchDateRange(q);
    assert FullDateAt(q, i);
    assert YearMonthAt(q, i) by {
      assert q[i..i + FullDateWidth][..YearMonthWidth] == q[i..i + YearMonthWidth];
    }
    FindAllComplete(q, 0, i);
  }
}
