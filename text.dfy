/** Character and string helpers the engine uses: ASCII digits, the ASCII part of
    Python's str.lower(), substring containment (Python's `in` on strings) and
    str.join. */
module Text {

  predicate IsDigit(c: char) { '0' <= c <= '9' }

  predicate AllDigits(s: string) { forall i :: 0 <= i < |s| ==> IsDigit(s[i]) }

  predicate IsUpper(c: char) { 'A' <= c <= 'Z' }

  /** Lower-cases an ASCII capital; every other character is left alone. */
  function LowerChar(c: char): (r: char)
    ensures !IsUpper(r)
    ensures !IsUpper(c) ==> r == c
    ensures IsUpper(c) ==> r as int == c as int + 32
  {
    if IsUpper(c) then (c as int + 32) as char else c
  }

  /** str.lower() restricted to ASCII (Hangul and digits are unchanged). */
  function Lower(s: string): (r: string)
    ensures |r| == |s|
    ensures forall i :: 0 <= i < |r| ==> !IsUpper(r[i])
    ensures forall i :: 0 <= i < |s| && !IsUpper(s[i]) ==> r[i] == s[i]
    ensures forall i :: 0 <= i < |s| && IsUpper(s[i]) ==> r[i] as int == s[i] as int + 32
  {
    seq(|s|, i requires 0 <= i < |s| => LowerChar(s[i]))
  }

  /** `t in s` on Python strings: t occurs in s as a contiguous substring. */
  predicate Contains(s: string, t: string)
    decreases |s|
  {
    t <= s || (s != [] && Contains(s[1..], t))
  }

  /** t occurs in s starting at position i. */
  predicate OccursAt(s: string, i: nat, t: string)
  {
    i + |t| <= |s| && s[i..i + |t|] == t
  }

  /** An occurrence at a known position is an occurrence. */
  lemma {:induction false} ContainsAt(s: string, i: nat, t: string)
    requires OccursAt(s, i, t)
    ensures Contains(s, t)
    decreases i
  {
    if i == 0 {
      assert t <= s;
    } else {
      assert OccursAt(s[1..], i - 1, t) by {
        assert s[1..][i - 1..i - 1 + |t|] == s[i..i + |t|];
      }
      ContainsAt(s[1..], i - 1, t);
    }
  }

  /** Every occurrence has a position. */
  lemma {:induction false} ContainsPosition(s: string, t: string) returns (i: nat)
    requires Contains(s, t)
    ensures OccursAt(s, i, t)
    decreases |s|
  {
    if t <= s {
      i := 0;
      assert s[0..|t|] == t;
    } else {
      var j := ContainsPosition(s[1..], t);
      assert s[1..][j..j + |t|] == s[j + 1..j + 1 + |t|];
      i := j + 1;
    }
  }

  /** Contains agrees with the positional reading of substring occurrence. */
  lemma ContainsIffOccurs(s: string, t: string)
    ensures Contains(s, t) <==> exists i: nat :: OccursAt(s, i, t)
  {
    if Contains(s, t) {
      var i := ContainsPosition(s, t);
    }
    if exists i: nat :: OccursAt(s, i, t) {
      var i: nat :| OccursAt(s, i, t);
      ContainsAt(s, i, t);
    }
  }

  /** Every prefix of a contained string is contained. */
  lemma {:induction false} ContainsPrefix(s: string, t: string, u: string)
    requires Contains(s, t) && u <= t
    ensures Contains(s, u)
    decreases |s|
  {
    if !(t <= s) {
      ContainsPrefix(s[1..], t, u);
    }
  }

  /** A string occurs inside any concatenation that has it as a middle part. */
  lemma ContainsInfix(a: string, t: string, b: string)
    ensures Contains(a + t + b, t)
  {
    assert OccursAt(a + t + b, |a|, t) by {
      assert (a + t + b)[|a|..|a| + |t|] == t;
    }
    ContainsAt(a + t + b, |a|, t);
  }

  /** Containment survives extending the haystack on either side. */
  lemma ContainsExtend(a: string, s: string, b: string, t: string)
    requires Contains(s, t)
    ensures Contains(a + s + b, t)
  {
    var i := ContainsPosition(s, t);
    assert OccursAt(a + s + b, |a| + i, t) by {
      assert (a + s + b)[|a| + i..|a| + i + |t|] == s[i..i + |t|];
    }
    ContainsAt(a + s + b, |a| + i, t);
  }

  /** A string whose first character never occurs is not contained. */
  lemma {:induction false} FirstCharAbsent(s: string, t: string)
    requires t != [] && forall i :: 0 <= i < |s| ==> s[i] != t[0]
    ensures !Contains(s, t)
    decreases |s|
  {
    if s != [] {
      FirstCharAbsent(s[1..], t);
      assert s[0] != t[0];
    }
  }

  /** A string longer than the haystack is not contained. */
  lemma {:induction false} LongerAbsent(s: string, t: string)
    requires |t| > |s|
    ensures !Contains(s, t)
    decreases |s|
  {
    if s != [] {
      LongerAbsent(s[1..], t);
    }
  }

  /** Containment survives appending to the haystack. */
  lemma ContainsAppend(s: string, t: string, b: string)
    requires Contains(s, t)
    ensures Contains(s + b, t)
  {
    var i := ContainsPosition(s, t);
    assert OccursAt(s + b, i, t) by {
      assert (s + b)[i..i + |t|] == s[i..i + |t|];
    }
    ContainsAt(s + b, i, t);
  }

  /** Containment survives prepending to the haystack. */
  lemma ContainsPrepend(a: string, s: string, t: string)
    requires Contains(s, t)
    ensures Contains(a + s, t)
  {
    var i := ContainsPosition(s, t);
    assert OccursAt(a + s, |a| + i, t) by {
      assert (a + s)[|a| + i..|a| + i + |t|] == s[i..i + |t|];
    }
    ContainsAt(a + s, |a| + i, t);
  }

  /** Python's `sep.join(xs)`. */
  function Join(xs: seq<string>, sep: string): string
  {
    if |xs| == 0 then "" else if |xs| == 1 then xs[0] else xs[0] + sep + Join(xs[1..], sep)
  }

  /** Every joined part occurs in the joined string. */
  lemma {:induction false} JoinContains(xs: seq<string>, sep: string, k: nat)
    requires k < |xs|
    ensures Contains(Join(xs, sep), xs[k])
  {
    if |xs| == 1 {
      ContainsInfix("", xs[0], "");
      assert "" + xs[0] + "" == Join(xs, sep);
    } else if k == 0 {
      ContainsInfix("", xs[0], sep + Join(xs[1..], sep));
      assert "" + xs[0] + (sep + Join(xs[1..], sep)) == Join(xs, sep);
    } else {
      JoinContains(xs[1..], sep, k - 1);
      ContainsExtend(xs[0] + sep, Join(xs[1..], sep), "", xs[k]);
      assert xs[0] + sep + Join(xs[1..], sep) + "" == Join(xs, sep);
    }
  }

  /** Joining one more part appends a separator and that part. */
  lemma {:induction false} JoinAppend(xs: seq<string>, sep: string, x: string)
    requires xs != []
    ensures Join(xs + [x], sep) == Join(xs, sep) + sep + x
  {
    if |xs| == 1 {
      assert xs + [x] == [xs[0], x];
      assert [xs[0], x][1..] == [x];
    } else {
      assert (xs + [x])[1..] == xs[1..] + [x];
      JoinAppend(xs[1..], sep, x);
    }
  }

  /** The length of a join: the parts plus one separator between each pair. */
  function TotalLength(xs: seq<string>): nat
  {
    if xs == [] then 0 else |xs[0]| + TotalLength(xs[1..])
  }

  lemma {:induction false} JoinLength(xs: seq<string>, sep: string)
    requires xs != []
    ensures |Join(xs, sep)| == TotalLength(xs) + (|xs| - 1) * |sep|
  {
    if |xs| > 1 {
      JoinLength(xs[1..], sep);
    }
  }
}
