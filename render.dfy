/** The deterministic reply of chatbot.py and test6.py: a header chosen by a fixed
    priority, then one block per program with a fixed field order. */
module Render {
  import opened Text
  import opened Catalog
  import opened Matcher

  /** Which header generate_response picks. */
  datatype HeaderKind = ByKeywords | ByTarget | ByMonth | General

  /** The if/elif chain: keywords, then audience, then month, then the generic line. */
  function HeaderKindOf(c: Criteria): (k: HeaderKind)
    ensures k == ByKeywords <==> c.keywords != []
    ensures k == ByTarget <==> c.keywords == [] && TargetPresent(c.target)
    ensures k == ByMonth <==> c.keywords == [] && !TargetPresent(c.target) && MonthPresent(c.month)
    ensures k == General <==> c.keywords == [] && !TargetPresent(c.target) && !MonthPresent(c.month)
  {
    if c.keywords != [] then ByKeywords
    else if TargetPresent(c.target) then ByTarget
    else if MonthPresent(c.month) then ByMonth
    else General
  }

  const HeaderOpen := "**📌 "
  const HeaderClose := ":**"

  /** The header line: one bold line, opening with `**📌 ` and closing with `:**`.
      The month here is the `N월` digit string, the only month value these scripts
      produce. */
  function Header(c: Criteria): (h: string)
    requires !c.month.Tokens?
    ensures HeaderOpen <= h
    ensures |HeaderOpen| + |HeaderClose| <= |h| && h[|h| - |HeaderClose|..] == HeaderClose
  {
    match HeaderKindOf(c)
    case ByKeywords => HeaderOpen + Join(c.keywords, " ") + " 관련 프로그램입니다" + HeaderClose
    case ByTarget => HeaderOpen + c.target.value + " 대상 추천 비교과 프로그램입니다" + HeaderClose
    case ByMonth => HeaderOpen + c.month.digits + "월 진행되는 비교과 프로그램입니다" + HeaderClose
    case General => HeaderOpen + "추천 비교과 프로그램입니다" + HeaderClose
  }

  /** Every header is one bold line, and it names the criterion that chose it:
      each matched keyword, the audience token, or the month followed by 월. */
  lemma HeaderNamesItsCriterion(c: Criteria)
    requires !c.month.Tokens?
    ensures HeaderOpen <= Header(c)
    ensures HeaderKindOf(c) == ByKeywords ==> forall k :: 0 <= k < |c.keywords| ==> Contains(Header(c), c.keywords[k])
    ensures HeaderKindOf(c) == ByTarget ==> Contains(Header(c), c.target.value)
    ensures HeaderKindOf(c) == ByMonth ==> Contains(Header(c), c.month.digits + "월")
  {
    match HeaderKindOf(c)
    case ByKeywords =>
      var joined := Join(c.keywords, " ");
      forall k | 0 <= k < |c.keywords| ensures Contains(Header(c), c.keywords[k]) {
        JoinContains(c.keywords, " ", k);
        ContainsExtend(HeaderOpen, joined, " 관련 프로그램입니다" + HeaderClose, c.keywords[k]);
        assert HeaderOpen + joined + (" 관련 프로그램입니다" + HeaderClose) == Header(c);
      }
    case ByTarget =>
      ContainsInfix(HeaderOpen, c.target.value, " 대상 추천 비교과 프로그램입니다" + HeaderClose);
      assert HeaderOpen + c.target.value + (" 대상 추천 비교과 프로그램입니다" + HeaderClose) == Header(c);
    case ByMonth =>
      ContainsInfix(HeaderOpen, c.month.digits + "월", " 진행되는 비교과 프로그램입니다" + HeaderClose);
      assert HeaderOpen + (c.month.digits + "월") + (" 진행되는 비교과 프로그램입니다" + HeaderClose) == Header(c);
    case General =>
  }

  /** The fields a program block shows, in display order. */
  function Fields(p: Record): seq<string>
  {
    [p.title, p.description, p.period, p.location, p.benefits, p.target, p.contact]
  }

  /** The text before each field: the bullet and bold title, then one labelled line
      per field. */
  const Labels := ["🔹 **", "**\n📌 설명: ", "\n📅 기간: ", "\n📍 장소: ", "\n🎁 혜택: ",
                   "\n🎯 신청대상: ", "\n📞 문의처: "]

  /** Each label followed by its field, in order. */
  function Labelled(labels: seq<string>, values: seq<string>): string
    requires |labels| == |values|
  {
    if labels == [] then "" else labels[0] + values[0] + Labelled(labels[1..], values[1..])
  }

  /** The block a listed program gets: the bold title, then description, period,
      location, benefits, audience and contact, each on its own labelled line. */
  function Block(p: Record): (b: string)
    ensures b == "🔹 **" + p.title + "**\n📌 설명: " + p.description + "\n📅 기간: " + p.period
                 + "\n📍 장소: " + p.location + "\n🎁 혜택: " + p.benefits
                 + "\n🎯 신청대상: " + p.target + "\n📞 문의처: " + p.contact
  {
    var ls, fs := Labels, Fields(p);
    LabelledSteps(ls, fs);
    var tail := Labelled(ls[4..], fs[4..]);
    assert tail == ls[4] + fs[4] + (ls[5] + fs[5] + (ls[6] + fs[6] + ""));
    assert Labelled(ls, fs) == ls[0] + fs[0] + (ls[1] + fs[1] + (ls[2] + fs[2] + (ls[3] + fs[3] + tail)));
    Labelled(Labels, Fields(p))
  }

  /** The block an alternative suggestion gets: the bold title, then description
      and period. */
  function ShortBlock(p: Record): (b: string)
    ensures b == "🔹 **" + p.title + "**\n📌 설명: " + p.description + "\n📅 기간: " + p.period
  {
    LabelledSteps(Labels[..3], Fields(p)[..3]);
    Labelled(Labels[..3], Fields(p)[..3])
  }

  /** Labelled unfolded one position at a time, from the end. */
  lemma LabelledSteps(labels: seq<string>, values: seq<string>)
    requires |labels| == |values|
    ensures forall n :: 0 <= n < |labels| ==>
              Labelled(labels[n..], values[n..]) == labels[n] + values[n] + Labelled(labels[n + 1..], values[n + 1..])
    ensures Labelled(labels[|labels|..], values[|labels|..]) == ""
  {
    forall n | 0 <= n < |labels|
      ensures Labelled(labels[n..], values[n..]) == labels[n] + values[n] + Labelled(labels[n + 1..], values[n + 1..])
    {
      assert labels[n..][1..] == labels[n + 1..];
      assert values[n..][1..] == values[n + 1..];
    }
  }

  /** Labelling a prefix of the fields gives a prefix of the text. */
  lemma {:induction false} LabelledPrefix(labels: seq<string>, values: seq<string>, n: nat)
    requires |labels| == |values| && n <= |labels|
    ensures Labelled(labels[..n], values[..n]) <= Labelled(labels, values)
  {
    if n > 0 {
      LabelledPrefix(labels[1..], values[1..], n - 1);
      assert labels[..n][1..] == labels[1..][..n - 1];
      assert values[..n][1..] == values[1..][..n - 1];
    }
  }

  /** Each field occurs in the labelled text. */
  lemma {:induction false} LabelledShowsFields(labels: seq<string>, values: seq<string>, k: nat)
    requires |labels| == |values| && k < |values|
    ensures Contains(Labelled(labels, values), values[k])
  {
    var rest := Labelled(labels[1..], values[1..]);
    if k == 0 {
      ContainsInfix(labels[0], values[0], rest);
    } else {
      LabelledShowsFields(labels[1..], values[1..], k - 1);
      ContainsExtend(labels[0] + values[0], rest, "", values[k]);
      assert labels[0] + values[0] + rest + "" == Labelled(labels, values);
    }
  }

  /** The suggestion block is the start of the full block, which goes on with the
      location, benefits, audience and contact lines in that order; the full block
      shows every field. */
  lemma BlockLayout(p: Record)
    ensures ShortBlock(p) <= Block(p)
    ensures Block(p) == ShortBlock(p) + "\n📍 장소: " + p.location + "\n🎁 혜택: " + p.benefits
                        + "\n🎯 신청대상: " + p.target + "\n📞 문의처: " + p.contact
    ensures forall k :: 0 <= k < |Fields(p)| ==> Contains(Block(p), Fields(p)[k])
    ensures forall k :: 0 <= k < 3 ==> Contains(ShortBlock(p), Fields(p)[k])
  {
    LabelledPrefix(Labels, Fields(p), 3);
    forall k | 0 <= k < |Fields(p)| ensures Contains(Block(p), Fields(p)[k]) {
      LabelledShowsFields(Labels, Fields(p), k);
    }
    forall k | 0 <= k < 3 ensures Contains(ShortBlock(p), Fields(p)[k]) {
      LabelledShowsFields(Labels[..3], Fields(p)[..3], k);
    }
  }

  const BlockSeparator := "\n\n"

  /** The block texts of a list of programs, one per program, in order. */
  function Blocks(programs: seq<Record>): (bs: seq<string>)
    ensures |bs| == |programs|
    ensures forall i :: 0 <= i < |programs| ==> bs[i] == Block(programs[i])
  {
    seq(|programs|, i requires 0 <= i < |programs| => Block(programs[i]))
  }

  function ShortBlocks(programs: seq<Record>): (bs: seq<string>)
    ensures |bs| == |programs|
    ensures forall i :: 0 <= i < |programs| ==> bs[i] == ShortBlock(programs[i])
  {
    seq(|programs|, i requires 0 <= i < |programs| => ShortBlock(programs[i]))
  }

  /** The reply for a non-empty result list: the header, a blank line, the blocks. */
  function Listing(c: Criteria, results: seq<Record>): (l: string)
    requires !c.month.Tokens?
    ensures Header(c) + BlockSeparator <= l
    ensures |results| == 1 ==> l == Header(c) + BlockSeparator + Block(results[0])
  {
    Header(c) + BlockSeparator + Join(Blocks(results), BlockSeparator)
  }

  /** The listing starts with the header and shows every result's block. */
  lemma ListingShowsEveryResult(c: Criteria, results: seq<Record>)
    requires !c.month.Tokens?
    ensures Header(c) + BlockSeparator <= Listing(c, results)
    ensures forall i :: 0 <= i < |results| ==> Contains(Listing(c, results), Block(results[i]))
  {
    var body := Join(Blocks(results), BlockSeparator);
    assert Listing(c, results) == Header(c) + BlockSeparator + body + "";
    forall i | 0 <= i < |results| ensures Contains(Listing(c, results), Block(results[i])) {
      JoinContains(Blocks(results), BlockSeparator, i);
      ContainsExtend(Header(c) + BlockSeparator, body, "", Block(results[i]));
    }
  }

  /** Listing one more result appends a blank line and that result's block, so the
      listing shows one block per result, in result order. */
  lemma ListingAppend(c: Criteria, results: seq<Record>, p: Record)
    requires !c.month.Tokens? && results != []
    ensures Listing(c, results + [p]) == Listing(c, results) + BlockSeparator + Block(p)
  {
    var head := Header(c) + BlockSeparator;
    var bs := Blocks(results);
    assert Blocks(results + [p]) == bs + [Block(p)];
    JoinAppend(bs, BlockSeparator, Block(p));
    var joined := Join(bs, BlockSeparator);
    assert Listing(c, results + [p]) == head + (joined + BlockSeparator + Block(p));
    assert Listing(c, results) == head + joined;
  }
}
