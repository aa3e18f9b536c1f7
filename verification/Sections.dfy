/** Sections of a Fluent Bit configuration file: what a rendered plugin contributes, and reading a file back. */
module Sections {
  import opened Common
  import opened Params

  /** One rendered plugin: the lines before its parameters, the parameters or their error, the lines after. */
  datatype Block = Block(header: string, lead: seq<Pair>, params: Result<seq<Pair>, string>, trail: seq<Pair>)

  function BlockText(b: Block): Result<string, string> {
    if b.params.Failure? then Failure(b.params.error)
    else Success(b.header + "\n" + Render(b.lead + b.params.value + b.trail))
  }

  /** The texts in order, or the first error. */
  function BlocksText(bs: seq<Block>): Result<string, string> {
    if bs == [] then Success("")
    else
      var first := BlockText(bs[0]);
      if first.Failure? then first
      else
        var others := BlocksText(bs[1..]);
        if others.Failure? then others else Success(first.value + others.value)
  }

  lemma BlocksTextOne(b: Block)
    ensures BlocksText([b]) == BlockText(b)
  {
    assert [b][1..] == [];
    assert BlockText(b).Success? ==> BlockText(b).value + "" == BlockText(b).value;
  }

  lemma {:induction false} BlocksTextConcat(xs: seq<Block>, ys: seq<Block>)
    ensures BlocksText(xs + ys)
            == if BlocksText(xs).Failure? then BlocksText(xs)
               else if BlocksText(ys).Failure? then BlocksText(ys)
               else Success(BlocksText(xs).value + BlocksText(ys).value)
  {
    if xs == [] {
      assert xs + ys == ys;
      assert BlocksText(ys).Success? ==> "" + BlocksText(ys).value == BlocksText(ys).value;
    } else {
      assert (xs + ys)[1..] == xs[1..] + ys && (xs + ys)[0] == xs[0];
      BlocksTextConcat(xs[1..], ys);
      if BlocksText(xs).Success? && BlocksText(ys).Success? {
        ConcatAssociative(BlockText(xs[0]).value, BlocksText(xs[1..]).value, BlocksText(ys).value);
      }
    }
  }

  /** No text at all is rendered exactly when there is no plugin. */
  lemma BlocksTextEmptyIff(bs: seq<Block>)
    requires BlocksText(bs).Success?
    ensures BlocksText(bs).value == "" <==> bs == []
  {
  }

  // ---------- files as sections ----------

  datatype Section = Section(header: string, lines: seq<string>)

  function LinesText(lines: seq<string>): string {
    if lines == [] then "" else lines[0] + ("\n" + LinesText(lines[1..]))
  }

  function SectionLines(ss: seq<Section>): seq<string> {
    if ss == [] then [] else [ss[0].header] + ss[0].lines + SectionLines(ss[1..])
  }

  function PairLines(ps: seq<Pair>): (lines: seq<string>)
    ensures |lines| == |ps|
  {
    seq(|ps|, i requires 0 <= i < |ps| => RenderLine(ps[i]))
  }

  function BlockSection(b: Block): Section
    requires b.params.Success?
  {
    Section(b.header, PairLines(b.lead + b.params.value + b.trail))
  }

  function BlockSections(bs: seq<Block>): seq<Section>
    requires BlocksText(bs).Success?
  {
    if bs == [] then [] else [BlockSection(bs[0])] + BlockSections(bs[1..])
  }

  /** A file split at its newlines; text after the last newline is a line too. */
  function SplitLines(text: string): seq<string>
    decreases |text|
  {
    if text == "" then []
    else
      var nl := IndexOf(text, '\n');
      [text[..nl]] + if nl < |text| then SplitLines(text[nl + 1..]) else []
  }

  predicate IsHeader(line: string) {
    line != "" && line[0] == '['
  }

  function BodyLength(lines: seq<string>): (n: nat)
    ensures n <= |lines|
  {
    if lines == [] || IsHeader(lines[0]) then 0 else 1 + BodyLength(lines[1..])
  }

  /** The lines grouped under their header lines. */
  function GroupLines(lines: seq<string>): seq<Section>
    decreases |lines|
  {
    if lines == [] then []
    else
      var n := BodyLength(lines[1..]);
      [Section(lines[0], lines[1..][..n])] + GroupLines(lines[1..][n..])
  }

  /** The sections of a configuration file. */
  function ReadSections(text: string): seq<Section> {
    GroupLines(SplitLines(text))
  }

  predicate CleanLine(line: string) {
    '\n' !in line
  }

  predicate CleanSection(s: Section) {
    && IsHeader(s.header) && CleanLine(s.header)
    && forall i :: 0 <= i < |s.lines| ==> CleanLine(s.lines[i]) && !IsHeader(s.lines[i])
  }

  lemma SplitCons(line: string, rest: string)
    requires CleanLine(line)
    ensures SplitLines(line + ("\n" + rest)) == [line] + SplitLines(rest)
  {
    var text := line + ("\n" + rest);
    assert "\n" == ['\n'];
    IndexOfSplit(line, '\n', rest);
    assert text[..|line|] == line && text[|line| + 1..] == rest;
  }

  lemma SplitTail(lines: seq<string>, last: string)
    requires lines != []
    ensures [lines[0]] + (lines[1..] + if last == "" then [] else [last]) == lines + if last == "" then [] else [last]
  {
  }

  lemma {:induction false} SplitLinesText(lines: seq<string>, last: string)
    requires forall i :: 0 <= i < |lines| ==> CleanLine(lines[i])
    requires CleanLine(last)
    ensures SplitLines(LinesText(lines) + last) == lines + if last == "" then [] else [last]
  {
    if lines == [] {
      assert LinesText(lines) + last == last;
      assert IndexOf(last, '\n') == |last| && last[..|last|] == last;
    } else {
      var rest := LinesText(lines[1..]);
      ConcatAssociative(lines[0], "\n" + rest, last);
      ConcatAssociative("\n", rest, last);
      SplitCons(lines[0], rest + last);
      SplitLinesText(lines[1..], last);
      SplitTail(lines, last);
    }
  }

  lemma {:induction false} BodyLengthIs(body: seq<string>, rest: seq<string>)
    requires forall i :: 0 <= i < |body| ==> !IsHeader(body[i])
    requires rest != [] ==> IsHeader(rest[0])
    ensures BodyLength(body + rest) == |body|
  {
    if body == [] {
      assert body + rest == rest;
    } else {
      assert (body + rest)[1..] == body[1..] + rest;
      BodyLengthIs(body[1..], rest);
    }
  }

  lemma {:induction false} GroupSectionLines(ss: seq<Section>)
    requires forall i :: 0 <= i < |ss| ==> CleanSection(ss[i])
    ensures GroupLines(SectionLines(ss)) == ss
  {
    if ss != [] {
      var s, rest := ss[0], SectionLines(ss[1..]);
      var lines := SectionLines(ss);
      assert lines[1..] == s.lines + rest;
      BodyLengthIs(s.lines, rest);
      assert (s.lines + rest)[..|s.lines|] == s.lines && (s.lines + rest)[|s.lines|..] == rest;
      GroupSectionLines(ss[1..]);
      assert ss == [ss[0]] + ss[1..];
    }
  }

  lemma {:induction false} LinesTextConcat(xs: seq<string>, ys: seq<string>)
    ensures LinesText(xs + ys) == LinesText(xs) + LinesText(ys)
  {
    if xs == [] {
      assert xs + ys == ys;
    } else {
      assert (xs + ys)[1..] == xs[1..] + ys && (xs + ys)[0] == xs[0];
      LinesTextConcat(xs[1..], ys);
      ConcatAssociative("\n", LinesText(xs[1..]), LinesText(ys));
      ConcatAssociative(xs[0], "\n" + LinesText(xs[1..]), LinesText(ys));
    }
  }

  lemma {:induction false} SectionLinesConcat(xs: seq<Section>, ys: seq<Section>)
    ensures SectionLines(xs + ys) == SectionLines(xs) + SectionLines(ys)
  {
    if xs == [] {
      assert xs + ys == ys;
    } else {
      assert (xs + ys)[1..] == xs[1..] + ys;
      SectionLinesConcat(xs[1..], ys);
    }
  }

  lemma {:induction false} RenderIsLines(ps: seq<Pair>)
    ensures Render(ps) == LinesText(PairLines(ps))
  {
    if ps != [] {
      assert PairLines(ps)[1..] == PairLines(ps[1..]);
      RenderIsLines(ps[1..]);
    }
  }

  lemma BlockIsSection(b: Block)
    requires b.params.Success?
    ensures BlockText(b).value == LinesText([BlockSection(b).header] + BlockSection(b).lines)
  {
    var ps := b.lead + b.params.value + b.trail;
    RenderIsLines(ps);
    assert ([b.header] + PairLines(ps))[1..] == PairLines(ps);
    ConcatAssociative(b.header, "\n", Render(ps));
  }

  lemma {:induction false} BlocksAreSections(bs: seq<Block>)
    requires BlocksText(bs).Success?
    ensures BlocksText(bs).value == LinesText(SectionLines(BlockSections(bs)))
  {
    if bs != [] {
      var s, rest := BlockSection(bs[0]), BlockSections(bs[1..]);
      BlocksAreSections(bs[1..]);
      BlockIsSection(bs[0]);
      assert ([s] + rest)[1..] == rest;
      LinesTextConcat([s.header] + s.lines, SectionLines(rest));
    }
  }

  /** No string of the block holds a newline; keys and values may be anything else. */
  predicate CleanBlock(b: Block) {
    && IsHeader(b.header) && CleanLine(b.header)
    && (forall i :: 0 <= i < |b.lead| ==> NoNewline(b.lead[i]))
    && (b.params.Success? ==> forall i :: 0 <= i < |b.params.value| ==> NoNewline(b.params.value[i]))
    && (forall i :: 0 <= i < |b.trail| ==> NoNewline(b.trail[i]))
  }

  predicate NoNewline(p: Pair) {
    '\n' !in p.key && '\n' !in p.value
  }

  lemma CleanPairLine(p: Pair)
    requires NoNewline(p)
    ensures CleanLine(RenderLine(p)) && !IsHeader(RenderLine(p))
  {
    assert RenderLine(p)[0] == ' ';
  }

  lemma {:induction false} CleanBlocksAreCleanSections(bs: seq<Block>)
    requires BlocksText(bs).Success?
    requires forall i :: 0 <= i < |bs| ==> CleanBlock(bs[i])
    ensures |BlockSections(bs)| == |bs|
    ensures forall i :: 0 <= i < |bs| ==> CleanSection(BlockSections(bs)[i])
  {
    if bs != [] {
      assert CleanBlock(bs[0]);
      var ps := bs[0].lead + bs[0].params.value + bs[0].trail;
      forall i | 0 <= i < |ps| ensures CleanLine(RenderLine(ps[i])) && !IsHeader(RenderLine(ps[i])) {
        CleanPairLine(ps[i]);
      }
      CleanBlocksAreCleanSections(bs[1..]);
    }
  }
}
