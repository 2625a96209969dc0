/** Leading-comment processing of openapiGenerator.go: the exclusion
    markers, the ignored-directive test, `parseComments` (description text
    and `+kubebuilder:` rules) and `generateDescription`. */
module Comments {
  import opened GoStrings
  import opened Validation

  /** `descriptionExclusionMarkers`, in order. */
  const ExclusionMarkers: seq<string> := ["$hide_from_docs", "$hide", "@exclude"]

  /** `shouldNotRenderDesc`: the trimmed text starts with an exclusion
      marker. */
  predicate ShouldNotRenderDesc(desc: string) {
    HasAnyPrefix(TrimSpace(desc), ExclusionMarkers)
  }

  /** `s` starts with one of `prefixes`, tried in order. */
  predicate HasAnyPrefix(s: string, prefixes: seq<string>)
    decreases |prefixes|
  {
    |prefixes| > 0 && (HasPrefix(s, prefixes[0]) || HasAnyPrefix(s, prefixes[1..]))
  }

  /** `$hide_from_docs` adds nothing to `$hide`: a text is excluded exactly
      when its trimmed form starts with `$hide` or `@exclude`. */
  lemma ExclusionNeedsOnlyTwoMarkers(desc: string)
    ensures ShouldNotRenderDesc(desc) <==> HasPrefix(TrimSpace(desc), "$hide") || HasPrefix(TrimSpace(desc), "@exclude")
  {
    var t := TrimSpace(desc);
    if HasPrefix(t, "$hide_from_docs") {
      assert t[..5] == t[..15][..5];
    }
    HasAnyPrefixIff(t, ExclusionMarkers);
    assert ExclusionMarkers[1] == "$hide" && ExclusionMarkers[2] == "@exclude";
  }

  /** `HasAnyPrefix` is the existential it stands for. */
  lemma {:induction false} HasAnyPrefixIff(s: string, prefixes: seq<string>)
    ensures HasAnyPrefix(s, prefixes) <==> exists k :: 0 <= k < |prefixes| && HasPrefix(s, prefixes[k])
    decreases |prefixes|
  {
    if |prefixes| > 0 {
      HasAnyPrefixIff(s, prefixes[1..]);
      assert forall k :: 1 <= k < |prefixes| ==> prefixes[k] == prefixes[1..][k - 1];
    }
  }

  /** `isIgnoredKubeMarker` with the pattern the generator compiles from
      the substrings: no pattern when the list is empty, otherwise a match
      of any alternative. The substrings are read literally. */
  predicate IsIgnoredKubeMarker(ignored: seq<string>, l: string)
    decreases |ignored|
  {
    |ignored| > 0 && (Contains(l, ignored[0]) || IsIgnoredKubeMarker(ignored[1..], l))
  }

  /** A line is ignored exactly when it contains one of the substrings. */
  lemma {:induction false} IgnoredIff(ignored: seq<string>, l: string)
    ensures IsIgnoredKubeMarker(ignored, l) <==> exists k :: 0 <= k < |ignored| && Contains(l, ignored[k])
    decreases |ignored|
  {
    if |ignored| > 0 {
      IgnoredIff(ignored[1..], l);
      assert forall k :: 1 <= k < |ignored| ==> ignored[k] == ignored[1..][k - 1];
    }
  }

  /** A kept line loses one leading space. */
  function StripOneSpace(line: string): (r: string)
    ensures r == line || (line != [] && line[0] == ' ' && r == line[1..])
  {
    if |line| > 0 && line[0] == ' ' then line[1..] else line
  }

  /** The text a line contributes after its separator: nothing for an
      excluded or directive line, otherwise the line without one leading
      space and without trailing spaces. */
  function RenderLine(line: string): (r: string)
    ensures ShouldNotRenderDesc(line) || HasPrefix(TrimSpace(line), Kubebuilder) ==> r == ""
    ensures r == "" || (|r| <= |StripOneSpace(line)| && r == StripOneSpace(line)[..|r|] && r[|r| - 1] != ' '
                        && forall i :: |r| <= i < |StripOneSpace(line)| ==> StripOneSpace(line)[i] == ' ')
  {
    TrimSpaceIdempotent(line);
    var l := TrimSpace(line);
    if ShouldNotRenderDesc(l) || HasPrefix(l, Kubebuilder) then "" else TrimRightSpaces(StripOneSpace(line))
  }

  /** The rule a line contributes: its trimmed text, when it is a
      directive that is neither excluded nor ignored. */
  function LineRule(line: string, ignored: seq<string>): seq<string> {
    var l := TrimSpace(line);
    if ShouldNotRenderDesc(l) then []
    else if HasPrefix(l, Kubebuilder) && !IsIgnoredKubeMarker(ignored, l) then [l]
    else []
  }

  /** The concatenation of `f` over `xs`, left to right. */
  function ConcatMap<T>(xs: seq<T>, f: T -> seq<string>): seq<string>
    decreases |xs|
  {
    if |xs| == 0 then [] else ConcatMap(xs[..|xs| - 1], f) + f(xs[|xs| - 1])
  }

  /** The strings `f` gives for `xs`, with `sep` before every one but the
      first. */
  function JoinMap<T>(xs: seq<T>, f: T -> string, sep: string): string
    decreases |xs|
  {
    if |xs| == 0 then ""
    else JoinMap(xs[..|xs| - 1], f, sep) + (if |xs| > 1 then sep else "") + f(xs[|xs| - 1])
  }

  lemma {:induction false} ConcatMapAppend<T>(a: seq<T>, b: seq<T>, f: T -> seq<string>)
    ensures ConcatMap(a + b, f) == ConcatMap(a, f) + ConcatMap(b, f)
    decreases |b|
  {
    if |b| == 0 {
      assert a + b == a;
    } else {
      var n := |b| - 1;
      assert (a + b)[..|a + b| - 1] == a + b[..n];
      assert (a + b)[|a + b| - 1] == b[n];
      ConcatMapAppend(a, b[..n], f);
    }
  }

  /** `JoinMap` is `Join` of the strings `f` gives. */
  lemma {:induction false} JoinMapIsJoin<T>(xs: seq<T>, f: T -> string, sep: string, texts: seq<string>)
    requires |texts| == |xs| && forall k :: 0 <= k < |xs| ==> texts[k] == f(xs[k])
    ensures JoinMap(xs, f, sep) == Join(texts, sep)
    decreases |xs|
  {
    if |xs| == 1 {
      assert xs[..0] == [];
    } else if |xs| > 1 {
      var n := |xs| - 1;
      assert forall k :: 0 <= k < n ==> xs[..n][k] == xs[k];
      JoinMapIsJoin(xs[..n], f, sep, texts[..n]);
      assert texts == texts[..n] + [f(xs[n])];
      JoinSnoc(texts[..n], f(xs[n]), sep);
    }
  }

  /** A property every string of every `f(x)` has holds of the whole
      concatenation. */
  lemma {:induction false} ConcatMapAll<T>(xs: seq<T>, f: T -> seq<string>, P: string -> bool)
    requires forall k, r :: 0 <= k < |xs| && r in f(xs[k]) ==> P(r)
    ensures forall r :: r in ConcatMap(xs, f) ==> P(r)
    decreases |xs|
  {
    if |xs| > 0 {
      var n := |xs| - 1;
      assert forall k :: 0 <= k < n ==> xs[..n][k] == xs[k];
      ConcatMapAll(xs[..n], f, P);
    }
  }

  /** A block's text: each line's text, a newline before every line but
      the first whether or not the line is kept. */
  function RenderLines(lines: seq<string>): string {
    JoinMap(lines, RenderLine, "\n")
  }

  /** The rules of a block's lines, in order. */
  function LinesRules(lines: seq<string>, ignored: seq<string>): seq<string> {
    ConcatMap(lines, LineRules(ignored))
  }

  function LineRules(ignored: seq<string>): string -> seq<string> {
    line => LineRule(line, ignored)
  }

  predicate Hidden(block: string) {
    ShouldNotRenderDesc(TrimSpace(block))
  }

  /** The text a block that is not hidden adds at position `i`: a
      blank-line separator unless it is the very first block, then its
      lines. */
  function BlockText(block: string, i: nat): string {
    if i > 0 then "\n\n" + RenderLines(Split(block, "\n")) else RenderLines(Split(block, "\n"))
  }

  /** The rules one block adds: none when it is hidden, otherwise those of
      its lines. */
  function BlockRules(block: string, ignored: seq<string>): seq<string> {
    if Hidden(block) then [] else LinesRules(Split(block, "\n"), ignored)
  }

  /** The description text before the final trim: a hidden block adds
      nothing. */
  function RenderBlocks(blocks: seq<string>): string
    decreases |blocks|
  {
    if |blocks| == 0 then ""
    else
      var i := |blocks| - 1;
      if Hidden(blocks[i]) then RenderBlocks(blocks[..i]) else RenderBlocks(blocks[..i]) + BlockText(blocks[i], i)
  }

  function BlocksRules(blocks: seq<string>, ignored: seq<string>): seq<string> {
    ConcatMap(blocks, BlockRulesOf(ignored))
  }

  function BlockRulesOf(ignored: seq<string>): string -> seq<string> {
    block => BlockRules(block, ignored)
  }

  /** The blank-line blocks of a comment. */
  function Blocks(comment: string): seq<string> {
    Split(TrimSpace(comment), "\n\n")
  }

  /** The description `parseComments` returns. */
  function CommentText(comment: string, ignored: seq<string>): string {
    TrimSpace(RenderBlocks(Blocks(comment)))
  }

  /** The rules `parseComments` returns. */
  function CommentRules(comment: string, ignored: seq<string>): seq<string> {
    BlocksRules(Blocks(comment), ignored)
  }

  lemma {:induction false} ConcatMapSnoc<T>(xs: seq<T>, k: nat, f: T -> seq<string>)
    requires k < |xs|
    ensures ConcatMap(xs[..k + 1], f) == ConcatMap(xs[..k], f) + f(xs[k])
  {
    assert xs[..k + 1][..k] == xs[..k];
  }

  lemma {:induction false} JoinMapSnoc<T>(xs: seq<T>, k: nat, f: T -> string, sep: string)
    requires k < |xs|
    ensures JoinMap(xs[..k + 1], f, sep) == JoinMap(xs[..k], f, sep) + (if k > 0 then sep else "") + f(xs[k])
  {
    assert xs[..k + 1][..k] == xs[..k];
  }

  /** One more line of a block. */
  lemma LinesStep(lines: seq<string>, k: nat, ignored: seq<string>)
    requires k < |lines|
    ensures RenderLines(lines[..k + 1]) == RenderLines(lines[..k]) + (if k > 0 then "\n" else "") + RenderLine(lines[k])
    ensures LinesRules(lines[..k + 1], ignored) == LinesRules(lines[..k], ignored) + LineRule(lines[k], ignored)
  {
    JoinMapSnoc(lines, k, RenderLine, "\n");
    ConcatMapSnoc(lines, k, LineRules(ignored));
  }

  /** One more block of a comment. */
  lemma BlocksStep(blocks: seq<string>, i: nat, ignored: seq<string>)
    requires i < |blocks|
    ensures RenderBlocks(blocks[..i + 1])
         == if Hidden(blocks[i]) then RenderBlocks(blocks[..i]) else RenderBlocks(blocks[..i]) + BlockText(blocks[i], i)
    ensures BlocksRules(blocks[..i + 1], ignored) == BlocksRules(blocks[..i], ignored) + BlockRules(blocks[i], ignored)
  {
    assert blocks[..i + 1][..i] == blocks[..i];
    ConcatMapSnoc(blocks, i, BlockRulesOf(ignored));
  }

  /** What one line contributes, by the branch `parseComments` takes. */
  lemma LineOutcome(line: string, ignored: seq<string>)
    ensures ShouldNotRenderDesc(TrimSpace(line)) ==> RenderLine(line) == "" && LineRule(line, ignored) == []
    ensures !ShouldNotRenderDesc(TrimSpace(line)) && HasPrefix(TrimSpace(line), Kubebuilder) ==>
      RenderLine(line) == "" && LineRule(line, ignored) == (if IsIgnoredKubeMarker(ignored, TrimSpace(line)) then [] else [TrimSpace(line)])
    ensures !ShouldNotRenderDesc(TrimSpace(line)) && !HasPrefix(TrimSpace(line), Kubebuilder) ==>
      RenderLine(line) == TrimRightSpaces(StripOneSpace(line)) && LineRule(line, ignored) == []
  {
  }

  lemma AppendAssoc<T>(a: seq<T>, b: seq<T>, c: seq<T>)
    ensures (a + b) + c == a + (b + c)
  {
  }

  /** The body of the loop of `parseComments` for block `i`: nothing for
      a hidden block; otherwise the separator and each line's text are
      appended to `sb`, and the block's rules are returned. */
  method ParseBlock(sb: string, block: string, i: nat, ignored: seq<string>) returns (sb': string, rules: seq<string>)
    ensures sb' == if Hidden(block) then sb else sb + BlockText(block, i)
    ensures rules == BlockRules(block, ignored)
  {
    sb' := sb;
    rules := [];
    if !ShouldNotRenderDesc(TrimSpace(block)) {
      if i > 0 {
        sb' := sb' + "\n\n";
      }
      var blockSb;
      blockSb, rules := ParseLines(Split(block, "\n"), ignored);
      if i > 0 {
        AppendAssoc(sb, "\n\n", blockSb);
      }
      sb' := sb' + blockSb;
    }
  }

  /** The inner loop of `parseComments` over the lines of a block that is
      not hidden: the block's text and its rules. */
  method ParseLines(lines: seq<string>, ignored: seq<string>) returns (blockSb: string, rules: seq<string>)
    ensures blockSb == RenderLines(lines)
    ensures rules == LinesRules(lines, ignored)
  {
    blockSb := "";
    rules := [];
    var k := 0;
    while k < |lines|
      invariant 0 <= k <= |lines|
      invariant blockSb == RenderLines(lines[..k])
      invariant rules == LinesRules(lines[..k], ignored)
    {
      LinesStep(lines, k, ignored);
      LineOutcome(lines[k], ignored);
      if k > 0 {
        blockSb := blockSb + "\n";
      }
      var line := lines[k];
      var l := TrimSpace(line);
      if ShouldNotRenderDesc(l) {
      } else if HasPrefix(l, Kubebuilder) {
        if !IsIgnoredKubeMarker(ignored, l) {
          rules := rules + [l];
        }
      } else {
        if |line| > 0 && line[0] == ' ' {
          line := line[1..];
        }
        blockSb := blockSb + TrimRightSpaces(line);
      }
      k := k + 1;
    }
    assert lines[..k] == lines;
  }

  /** The loop of `parseComments` over the blank-line blocks: the text
      before the final trim and the rules. */
  method ParseBlocks(blocks: seq<string>, ignored: seq<string>) returns (sb: string, rules: seq<string>)
    ensures sb == RenderBlocks(blocks)
    ensures rules == BlocksRules(blocks, ignored)
  {
    sb := "";
    rules := [];
    var i := 0;
    while i < |blocks|
      invariant 0 <= i <= |blocks|
      invariant sb == RenderBlocks(blocks[..i])
      invariant rules == BlocksRules(blocks[..i], ignored)
    {
      BlocksStep(blocks, i, ignored);
      var blockRules;
      sb, blockRules := ParseBlock(sb, blocks[i], i, ignored);
      rules := rules + blockRules;
      i := i + 1;
    }
    assert blocks[..i] == blocks;
  }

  /** `parseComments`: the trimmed description text and the directive
      rules of a comment. */
  method ParseComments(comment: string, ignored: seq<string>) returns (comments: string, rules: seq<string>)
    ensures comments == CommentText(comment, ignored)
    ensures rules == CommentRules(comment, ignored)
  {
    var c := TrimSpace(comment);
    var blocks := Split(c, "\n\n");
    var sb;
    sb, rules := ParseBlocks(blocks, ignored);
    comments := TrimSpace(sb);
  }

  // ---------------------------------------------------------------------
  // What the rules and the text are.

  /** What every rule is: a trimmed `+kubebuilder:` directive that matches
      no ignored substring and is not an excluded line. */
  predicate KeptDirective(ignored: seq<string>, r: string) {
    HasPrefix(r, Kubebuilder) && TrimSpace(r) == r && !IsIgnoredKubeMarker(ignored, r) && !ShouldNotRenderDesc(r)
  }

  lemma LineRuleIsKeptDirective(line: string, ignored: seq<string>)
    ensures forall r :: r in LineRule(line, ignored) ==> KeptDirective(ignored, r)
  {
    TrimSpaceIdempotent(line);
  }

  lemma LinesRulesAreDirectives(lines: seq<string>, ignored: seq<string>)
    ensures forall r :: r in LinesRules(lines, ignored) ==> KeptDirective(ignored, r)
  {
    forall k | 0 <= k < |lines| {
      LineRuleIsKeptDirective(lines[k], ignored);
    }
    ConcatMapAll(lines, LineRules(ignored), r => KeptDirective(ignored, r));
  }

  lemma BlocksRulesAreDirectives(blocks: seq<string>, ignored: seq<string>)
    ensures forall r :: r in BlocksRules(blocks, ignored) ==> KeptDirective(ignored, r)
  {
    forall k | 0 <= k < |blocks| {
      LinesRulesAreDirectives(Split(blocks[k], "\n"), ignored);
    }
    ConcatMapAll(blocks, BlockRulesOf(ignored), r => KeptDirective(ignored, r));
  }

  /** Every rule `parseComments` returns is trimmed, starts with
      `+kubebuilder:`, matches no ignored substring and is not an excluded
      line. */
  lemma RulesAreDirectives(comment: string, ignored: seq<string>)
    ensures forall r :: r in CommentRules(comment, ignored) ==> KeptDirective(ignored, r)
  {
    BlocksRulesAreDirectives(Blocks(comment), ignored);
  }

  /** The rules of consecutive block lists are concatenated: a block's
      rules do not depend on its position. */
  lemma BlocksRulesAppend(a: seq<string>, b: seq<string>, ignored: seq<string>)
    ensures BlocksRules(a + b, ignored) == BlocksRules(a, ignored) + BlocksRules(b, ignored)
  {
    ConcatMapAppend(a, b, BlockRulesOf(ignored));
  }

  lemma HiddenBlockRules(block: string, ignored: seq<string>)
    requires Hidden(block)
    ensures ConcatMap([block], BlockRulesOf(ignored)) == []
  {
    assert [block][..0] == [];
    assert BlockRulesOf(ignored)(block) == [];
  }

  /** A hidden block contributes no rules, so the directives inside it are
      lost, and no text. */
  lemma HiddenBlockAddsNoRules(front: seq<string>, block: string, back: seq<string>, ignored: seq<string>)
    requires Hidden(block)
    ensures BlocksRules(front + [block] + back, ignored) == BlocksRules(front, ignored) + BlocksRules(back, ignored)
  {
    HiddenBlockRules(block, ignored);
    RulelessBlockAddsNoRules(front, block, back, ignored);
  }

  lemma RulelessBlockAddsNoRules(front: seq<string>, block: string, back: seq<string>, ignored: seq<string>)
    requires ConcatMap([block], BlockRulesOf(ignored)) == []
    ensures BlocksRules(front + [block] + back, ignored) == BlocksRules(front, ignored) + BlocksRules(back, ignored)
  {
    var f := BlockRulesOf(ignored);
    ConcatMapAppend(front + [block], back, f);
    ConcatMapAppend(front, [block], f);
    assert ConcatMap(front, f) + [] == ConcatMap(front, f);
  }

  lemma HiddenBlockAddsNoText(blocks: seq<string>, i: nat)
    requires i < |blocks| && Hidden(blocks[i])
    ensures RenderBlocks(blocks[..i + 1]) == RenderBlocks(blocks[..i])
  {
    assert blocks[..i + 1][..i] == blocks[..i];
  }

  /** A block's text is its line texts joined by newlines: excluded and
      directive lines leave empty lines behind. */
  lemma RenderLinesIsJoin(lines: seq<string>)
    ensures RenderLines(lines) == Join(seq(|lines|, k requires 0 <= k < |lines| => RenderLine(lines[k])), "\n")
  {
    JoinMapIsJoin(lines, RenderLine, "\n", seq(|lines|, k requires 0 <= k < |lines| => RenderLine(lines[k])));
  }

  // ---------------------------------------------------------------------
  // generateDescription.

  /** `DescriptionConfiguration`. */
  datatype DescriptionConfig = DescriptionConfig(includeDescription: bool, multiline: bool)

  /** `generateDescription`: the multi-line path is the `parseComments`
      text; the single-line path takes the first block, drops it when it
      starts with `$`, and collapses white space. */
  function GenerateDescription(cfg: DescriptionConfig, ignored: seq<string>, comment: string): (r: string)
    ensures !cfg.includeDescription ==> r == ""
    ensures cfg.includeDescription && cfg.multiline ==> r == CommentText(comment, ignored)
    ensures cfg.includeDescription && !cfg.multiline ==>
      if HasPrefix(Blocks(comment)[0], "$") then r == ""
      else Fields(r) == Fields(Blocks(comment)[0]) && SingleSpaced(r)
  {
    if cfg.multiline then
      (if !cfg.includeDescription then "" else CommentText(comment, ignored))
    else if !cfg.includeDescription then ""
    else
      var t := Blocks(comment)[0];
      if HasPrefix(t, "$") then ""
      else
        var r := Join(Fields(t), " ");
        FieldsOfJoin(Fields(t));
        JoinedWordsShape(Fields(t));
        r
  }
}
