/**
 * The guide dialog of src/components/ui/guide-details.tsx: each section's content is cut into
 * pieces at `"\n\n"`; a piece holding a code fence becomes a code block with every fence
 * removed, any other piece has its `**bold**` spans rewritten to `<strong>` elements; the
 * introduction and conclusion appear only when present and the steps are numbered from 1.
 * The bold rewrite is shared with the guide page (src/pages/GuideDetail.tsx).
 */
module GuideDetails {
  import opened Basics
  import opened Strings

  function Word(): char -> bool {
    (c: char) => IsWordChar(c)
  }

  /** The fence `"```"` is a run of three backticks. */
  lemma FenceIsRun()
    ensures "```" == Repeat('`', 3)
  {
    assert Repeat('`', 3)[0] == '`' && Repeat('`', 3)[1] == '`' && Repeat('`', 3)[2] == '`';
  }

  /** `s.replace(/```\w*\n?/g, '')`: each fence, the word characters after it and at most one newline go. */
  function StripFenceOpeners(s: string): (r: string)
    ensures |r| <= |s|
    decreases |s|
  {
    if |s| < 3 then s
    else if s[..3] == "```" then
      var after := s[3 + LeadingRun(s[3..], Word())..];
      if after != [] && after[0] == '\n' then StripFenceOpeners(after[1..]) else StripFenceOpeners(after)
    else [s[0]] + StripFenceOpeners(s[1..])
  }

  /** Text without a fence passes the opener pass unchanged. */
  lemma {:induction false} StripFenceOpenersKeepsPlainText(s: string)
    requires !Contains(s, "```")
    ensures StripFenceOpeners(s) == s
    decreases |s|
  {
    if |s| >= 3 {
      assert s[..3] != "```" by {
        assert s[0..3] == s[..3];
        assert !OccursAt(s, "```", 0);
      }
      assert !Contains(s[1..], "```") by {
        if Contains(s[1..], "```") {
          ContainsInTail(s, "```");
        }
      }
      StripFenceOpenersKeepsPlainText(s[1..]);
      assert s == [s[0]] + s[1..];
    }
  }

  /** The text of a code block: the opener pass, then `.replace(/```/g, '')`; no fence is left in it. */
  function CodeText(piece: string): (code: string)
    ensures !Contains(code, "```")
    ensures |code| <= |piece|
  {
    var stripped := StripFenceOpeners(piece);
    FenceIsRun();
    ReplaceAllLeavesNoRun(stripped, '`', 3, "");
    ReplaceAll(stripped, "```", "")
  }

  /** A character other than a backtick is copied by the opener pass. */
  lemma StripPlainChar(t: string)
    requires t != [] && t[0] != '`'
    ensures StripFenceOpeners(t) == [t[0]] + StripFenceOpeners(t[1..])
  {
    if |t| >= 3 {
      assert t[..3][0] == t[0];
    } else {
      assert StripFenceOpeners(t[1..]) == t[1..];
      assert t == [t[0]] + t[1..];
    }
  }

  /** Text without a backtick passes through the opener pass unchanged, whatever follows it. */
  lemma {:induction false} StripPlainPrefix(a: string, x: string)
    requires forall i | 0 <= i < |a| :: a[i] != '`'
    ensures StripFenceOpeners(a + x) == a + StripFenceOpeners(x)
    decreases |a|
  {
    var t := a + x;
    if a == [] {
      assert t == x;
    } else {
      assert t[0] == a[0] && t[1..] == a[1..] + x;
      StripPlainChar(t);
      StripPlainPrefix(a[1..], x);
      assert a == [a[0]] + a[1..];
    }
  }

  /** An opener (the fence, a language word and a newline) is removed and nothing after it is touched. */
  lemma StripOpener(w: string, b: string)
    requires forall i | 0 <= i < |w| :: IsWordChar(w[i])
    ensures StripFenceOpeners("```" + w + "\n" + b) == StripFenceOpeners(b)
  {
    var s := "```" + w + "\n" + b;
    var rest := s[3..];
    assert s[..3] == "```";
    assert rest == w + "\n" + b;
    var n := LeadingRun(rest, Word());
    assert rest[|w|] == '\n' && !IsWordChar('\n');
    assert n == |w|;
    assert s[3 + n..] == "\n" + b;
    assert ("\n" + b)[1..] == b;
  }

  /** A closing fence at the end of a piece is removed. */
  lemma StripCloser()
    ensures StripFenceOpeners("```") == ""
  {
    var s := "```";
    assert s[..3] == "```";
    assert LeadingRun(s[3..], Word()) == 0;
  }

  /** Code text without a backtick is shown as it is. */
  lemma CodeTextKeepsPlainText(a: string)
    requires forall i | 0 <= i < |a| :: a[i] != '`'
    ensures CodeText(a) == a
  {
    StripPlainPrefix(a, "");
    assert a + "" == a;
    ReplaceAllPlainPrefix(a, "", "```", "");
  }

  /** The code before an opener is kept as it is, the opener goes, and the rest is treated alike. */
  lemma CodeTextDropsOpener(a: string, w: string, b: string)
    requires forall i | 0 <= i < |a| :: a[i] != '`'
    requires forall i | 0 <= i < |w| :: IsWordChar(w[i])
    ensures CodeText(a + "```" + w + "\n" + b) == a + CodeText(b)
  {
    var fenced := "```" + w + "\n" + b;
    assert a + "```" + w + "\n" + b == a + fenced;
    StripPlainPrefix(a, fenced);
    StripOpener(w, b);
    ReplaceAllPlainPrefix(a, StripFenceOpeners(b), "```", "");
  }

  /** A whole fenced block, opener with a language word and a closing fence, shows exactly its code. */
  lemma CodeTextOfFencedBlock(w: string, code: string)
    requires forall i | 0 <= i < |w| :: IsWordChar(w[i])
    requires forall i | 0 <= i < |code| :: code[i] != '`'
    ensures CodeText("```" + w + "\n" + code + "```") == code
  {
    assert "```" + w + "\n" + code + "```" == "" + "```" + w + "\n" + (code + "```");
    CodeTextDropsOpener("", w, code + "```");
    StripPlainPrefix(code, "```");
    StripCloser();
    assert code + "" == code;
    ReplaceAllPlainPrefix(code, "", "```", "");
  }

  /** A `**` starts at position `i`. */
  predicate BoldMarkAt(s: string, i: int) {
    0 <= i && i + 1 < |s| && s[i] == '*' && s[i + 1] == '*'
  }

  /** Where the lazy `(.*?)` of a bold span opened before `from` ends: the first `**` at or after `from`, unless a line terminator comes first. */
  function CloseAt(s: string, from: nat): (j: Option<nat>)
    requires from <= |s|
    ensures j.Some? ==> from <= j.value && BoldMarkAt(s, j.value)
    ensures j.Some? ==> forall i | from <= i < j.value :: !IsLineTerminator(s[i]) && !BoldMarkAt(s, i)
    ensures j.None? ==> forall i | from <= i && BoldMarkAt(s, i) :: exists m | from <= m < i :: IsLineTerminator(s[m])
    decreases |s| - from
  {
    if from + 2 > |s| then None
    else if BoldMarkAt(s, from) then Some(from)
    else if IsLineTerminator(s[from]) then None
    else CloseAt(s, from + 1)
  }

  /** The global replace of the pattern `\*\*(.*?)\*\*` by `<strong>$1</strong>`, scanning left to right. */
  function Emphasize(s: string): (r: string)
    ensures |r| >= |s|
    ensures |r| == |s| <==> r == s
    decreases |s|
  {
    if BoldMarkAt(s, 0) && CloseAt(s, 2).Some? then
      var j := CloseAt(s, 2).value;
      "<strong>" + s[2..j] + "</strong>" + Emphasize(s[j + 2..])
    else if s == [] then []
    else [s[0]] + Emphasize(s[1..])
  }

  /** Text without an asterisk is left as it is. */
  lemma {:induction false} EmphasizeKeepsStarlessText(s: string)
    requires forall i | 0 <= i < |s| :: s[i] != '*'
    ensures Emphasize(s) == s
    decreases |s|
  {
    if s != [] {
      EmphasizeKeepsStarlessText(s[1..]);
      assert s == [s[0]] + s[1..];
    }
  }

  /** The lazy end is found: the first `**` from `from` on, with no line terminator before it. */
  lemma {:induction false} CloseAtFirst(s: string, from: nat, j: nat)
    requires from <= j && BoldMarkAt(s, j)
    requires forall i | from <= i < j :: !IsLineTerminator(s[i]) && !BoldMarkAt(s, i)
    ensures CloseAt(s, from) == Some(j)
    decreases j - from
  {
    if from < j {
      CloseAtFirst(s, from + 1, j);
    }
  }

  /** A bold span whose inside has no asterisk and no line terminator becomes a `<strong>` element, and the rewrite goes on after it. */
  lemma EmphasizeSpan(x: string, y: string)
    requires forall i | 0 <= i < |x| :: x[i] != '*' && !IsLineTerminator(x[i])
    ensures Emphasize("**" + x + "**" + y) == "<strong>" + x + "</strong>" + Emphasize(y)
  {
    var s := "**" + x + "**" + y;
    var j := 2 + |x|;
    assert s[0] == '*' && s[1] == '*' && s[j] == '*' && s[j + 1] == '*';
    assert forall i | 2 <= i < j :: s[i] == x[i - 2];
    CloseAtFirst(s, 2, j);
    assert s[2..j] == x && s[j + 2..] == y;
  }

  /** The inverse rewrite: each `<strong>` and `</strong>` back to `**`. */
  function Unemphasize(t: string): string
    decreases |t|
  {
    if t == [] then []
    else if t[0] == '<' && StartsWith(t, "<strong>") then "**" + Unemphasize(t[8..])
    else if t[0] == '<' && StartsWith(t, "</strong>") then "**" + Unemphasize(t[9..])
    else [t[0]] + Unemphasize(t[1..])
  }

  lemma {:induction false} UnemphasizeSkipsPlainPrefix(x: string, y: string)
    requires forall i | 0 <= i < |x| :: x[i] != '<'
    ensures Unemphasize(x + y) == x + Unemphasize(y)
    decreases |x|
  {
    if x == [] {
      assert x + y == y;
    } else {
      var t := x + y;
      assert t[0] == x[0] && t[1..] == x[1..] + y;
      UnemphasizeSkipsPlainPrefix(x[1..], y);
    }
  }

  lemma UnemphasizeOpen(x: string)
    ensures Unemphasize("<strong>" + x) == "**" + Unemphasize(x)
  {
    var t := "<strong>" + x;
    assert t[..8] == "<strong>" && t[8..] == x;
  }

  lemma UnemphasizeClose(x: string)
    ensures Unemphasize("</strong>" + x) == "**" + Unemphasize(x)
  {
    var t := "</strong>" + x;
    assert t[..8][1] == '/';
    assert t[..9] == "</strong>" && t[9..] == x;
  }

  /** The inverse over one bold span. */
  lemma UnemphasizeSpan(mid: string, e: string)
    requires forall i | 0 <= i < |mid| :: mid[i] != '<'
    ensures Unemphasize("<strong>" + mid + "</strong>" + e) == "**" + mid + "**" + Unemphasize(e)
  {
    var tail := "</strong>" + e;
    assert "<strong>" + mid + "</strong>" + e == "<strong>" + (mid + tail);
    UnemphasizeOpen(mid + tail);
    UnemphasizeSkipsPlainPrefix(mid, tail);
    UnemphasizeClose(e);
  }

  /** A text opening with a closed bold span is the span's marks around its inside, then the rest. */
  lemma SpanParts(s: string, j: nat)
    requires BoldMarkAt(s, 0) && 2 <= j && BoldMarkAt(s, j)
    ensures s == "**" + s[2..j] + "**" + s[j + 2..]
  {
    assert s[..2] == "**" && s[j..j + 2] == "**";
    assert s == s[..2] + s[2..j] + s[j..j + 2] + s[j + 2..];
  }

  /** The round trip over a bold span, given the round trip over what follows it. */
  lemma RoundTripSpan(s: string, j: nat)
    requires forall i | 0 <= i < |s| :: s[i] != '<'
    requires BoldMarkAt(s, 0) && CloseAt(s, 2) == Some(j)
    requires Unemphasize(Emphasize(s[j + 2..])) == s[j + 2..]
    ensures Unemphasize(Emphasize(s)) == s
  {
    var mid, rest := s[2..j], s[j + 2..];
    assert Emphasize(s) == "<strong>" + mid + "</strong>" + Emphasize(rest);
    assert forall i | 0 <= i < |mid| :: mid[i] == s[2 + i];
    UnemphasizeSpan(mid, Emphasize(rest));
    SpanParts(s, j);
  }

  /** The round trip over one plain character, given the round trip over the rest. */
  lemma RoundTripChar(s: string)
    requires s != [] && s[0] != '<'
    requires !(BoldMarkAt(s, 0) && CloseAt(s, 2).Some?)
    requires Unemphasize(Emphasize(s[1..])) == s[1..]
    ensures Unemphasize(Emphasize(s)) == s
  {
    var t := [s[0]] + Emphasize(s[1..]);
    assert Emphasize(s) == t;
    assert t[0] == s[0] && t[1..] == Emphasize(s[1..]);
    assert s == [s[0]] + s[1..];
  }

  /** On text without `<`, undoing the bold rewrite gives back the original: nothing but the asterisk pairs changed. */
  lemma {:induction false} EmphasizeRoundTrip(s: string)
    requires forall i | 0 <= i < |s| :: s[i] != '<'
    ensures Unemphasize(Emphasize(s)) == s
    decreases |s|
  {
    if BoldMarkAt(s, 0) && CloseAt(s, 2).Some? {
      var j := CloseAt(s, 2).value;
      EmphasizeRoundTrip(s[j + 2..]);
      RoundTripSpan(s, j);
    } else if s != [] {
      EmphasizeRoundTrip(s[1..]);
      RoundTripChar(s);
    }
  }

  /** One `"\n\n"`-separated piece of a section. */
  datatype Paragraph = CodeBlock(code: string) | Prose(html: string)

  function RenderPiece(piece: string): (p: Paragraph)
    ensures p.CodeBlock? <==> Contains(piece, "```")
    ensures p.CodeBlock? ==> !Contains(p.code, "```")
    ensures p.CodeBlock? ==> p.code == CodeText(piece)
    ensures p.Prose? ==> p.html == Emphasize(piece)
  {
    if Contains(piece, "```") then CodeBlock(CodeText(piece)) else Prose(Emphasize(piece))
  }

  /** `section.content.split('\n\n').map(...)`: one paragraph per piece, in order. */
  function SectionParagraphs(content: string): (ps: seq<Paragraph>)
    ensures |ps| == |Split(content, "\n\n")|
    ensures forall i | 0 <= i < |ps| :: ps[i] == RenderPiece(Split(content, "\n\n")[i])
  {
    var pieces := Split(content, "\n\n");
    seq(|pieces|, i requires 0 <= i < |pieces| => RenderPiece(pieces[i]))
  }

  datatype Section = Section(title: string, content: string)

  /** `detailedContent`; an empty introduction or conclusion stands for a missing (falsy) one. */
  datatype Detailed = Detailed(introduction: string, sections: Option<seq<Section>>, conclusion: string)

  datatype Guide = Guide(id: string, title: string, detailed: Option<Detailed>, steps: Option<seq<string>>)

  datatype SectionView = SectionView(title: string, paragraphs: seq<Paragraph>)
  datatype StepView = StepView(number: nat, text: string)

  datatype GuideView = GuideView(
    introduction: Option<string>, sections: seq<SectionView>, conclusion: Option<string>, steps: seq<StepView>)

  /** `steps?.map((step, index) => ... index + 1 ...)`. */
  function NumberedSteps(steps: seq<string>): (vs: seq<StepView>)
    ensures |vs| == |steps|
    ensures forall i | 0 <= i < |vs| :: vs[i].number == i + 1 && vs[i].text == steps[i]
  {
    seq(|steps|, i requires 0 <= i < |steps| => StepView(i + 1, steps[i]))
  }

  function SectionViews(sections: seq<Section>): (vs: seq<SectionView>)
    ensures |vs| == |sections|
    ensures forall i | 0 <= i < |vs| :: vs[i] == SectionView(sections[i].title, SectionParagraphs(sections[i].content))
  {
    seq(|sections|, i requires 0 <= i < |sections| => SectionView(sections[i].title, SectionParagraphs(sections[i].content)))
  }

  /** `GuideDetails({guide})`: nothing for a missing guide, else the dialog's content. */
  function GuideDetailsView(guide: Option<Guide>): (v: Option<GuideView>)
    ensures v.None? <==> guide.None?
    ensures v.Some? ==> (v.value.introduction.Some? <==> guide.value.detailed.Some? && guide.value.detailed.value.introduction != "")
    ensures v.Some? && v.value.introduction.Some? ==> v.value.introduction.value == guide.value.detailed.value.introduction
    ensures v.Some? ==> (v.value.conclusion.Some? <==> guide.value.detailed.Some? && guide.value.detailed.value.conclusion != "")
    ensures v.Some? && v.value.conclusion.Some? ==> v.value.conclusion.value == guide.value.detailed.value.conclusion
    ensures v.Some? && (guide.value.detailed.None? || guide.value.detailed.value.sections.None?) ==> v.value.sections == []
    ensures v.Some? && guide.value.detailed.Some? && guide.value.detailed.value.sections.Some? ==>
              v.value.sections == SectionViews(guide.value.detailed.value.sections.value)
    ensures v.Some? ==> |v.value.steps| == |guide.value.steps.GetOr([])|
    ensures v.Some? ==> forall i | 0 <= i < |v.value.steps| :: v.value.steps[i] == StepView(i + 1, guide.value.steps.GetOr([])[i])
  {
    match guide
    case None => None
    case Some(g) =>
      var intro := if g.detailed.Some? && g.detailed.value.introduction != "" then Some(g.detailed.value.introduction) else None;
      var sections := if g.detailed.Some? && g.detailed.value.sections.Some? then SectionViews(g.detailed.value.sections.value) else [];
      var conclusion := if g.detailed.Some? && g.detailed.value.conclusion != "" then Some(g.detailed.value.conclusion) else None;
      Some(GuideView(intro, sections, conclusion, NumberedSteps(g.steps.GetOr([]))))
  }
}
