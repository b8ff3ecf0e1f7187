/**
 * `formatContent` of src/components/ui/blog-reader.tsx: the post body is cut into lines at
 * `'\n'`, and each line is classified by its prefix into a heading, a hidden fence line, a line
 * break, a numbered or bulleted list item, or a paragraph.
 */
module BlogReader {
  import opened Strings

  /** What one line renders as; `Hidden` is the `null` of a fence line. */
  datatype Block =
    | Heading2(text: string)
    | Heading3(text: string)
    | Hidden
    | Break
    | NumberedItem(text: string)
    | BulletItem(text: string)
    | Paragraph(text: string)

  function Digit(): char -> bool {
    (c: char) => IsDigit(c)
  }

  function Space(): char -> bool {
    (c: char) => IsSpace(c)
  }

  /** `/^\d+\./` matches: one or more digits, then a dot. */
  predicate IsNumbered(line: string) {
    var d := LeadingRun(line, Digit());
    0 < d < |line| && line[d] == '.'
  }

  /** What the pattern `^\d+\.\s*` strips from a numbered line: the digits, the dot and the whitespace after it. */
  predicate NumberMarker(m: string) {
    exists d | 1 <= d < |m| :: m[d] == '.' && (forall i | 0 <= i < d :: IsDigit(m[i])) && (forall i | d < i < |m| :: IsSpace(m[i]))
  }

  /** What the numbered-line rule keeps: the text after the digits, the dot and the whitespace that follows. */
  function NumberedText(line: string): (text: string)
    requires IsNumbered(line)
    ensures |text| < |line|
    ensures line[|line| - |text|..] == text
    ensures NumberMarker(line[..|line| - |text|])
    ensures text == "" || !IsSpace(text[0])
  {
    var d := LeadingRun(line, Digit());
    var k := d + 1 + LeadingRun(line[d + 1..], Space());
    var m := line[..k];
    assert m[d] == '.' && (forall i | 0 <= i < d :: IsDigit(m[i])) && (forall i | d < i < |m| :: IsSpace(m[i]));
    assert k < |line| ==> line[k] == line[d + 1..][k - d - 1];
    line[k..]
  }

  lemma PrefixAndRest(line: string, prefix: string)
    requires StartsWith(line, prefix)
    ensures line == prefix + line[|prefix|..]
  {
    assert line == line[..|prefix|] + line[|prefix|..];
  }

  /** The classifier applied to one line, test by test in the component's order; each rule strips its own prefix only. */
  function FormatLine(line: string): (b: Block)
    ensures b.Heading2? ==> line == "## " + b.text
    ensures b.Heading3? ==> line == "### " + b.text
    ensures b.NumberedItem? ==>
              && |b.text| < |line|
              && line[|line| - |b.text|..] == b.text
              && NumberMarker(line[..|line| - |b.text|])
              && (b.text == "" || !IsSpace(b.text[0]))
    ensures b.BulletItem? ==> line == "- " + b.text
    ensures b.Paragraph? ==> b.text == line
  {
    if StartsWith(line, "## ") then
      PrefixAndRest(line, "## ");
      Heading2(line[3..])
    else if StartsWith(line, "### ") then
      PrefixAndRest(line, "### ");
      Heading3(line[4..])
    else if StartsWith(line, "```") then Hidden
    else if IsBlank(line) then Break
    else if IsNumbered(line) then NumberedItem(NumberedText(line))
    else if StartsWith(line, "- ") then
      PrefixAndRest(line, "- ");
      BulletItem(line[2..])
    else Paragraph(line)
  }

  lemma StartsWithChars(line: string, prefix: string)
    requires StartsWith(line, prefix)
    ensures forall i | 0 <= i < |prefix| :: line[i] == prefix[i]
  {
    forall i | 0 <= i < |prefix| ensures line[i] == prefix[i] {
      assert line[..|prefix|][i] == line[i];
    }
  }

  /** Each kind of block comes from exactly the lines its own test accepts: the tests never overlap, so their order matters only in name. */
  lemma FormatLineKinds(line: string)
    ensures FormatLine(line).Heading2? <==> StartsWith(line, "## ")
    ensures FormatLine(line).Heading3? <==> StartsWith(line, "### ")
    ensures FormatLine(line).Hidden? <==> StartsWith(line, "```")
    ensures FormatLine(line).Break? <==> IsBlank(line)
    ensures FormatLine(line).NumberedItem? <==> IsNumbered(line)
    ensures FormatLine(line).BulletItem? <==> StartsWith(line, "- ")
  {
    if StartsWith(line, "## ") {
      StartsWithChars(line, "## ");
      assert !StartsWith(line, "### ") by {
        if |line| >= 4 {
          assert line[..4][2] == line[2] == ' ';
        }
      }
      assert !IsSpace(line[0]);
    } else if StartsWith(line, "### ") {
      StartsWithChars(line, "### ");
      assert !IsSpace(line[0]);
    } else if StartsWith(line, "```") {
      StartsWithChars(line, "```");
      assert !IsSpace(line[0]);
    } else if IsBlank(line) {
      if |line| > 0 {
        assert IsSpace(line[0]);
        assert !IsDigit(line[0]);
      }
    } else if IsNumbered(line) {
      assert IsDigit(line[0]);
      if StartsWith(line, "- ") {
        StartsWithChars(line, "- ");
      }
    } else if StartsWith(line, "- ") {
    }
  }

  /** `formatContent(content)`: one block per `'\n'`-separated line, in order. */
  function FormatContent(content: string): (blocks: seq<Block>)
    ensures |blocks| == |Split(content, "\n")|
    ensures forall i | 0 <= i < |blocks| :: blocks[i] == FormatLine(Split(content, "\n")[i])
  {
    var lines := Split(content, "\n");
    seq(|lines|, i requires 0 <= i < |lines| => FormatLine(lines[i]))
  }
}
