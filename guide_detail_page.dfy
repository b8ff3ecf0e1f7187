/**
 * The guide page of src/pages/GuideDetail.tsx: the guide named by the route is looked up among
 * the loaded `beginnerGuides`; each section's content becomes HTML by turning every blank-line
 * break into a paragraph boundary and then rewriting the bold spans; sections are numbered and
 * separated.
 */
module GuideDetailPage {
  import opened Basics
  import opened Strings
  import Seqs
  import opened GuideDetails
  import ContentCache

  /** `beginnerGuides.find(g => g.id === guideId)`. */
  function FindGuide(guides: seq<Guide>, id: string): (g: Option<Guide>)
    ensures g.None? <==> forall i | 0 <= i < |guides| :: guides[i].id != id
    ensures g.Some? ==> exists k | 0 <= k < |guides| :: guides[k] == g.value && g.value.id == id && forall j | 0 <= j < k :: guides[j].id != id
  {
    match Seqs.FindIndex(guides, (g: Guide) => g.id == id)
    case None => None
    case Some(k) => Some(guides[k])
  }

  const ParagraphBreak: string := "</p><p class=\"mb-4\">"

  lemma BlankLineIsRun()
    ensures "\n\n" == Repeat('\n', 2)
  {
    assert Repeat('\n', 2)[0] == '\n' && Repeat('\n', 2)[1] == '\n';
  }

  /** `content.replace(/\n\n/g, '</p><p class="mb-4">')`: the pieces between blank-line breaks joined by the paragraph boundary; no break is left. */
  function Paragraphed(content: string): (r: string)
    ensures r == Join(Split(content, "\n\n"), ParagraphBreak)
    ensures !Contains(r, "\n\n")
  {
    ReplaceAllIsJoinOfSplit(content, "\n\n", ParagraphBreak);
    BlankLineIsRun();
    ReplaceAllLeavesNoRun(content, '\n', 2, ParagraphBreak);
    ReplaceAll(content, "\n\n", ParagraphBreak)
  }

  /** The section's inner HTML: the paragraph rewrite first, the bold rewrite second; text without asterisks only gets the first. */
  function SectionHtml(content: string): (html: string)
    ensures |html| >= |Paragraphed(content)|
    ensures (forall i | 0 <= i < |content| :: content[i] != '*') ==> html == Paragraphed(content)
  {
    StarlessParagraphs(content);
    Emphasize(Paragraphed(content))
  }

  lemma {:induction false} ReplaceAllKeepsCharOut(s: string, pat: string, rep: string, c: char)
    requires pat != []
    requires forall i | 0 <= i < |s| :: s[i] != c
    requires forall i | 0 <= i < |rep| :: rep[i] != c
    ensures forall i | 0 <= i < |ReplaceAll(s, pat, rep)| :: ReplaceAll(s, pat, rep)[i] != c
    decreases |s|
  {
    if |s| >= |pat| {
      if s[..|pat|] == pat {
        ReplaceAllKeepsCharOut(s[|pat|..], pat, rep, c);
      } else {
        ReplaceAllKeepsCharOut(s[1..], pat, rep, c);
      }
    }
  }

  /** Section text without asterisks has none after the paragraph rewrite, so the bold rewrite leaves it alone. */
  lemma StarlessParagraphs(content: string)
    ensures (forall i | 0 <= i < |content| :: content[i] != '*') ==> Emphasize(Paragraphed(content)) == Paragraphed(content)
  {
    if forall i | 0 <= i < |content| :: content[i] != '*' {
      assert forall i | 0 <= i < |ParagraphBreak| :: ParagraphBreak[i] != '*';
      ReplaceAllKeepsCharOut(content, "\n\n", ParagraphBreak, '*');
      EmphasizeKeepsStarlessText(Paragraphed(content));
    }
  }

  /** One entry of the sections list: its number, title, HTML, and whether a separator follows it. */
  datatype SectionEntry = SectionEntry(number: nat, title: string, html: string, separatorAfter: bool)

  function SectionEntries(sections: seq<Section>): (es: seq<SectionEntry>)
    ensures |es| == |sections|
    ensures forall i | 0 <= i < |es| ::
              es[i].number == i + 1 && es[i].title == sections[i].title && es[i].html == SectionHtml(sections[i].content)
    ensures forall i | 0 <= i < |es| :: es[i].separatorAfter <==> i + 1 < |sections|
  {
    seq(|sections|, i requires 0 <= i < |sections| =>
      SectionEntry(i + 1, sections[i].title, SectionHtml(sections[i].content), i < |sections| - 1))
  }

  /** The page's state; `guide` is `None` while `guideData` is `null` or `undefined`. */
  class Page {
    var guide: Option<Guide>
    var loading: bool

    constructor()
      ensures guide.None? && loading
    {
      guide := None;
      loading := true;
    }

    /**
     * The loading effect for route parameter `guideId`. `Ok(None)` is a payload without a
     * `beginnerGuides` array: the lookup throws and the page catches it.
     */
    method LoadGuide(fetched: Result<Option<seq<Guide>>, ContentCache.Error>, guideId: string)
      modifies this
      ensures !loading
      ensures guide == if fetched.Ok? && fetched.value.Some? then FindGuide(fetched.value.value, guideId) else old(guide)
    {
      if fetched.Ok? && fetched.value.Some? {
        guide := FindGuide(fetched.value.value, guideId);
      }
      loading := false;
    }

    /** The "Guide not found" view. */
    predicate ShowsNotFound()
      reads this
    {
      !loading && guide.None?
    }
  }
}
