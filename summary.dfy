/**
 * The summary blurb shown under the preview (and captured into the PDF):
 * the user's own text, cut to 150 characters, or else a sentence built
 * from the layout and the captions.
 */
module SummaryText {
  import opened Text
  import opened Layouts

  /** How many characters of the user's text the summary keeps. */
  const MaxUserChars := 150

  /** Appended when the user's text was cut. */
  const Ellipsis := "..."

  /** The blurb for the single layout when the user typed nothing. */
  const SingleTemplate :=
    "This document contains a screenshot processed with the BAINT PDF Maker. "
    + "The image has been automatically enhanced with brightness and contrast adjustments "
    + "to improve visual clarity and professional presentation quality."

  /** The two sentences every split-layout blurb ends with. */
  const SplitTail :=
    "Both images have been automatically enhanced with brightness and contrast adjustments. "
    + "This format is optimized for side-by-side comparison and visual storytelling."

  const ComparisonLead := "This comparative analysis presents a "
  const GenericLead := "This document features a "
  const GenericRest := " split comparison of two images. "

  /** The quoted form in which a caption appears in the comparative sentence. */
  function Quoted(c: string): string
  {
    "\"" + c + "\""
  }

  /** The first sentence of a split-layout blurb, from the trimmed captions. */
  function SplitOpening(l: Layout, c1: string, c2: string): string
  {
    if c1 != [] && c2 != [] then
      ComparisonLead + Name(l) + " split view showing " + Quoted(c1) + " versus " + Quoted(c2) + ". "
    else
      GenericLead + Name(l) + GenericRest
  }

  /** The first 150 characters of `t`, followed by "..." when `t` is longer. */
  function Truncate(t: string): (r: string)
    ensures |r| <= MaxUserChars + |Ellipsis|
    ensures |t| <= MaxUserChars ==> r == t
    ensures |t| > MaxUserChars ==> |r| == MaxUserChars + |Ellipsis|
                                   && r[..MaxUserChars] == t[..MaxUserChars]
                                   && r[MaxUserChars..] == Ellipsis
  {
    if |t| > MaxUserChars then t[..MaxUserChars] + Ellipsis else t
  }

  /**
   * `updateSummary`: the blurb for the current text, layout and captions.
   * Typed text gives at most 153 characters; with none, the single layout
   * gets its fixed blurb and a split layout a blurb ending with the two
   * fixed sentences.
   */
  function Summary(userText: string, layout: Layout, caption1: string, caption2: string): (r: string)
    ensures Trim(userText) != [] ==> |r| <= MaxUserChars + |Ellipsis|
    ensures Trim(userText) == [] && layout == Single ==> r == SingleTemplate
    ensures Trim(userText) == [] && layout != Single ==> EndsWith(r, SplitTail)
  {
    var t := Trim(userText);
    if |t| > 0 then Truncate(t)
    else if layout == Single then SingleTemplate
    else SplitOpening(layout, Trim(caption1), Trim(caption2)) + SplitTail
  }

  /**
   * When the trimmed user text is non-empty the blurb is that text: whole
   * if it has at most 150 characters (so exactly 150 get no ellipsis),
   * otherwise its first 150 characters and "..." (so 151 get both). It is
   * never longer than 153 characters and ignores layout and captions.
   */
  lemma UserTextSummary(userText: string, layout: Layout, caption1: string, caption2: string,
                        layout': Layout, caption1': string, caption2': string)
    requires Trim(userText) != []
    ensures var t, r := Trim(userText), Summary(userText, layout, caption1, caption2);
            && |r| <= 153
            && (|t| <= 150 ==> r == t)
            && (|t| > 150 ==> r == t[..150] + "...")
            && r == Summary(userText, layout', caption1', caption2')
  {
  }

  /** With no user text, the single layout always gets the same fixed blurb. */
  lemma SingleTemplateSummary(userText: string, caption1: string, caption2: string)
    requires AllSpace(userText)
    ensures Summary(userText, Single, caption1, caption2) == SingleTemplate
  {
    TrimSpec(userText);
  }

  /**
   * Where the layout name and the two quoted captions sit in the
   * comparative blurb: the name right after the opening words, the first
   * quote after " split view showing ", the second after " versus ".
   */
  lemma ComparativePositions(n: string, q1: string, q2: string)
    ensures var lead, view, versus := ComparisonLead, " split view showing ", " versus ";
            var r := lead + n + view + q1 + versus + q2 + ". " + SplitTail;
            && ContainsAt(r, n, |lead|)
            && ContainsAt(r, q1, |lead + n + view|)
            && ContainsAt(r, q2, |lead + n + view + q1 + versus|)
  {
    var lead, view, versus, stop, tail := ComparisonLead, " split view showing ", " versus ", ". ", SplitTail;
    ContainsAtEnd(lead, n);
    ContainsExtended(lead + n, n, |lead|, view);
    ContainsExtended(lead + n + view, n, |lead|, q1);
    ContainsAtEnd(lead + n + view, q1);
    ContainsExtended(lead + n + view + q1, n, |lead|, versus);
    ContainsExtended(lead + n + view + q1, q1, |lead + n + view|, versus);
    ContainsExtended(lead + n + view + q1 + versus, n, |lead|, q2);
    ContainsExtended(lead + n + view + q1 + versus, q1, |lead + n + view|, q2);
    ContainsAtEnd(lead + n + view + q1 + versus, q2);
    var p := lead + n + view + q1 + versus + q2;
    ContainsExtended(p, n, |lead|, stop);
    ContainsExtended(p, q1, |lead + n + view|, stop);
    ContainsExtended(p, q2, |lead + n + view + q1 + versus|, stop);
    ContainsExtended(p + stop, n, |lead|, tail);
    ContainsExtended(p + stop, q1, |lead + n + view|, tail);
    ContainsExtended(p + stop, q2, |lead + n + view + q1 + versus|, tail);
  }

  /**
   * With no user text, a split layout's blurb names the layout, ends with
   * the two fixed sentences, and, when both trimmed captions are non-empty,
   * quotes caption 1, then " versus ", then caption 2 right after the
   * opening words; otherwise it is the generic split sentence.
   */
  lemma {:induction false} SplitSummary(userText: string, layout: Layout, caption1: string, caption2: string)
    requires AllSpace(userText)
    requires layout != Single
    ensures var r, c1, c2 := Summary(userText, layout, caption1, caption2), Trim(caption1), Trim(caption2);
            && EndsWith(r, SplitTail)
            && Contains(r, Name(layout))
            && (c1 != [] && c2 != [] ==>
                  var i := |ComparisonLead + Name(layout) + " split view showing "|;
                  && ContainsAt(r, Quoted(c1), i)
                  && ContainsAt(r, Quoted(c2), i + |Quoted(c1)| + |" versus "|))
            && (c1 == [] || c2 == [] ==> r == GenericLead + Name(layout) + GenericRest + SplitTail)
  {
    TrimSpec(userText);
    var c1, c2, n := Trim(caption1), Trim(caption2), Name(layout);
    if c1 != [] && c2 != [] {
      var q1, q2 := Quoted(c1), Quoted(c2);
      var r := ComparisonLead + n + " split view showing " + q1 + " versus " + q2 + ". " + SplitTail;
      assert Summary(userText, layout, caption1, caption2) == r;
      ComparativePositions(n, q1, q2);
      assert ContainsAt(r, n, |ComparisonLead|);
    } else {
      var r := GenericLead + n + GenericRest + SplitTail;
      assert Summary(userText, layout, caption1, caption2) == r;
      ContainsAtEnd(GenericLead, n);
      ContainsExtended(GenericLead + n, n, |GenericLead|, GenericRest);
      ContainsExtended(GenericLead + n + GenericRest, n, |GenericLead|, SplitTail);
    }
  }

  /**
   * The blurb depends on its text inputs only through their trimmed
   * values: surrounding white space in the user text or in a caption
   * never changes it.
   */
  lemma {:induction false} SummaryIgnoresSurroundingSpace(userText: string, layout: Layout, caption1: string, caption2: string)
    ensures Summary(userText, layout, caption1, caption2)
         == Summary(Trim(userText), layout, Trim(caption1), Trim(caption2))
  {
    TrimIdempotent(userText);
    TrimIdempotent(caption1);
    TrimIdempotent(caption2);
  }

  /**
   * With no user text, setting the captions of a vertical layout to the
   * before-after pair changes the blurb from the generic sentence to the
   * comparative one.
   */
  lemma PresetChangesSplitSummary()
    ensures Summary("", Vertical, "", "") == GenericLead + "vertical" + GenericRest + SplitTail
    ensures Summary("", Vertical, "BEFORE", "AFTER") != Summary("", Vertical, "", "")
  {
  }
}
