/**
 * The name under which the PDF is saved:
 * `BAINT_Daily_<Layout>_<YYYY-MM-DDTHH-MM-SS>.pdf`, built from the layout
 * and an ISO-8601 instant given by the caller (the clock is not modelled).
 * Also the page geometry of the export.
 */
module ExportName {
  import opened Wrappers
  import opened Text
  import opened Layouts

  const Prefix := "BAINT_Daily_"
  const Extension := ".pdf"

  /** Characters of the ISO instant kept: `YYYY-MM-DDTHH:MM:SS`. */
  const StampLength := 19

  /** Width of the A4 page in millimetres. */
  const PageWidth: real := 210.0

  /** Upper-cases an ASCII letter and leaves every other character alone. */
  function ToUpper(c: char): (u: char)
    ensures 'a' <= c <= 'z' ==> 'A' <= u <= 'Z' && u as int == c as int - 32
    ensures !('a' <= c <= 'z') ==> u == c
  {
    if 'a' <= c <= 'z' then (c as int - 32) as char else c
  }

  /** `s.charAt(0).toUpperCase() + s.slice(1)`. */
  function Capitalize(s: string): (r: string)
    ensures |r| == |s|
    ensures s != [] ==> r[0] == ToUpper(s[0])
    ensures forall i :: 1 <= i < |s| ==> r[i] == s[i]
  {
    if s == [] then [] else [ToUpper(s[0])] + s[1..]
  }

  /** The layout segment of the file name. */
  function LayoutSegment(l: Layout): string
  {
    Capitalize(Name(l))
  }

  /** Capitalising a layout name upper-cases its first letter and keeps the rest. */
  lemma LayoutSegmentValues(l: Layout)
    ensures LayoutSegment(l) == match l
                                case Single => "Single"
                                case Vertical => "Vertical"
                                case Horizontal => "Horizontal"
    ensures |LayoutSegment(l)| == |Name(l)| && LayoutSegment(l)[1..] == Name(l)[1..]
    ensures LayoutSegment(l)[0] == ToUpper(Name(l)[0])
  {
  }

  /** `s.replace(/:/g, '-')`: every colon becomes a hyphen, nothing else changes. */
  function ReplaceColons(s: string): (r: string)
    ensures |r| == |s|
    ensures forall i :: 0 <= i < |s| ==> r[i] == if s[i] == ':' then '-' else s[i]
  {
    if s == [] then [] else [if s[0] == ':' then '-' else s[0]] + ReplaceColons(s[1..])
  }

  /**
   * `iso.slice(0, 19).replace(/:/g, '-')`: the first 19 characters (all of
   * a shorter string) with colons made file-system safe.
   */
  function TimestampSegment(iso: string): (seg: string)
    ensures |seg| == if |iso| < StampLength then |iso| else StampLength
    ensures forall i :: 0 <= i < |seg| ==> seg[i] == if iso[i] == ':' then '-' else iso[i]
    ensures ':' !in seg
  {
    ReplaceColons(if |iso| < StampLength then iso else iso[..StampLength])
  }

  /**
   * The file name the PDF is saved under: the product prefix, the
   * capitalised layout, an underscore, the stamp and the extension.
   */
  function FileName(l: Layout, iso: string): (name: string)
    ensures StartsWith(name, Prefix)
    ensures EndsWith(name, Extension)
  {
    Prefix + (LayoutSegment(l) + "_" + TimestampSegment(iso)) + Extension
  }

  /**
   * The capitalised layout name and its underscore follow the prefix
   * directly, and the stamp follows them.
   */
  lemma FileNameSegments(l: Layout, iso: string)
    ensures ContainsAt(FileName(l, iso), LayoutSegment(l) + "_", |Prefix|)
    ensures ContainsAt(FileName(l, iso), TimestampSegment(iso), |Prefix| + |LayoutSegment(l)| + 1)
  {
    ContainsMiddleParts(Prefix, LayoutSegment(l) + "_", TimestampSegment(iso), Extension);
  }

  /**
   * No file name contains a colon: the prefix, the layout segment and the
   * extension have none, and the stamp has had its colons replaced.
   */
  lemma FileNameHasNoColon(l: Layout, iso: string)
    ensures ':' !in FileName(l, iso)
  {
    var layoutPart, stamp := LayoutSegment(l) + "_", TimestampSegment(iso);
    LayoutSegmentValues(l);
    assert ':' !in Prefix && ':' !in Extension;
    assert ':' !in layoutPart && ':' !in stamp;
    assert FileName(l, iso) == Prefix + (layoutPart + stamp) + Extension;
  }

  /**
   * For an instant as `Date.prototype.toISOString` writes it
   * (`YYYY-MM-DDTHH:MM:SS.sssZ`, colons only after the hour and the
   * minute), the stamp is the date, `T`, and the time to the second with
   * the two colons turned into hyphens.
   */
  lemma {:induction false} IsoStamp(iso: string)
    requires |iso| >= StampLength
    requires iso[13] == ':' && iso[16] == ':'
    requires forall i :: 0 <= i < StampLength && i != 13 && i != 16 ==> iso[i] != ':'
    ensures TimestampSegment(iso) == iso[..13] + "-" + iso[14..16] + "-" + iso[17..19]
  {
  }

  /** A concrete instant gives the stamp written out. */
  lemma IsoStampExample()
    ensures TimestampSegment("2024-05-01T09:30:15.250Z") == "2024-05-01T09-30-15"
  {
    var iso := "2024-05-01T09:30:15.250Z";
    IsoStamp(iso);
    assert iso[..13] == "2024-05-01T09" && iso[14..16] == "30" && iso[17..19] == "15";
  }

  /**
   * Reads the layout and the stamp back from a file name; the partner of
   * `FileName`.
   */
  function ParseFileName(name: string): Option<(Layout, string)>
  {
    if !StartsWith(name, Prefix) || !EndsWith(name[|Prefix|..], Extension) then None
    else ParseMiddle(name[|Prefix|..|name| - |Extension|])
  }

  /** Reads `<Layout>_<stamp>`, the part between prefix and extension. */
  function ParseMiddle(middle: string): Option<(Layout, string)>
  {
    if StartsWith(middle, LayoutSegment(Single) + "_") then Some((Single, middle[|LayoutSegment(Single)| + 1..]))
    else if StartsWith(middle, LayoutSegment(Vertical) + "_") then Some((Vertical, middle[|LayoutSegment(Vertical)| + 1..]))
    else if StartsWith(middle, LayoutSegment(Horizontal) + "_") then Some((Horizontal, middle[|LayoutSegment(Horizontal)| + 1..]))
    else None
  }

  /** The prefix and the extension are stripped off exactly. */
  lemma StripAffixes(middle: string)
    ensures ParseFileName(Prefix + middle + Extension) == ParseMiddle(middle)
  {
  }

  /** The layout segment is recognised by its initial, and the rest is the stamp. */
  lemma {:induction false} ParseMiddleRoundTrip(l: Layout, seg: string)
    ensures ParseMiddle(LayoutSegment(l) + "_" + seg) == Some((l, seg))
  {
    var lay := LayoutSegment(l) + "_";
    var middle := lay + seg;
    assert middle[..|lay|] == lay;
    assert middle[|lay|..] == seg;
    LayoutSegmentValues(l);
    assert middle[0] == lay[0];
    FirstLetterDecides(middle, Single);
    FirstLetterDecides(middle, Vertical);
  }

  /** Every file name gives back the layout and stamp it was built from. */
  lemma {:induction false} ParseFileNameRoundTrip(l: Layout, iso: string)
    ensures ParseFileName(FileName(l, iso)) == Some((l, TimestampSegment(iso)))
  {
    var middle := LayoutSegment(l) + "_" + TimestampSegment(iso);
    assert FileName(l, iso) == Prefix + middle + Extension;
    StripAffixes(middle);
    ParseMiddleRoundTrip(l, TimestampSegment(iso));
  }

  /** A name starting with one layout's segment starts with that layout's initial. */
  lemma FirstLetterDecides(middle: string, other: Layout)
    ensures StartsWith(middle, LayoutSegment(other) + "_") ==>
              middle[0] == match other
                           case Single => 'S'
                           case Vertical => 'V'
                           case Horizontal => 'H'
  {
  }

  /** Different layouts or stamps never share a file name. */
  lemma FileNameInjective(l: Layout, iso: string, l': Layout, iso': string)
    requires FileName(l, iso) == FileName(l', iso')
    ensures l == l' && TimestampSegment(iso) == TimestampSegment(iso')
  {
    ParseFileNameRoundTrip(l, iso);
    ParseFileNameRoundTrip(l', iso');
  }

  /**
   * The page height of the export: the captured image scaled to the page
   * width, so the page keeps the capture's aspect ratio.
   */
  function PageHeight(canvasWidth: real, canvasHeight: real): (h: real)
    requires canvasWidth > 0.0
    ensures h / PageWidth == canvasHeight / canvasWidth
  {
    (canvasHeight * PageWidth) / canvasWidth
  }
}
