/**
 * The application's page state and the event handlers that change it:
 * choosing a layout, an image finishing its upload, the preview gate,
 * editing the free text and the captions, applying a preset, and the two
 * resets. DOM nodes are replaced by the values they hold.
 */
module AppState {
  import opened Wrappers
  import opened Text
  import opened Layouts
  import Presets
  import opened SummaryText
  import ExportName

  /** An image the browser has finished decoding; only its identity matters here. */
  datatype Image = Image(id: nat)

  /** The caption input an edit goes to. */
  datatype Panel = Panel1 | Panel2

  class App {
    /** `currentLayout`. */
    var layout: Layout
    /** `uploadedImages.image1` and `uploadedImages.image2`; `None` is `null`. */
    var image1: Option<Image>
    var image2: Option<Image>
    /** The values of the free-text and the two caption inputs, as typed. */
    var userText: string
    var caption1: string
    var caption2: string
    /** Whether the labels, input, preview and action sections are displayed. */
    var previewVisible: bool
    /** The text of the two panel captions, the summary and the date stamp in the preview. */
    var shownCaption1: string
    var shownCaption2: string
    var shownSummary: string
    var shownDate: string

    /**
     * The preview sections are visible exactly while the images the layout
     * requires are present.
     */
    ghost predicate Valid()
      reads this
    {
      previewVisible <==> Ready(layout, image1.Some?, image2.Some?)
    }

    /**
     * A visible preview shows the trimmed captions and the summary of the
     * current inputs.
     */
    ghost predicate Displayed()
      reads this
    {
      previewVisible ==>
        && shownCaption1 == Trim(caption1)
        && shownCaption2 == Trim(caption2)
        && shownSummary == Summary(userText, layout, caption1, caption2)
    }

    /** The state of a freshly loaded page. */
    ghost predicate IsInitial()
      reads this
    {
      && layout == Single
      && image1 == None && image2 == None
      && userText == "" && caption1 == "" && caption2 == ""
      && !previewVisible
    }

    constructor ()
      ensures IsInitial() && Valid() && Displayed()
      ensures shownCaption1 == "" && shownCaption2 == "" && shownSummary == "" && shownDate == ""
    {
      layout := Single;
      image1, image2 := None, None;
      userText, caption1, caption2 := "", "", "";
      previewVisible := false;
      shownCaption1, shownCaption2, shownSummary, shownDate := "", "", "", "";
    }

    /** `resetImages`: empties both slots and hides the preview sections. */
    method ResetImages()
      modifies this`image1, this`image2, this`previewVisible
      ensures image1 == None && image2 == None && !previewVisible
      ensures Valid() && Displayed()
    {
      image1 := None;
      image2 := None;
      previewVisible := false;
    }

    /** A layout button's click handler: sets the layout, then `resetImages`. */
    method SelectLayout(mode: Layout)
      modifies this`layout, this`image1, this`image2, this`previewVisible
      ensures layout == mode
      ensures image1 == None && image2 == None && !previewVisible
      ensures Valid() && Displayed()
    {
      layout := mode;
      ResetImages();
    }

    /** `updateCaptions`: the panels show the trimmed caption inputs. */
    method UpdateCaptions()
      modifies this`shownCaption1, this`shownCaption2
      ensures shownCaption1 == Trim(caption1) && shownCaption2 == Trim(caption2)
    {
      shownCaption1 := Trim(caption1);
      shownCaption2 := Trim(caption2);
    }

    /** `updateSummary`: the summary element shows the summary of the current inputs. */
    method UpdateSummary()
      modifies this`shownSummary
      ensures shownSummary == Summary(userText, layout, caption1, caption2)
    {
      shownSummary := Summary(userText, layout, caption1, caption2);
    }

    /**
     * `showPreview`: reveals the preview sections, stamps the time the
     * caller read from the clock, and refreshes captions and summary.
     */
    method ShowPreview(now: string)
      requires Ready(layout, image1.Some?, image2.Some?)
      modifies this`previewVisible, this`shownDate, this`shownCaption1, this`shownCaption2, this`shownSummary
      ensures previewVisible && shownDate == now
      ensures Valid() && Displayed()
    {
      previewVisible := true;
      shownDate := now;
      UpdateCaptions();
      UpdateSummary();
    }

    /**
     * `checkAndShowPreview`: shows the preview when the layout's required
     * images are present and otherwise changes nothing (it never hides).
     */
    method CheckAndShowPreview(now: string)
      modifies this`previewVisible, this`shownDate, this`shownCaption1, this`shownCaption2, this`shownSummary
      ensures Ready(layout, image1.Some?, image2.Some?) ==> previewVisible && shownDate == now
      ensures !Ready(layout, image1.Some?, image2.Some?) ==> unchanged(this)
      ensures old(Valid()) ==> Valid()
      ensures Ready(layout, image1.Some?, image2.Some?) || old(Displayed()) ==> Displayed()
    {
      if layout == Single && image1.Some? {
        ShowPreview(now);
      } else if (layout == Vertical || layout == Horizontal) && image1.Some? && image2.Some? {
        ShowPreview(now);
      }
    }

    /**
     * An image finished decoding for upload slot `imageNumber` (1 fills
     * slot 1, anything else slot 2); then the preview gate runs with the
     * time the caller read from the clock.
     */
    method CompleteUpload(imageNumber: int, img: Image, now: string)
      requires Valid()
      modifies this`image1, this`image2
      modifies this`previewVisible, this`shownDate, this`shownCaption1, this`shownCaption2, this`shownSummary
      ensures imageNumber == 1 ==> image1 == Some(img) && image2 == old(image2)
      ensures imageNumber != 1 ==> image2 == Some(img) && image1 == old(image1)
      ensures previewVisible <==> old(previewVisible) || Ready(layout, image1.Some?, image2.Some?)
      ensures Ready(layout, image1.Some?, image2.Some?) ==> shownDate == now
      ensures Valid() && Displayed()
    {
      if imageNumber == 1 {
        image1 := Some(img);
      } else {
        image2 := Some(img);
      }
      CheckAndShowPreview(now);
    }

    /** The free-text input's handler: stores the text and runs `updateSummary`. */
    method EditUserText(text: string)
      modifies this`userText, this`shownSummary
      ensures userText == text
      ensures shownSummary == Summary(text, layout, caption1, caption2)
      ensures old(Valid()) ==> Valid()
      ensures old(Displayed()) ==> Displayed()
    {
      userText := text;
      UpdateSummary();
    }

    /** Stores a caption input's new value. */
    method SetCaption(panel: Panel, text: string)
      modifies this`caption1, this`caption2
      ensures panel == Panel1 ==> caption1 == text && caption2 == old(caption2)
      ensures panel == Panel2 ==> caption2 == text && caption1 == old(caption1)
    {
      if panel == Panel1 {
        caption1 := text;
      } else {
        caption2 := text;
      }
    }

    /**
     * A caption input's handler as written: stores the text and runs
     * `updateCaptions` only, so the summary keeps describing the old
     * captions.
     */
    method EditCaptionAsWritten(panel: Panel, text: string)
      modifies this`caption1, this`caption2, this`shownCaption1, this`shownCaption2
      ensures panel == Panel1 ==> caption1 == text && caption2 == old(caption2)
      ensures panel == Panel2 ==> caption2 == text && caption1 == old(caption1)
      ensures shownCaption1 == Trim(caption1) && shownCaption2 == Trim(caption2)
      ensures old(Valid()) ==> Valid()
    {
      SetCaption(panel, text);
      UpdateCaptions();
    }

    /**
     * A caption input's handler, corrected: stores the text and refreshes
     * both the panel captions and the summary, so a visible preview stays
     * in step with its inputs.
     */
    method EditCaption(panel: Panel, text: string)
      modifies this`caption1, this`caption2, this`shownCaption1, this`shownCaption2, this`shownSummary
      ensures panel == Panel1 ==> caption1 == text && caption2 == old(caption2)
      ensures panel == Panel2 ==> caption2 == text && caption1 == old(caption1)
      ensures shownCaption1 == Trim(caption1) && shownCaption2 == Trim(caption2)
      ensures shownSummary == Summary(userText, layout, caption1, caption2)
      ensures old(Valid()) ==> Valid()
      ensures Displayed()
    {
      SetCaption(panel, text);
      UpdateCaptions();
      UpdateSummary();
    }

    /**
     * `applyPreset` as written: a name the table yields (including names
     * inherited from `Object.prototype`) overwrites both captions and runs
     * `updateCaptions`, leaving the summary as it was; any other name
     * changes nothing.
     */
    method ApplyPresetAsWritten(name: string)
      modifies this`caption1, this`caption2, this`shownCaption1, this`shownCaption2
      ensures Presets.LookupAsWritten(name).Some? ==>
                && (caption1, caption2) == Presets.LookupAsWritten(name).value
                && shownCaption1 == Trim(caption1) && shownCaption2 == Trim(caption2)
                && shownSummary == old(shownSummary)
      ensures Presets.LookupAsWritten(name).None? ==> unchanged(this)
      ensures old(Valid()) ==> Valid()
    {
      match Presets.LookupAsWritten(name)
      case Some(pair) =>
        caption1, caption2 := pair.0, pair.1;
        UpdateCaptions();
      case None =>
    }

    /**
     * `applyPreset`, corrected: a preset name overwrites both captions at
     * once and refreshes captions and summary; every other name changes
     * nothing at all.
     */
    method ApplyPreset(name: string)
      modifies this`caption1, this`caption2, this`shownCaption1, this`shownCaption2, this`shownSummary
      ensures Presets.Lookup(name).Some? ==>
                && (caption1, caption2) == Presets.Captions(Presets.Lookup(name).value)
                && shownCaption1 == Trim(caption1) && shownCaption2 == Trim(caption2)
                && shownSummary == Summary(userText, layout, caption1, caption2)
      ensures Presets.Lookup(name).None? ==> unchanged(this)
      ensures old(Valid()) ==> Valid()
      ensures old(Displayed()) || Presets.Lookup(name).Some? ==> Displayed()
    {
      match Presets.Lookup(name)
      case Some(p) =>
        caption1, caption2 := Presets.Captions(p).0, Presets.Captions(p).1;
        UpdateCaptions();
        UpdateSummary();
      case None =>
    }

    /**
     * `resetApp`: `resetImages`, then empty text inputs and the single
     * layout, which is the state of a freshly loaded page. The preview's
     * texts are left as they were; they are hidden.
     */
    method ResetApp()
      modifies this`layout, this`image1, this`image2, this`previewVisible
      modifies this`userText, this`caption1, this`caption2
      ensures IsInitial() && Valid() && Displayed()
    {
      ResetImages();
      userText := "";
      caption1 := "";
      caption2 := "";
      layout := Single;
    }

    /** The name `exportToPDF` saves under, for the instant the caller read from the clock. */
    method ExportFileName(iso: string) returns (name: string)
      ensures name == ExportName.FileName(layout, iso)
      ensures ExportName.ParseFileName(name) == Some((layout, ExportName.TimestampSegment(iso)))
    {
      name := ExportName.FileName(layout, iso);
      ExportName.ParseFileNameRoundTrip(layout, iso);
    }
  }

  /**
   * A split preview whose captions are then set by a preset keeps showing
   * the summary of the empty captions: the code as written exports a
   * summary that no longer matches the captions on the page.
   */
  method StaleSummaryAfterPreset() returns (app: App)
    ensures app.previewVisible
    ensures (app.caption1, app.caption2) == ("BEFORE", "AFTER")
    ensures app.shownSummary != Summary(app.userText, app.layout, app.caption1, app.caption2)
  {
    app := new App();
    app.SelectLayout(Vertical);
    app.CompleteUpload(1, Image(1), "Monday, May 6, 2024 at 09:30 AM");
    app.CompleteUpload(2, Image(2), "Monday, May 6, 2024 at 09:30 AM");
    assert app.shownSummary == Summary("", Vertical, "", "");
    app.ApplyPresetAsWritten("before-after");
    PresetChangesSplitSummary();
  }

  /**
   * The same steps with the corrected preset handler end with a summary
   * of the new captions.
   */
  method SummaryFollowsPreset() returns (app: App)
    ensures app.previewVisible
    ensures (app.caption1, app.caption2) == ("BEFORE", "AFTER")
    ensures app.shownSummary == Summary(app.userText, app.layout, app.caption1, app.caption2)
  {
    app := new App();
    app.SelectLayout(Vertical);
    app.CompleteUpload(1, Image(1), "Monday, May 6, 2024 at 09:30 AM");
    app.CompleteUpload(2, Image(2), "Monday, May 6, 2024 at 09:30 AM");
    app.ApplyPreset("before-after");
  }

  /**
   * Uploading image 1 under the single layout shows the preview; switching
   * to a split layout hides it again until both images are back.
   */
  method SingleThenSplit() returns (app: App)
    ensures app.layout == Horizontal && app.previewVisible && app.Valid()
    ensures app.image1 == Some(Image(3)) && app.image2 == Some(Image(2))
  {
    app := new App();
    app.CompleteUpload(1, Image(1), "t0");
    assert app.previewVisible;
    app.SelectLayout(Horizontal);
    assert !app.previewVisible;
    app.CompleteUpload(2, Image(2), "t1");
    assert !app.previewVisible;
    app.CompleteUpload(1, Image(3), "t2");
  }
}
