# BAINT PDF Maker: page state, captions, summary and export name

The BAINT PDF Maker is a browser page. A user picks a layout: `single`,
`vertical` or `horizontal`. They upload one image (single) or two images
(split layouts), caption them, and type an optional free text. The page
then shows a newspaper-style preview with a date stamp and a summary blurb,
and exports that preview as an A4 PDF.

This project models the logic of `script.js` that sits behind the page:

- the page state (`currentLayout`, the two image slots, the input values
  and what the preview shows) as the class `AppState.App`, with one method
  per event handler;
- the preview gate, which decides when the preview may be shown (`Layouts.Ready`);
- the caption presets (`Presets`);
- the summary blurb (`SummaryText.Summary`);
- the PDF file name `BAINT_Daily_<Layout>_<YYYY-MM-DDTHH-MM-SS>.pdf` and the
  page height (`ExportName`).

JavaScript's `trim` is modelled exactly over the ECMAScript white-space and
line-terminator code points (`Text`). The clock, image decoding, canvas
drawing, `html2canvas` and `jsPDF` are outside the model. A time is passed in
as a string wherever the page reads the clock.

The class invariant `App.Valid` says the preview sections are visible
exactly while the images the layout requires are present. Every handler
preserves it. `App.Displayed` says a visible preview shows the trimmed
captions and the summary of the current inputs. The corrected caption and
preset handlers preserve it; the handlers as written do not (see Findings).

Two places in `script.js` appear to do something other than what the
surrounding code intends. The model keeps the behaviour as written beside a
corrected version:
- `updateSummary` builds a sentence that quotes the captions (script.js:308).
  Yet it runs only from `showPreview` (script.js:253) and from the free-text
  listener (script.js:151). The caption listeners (script.js:141-142) and
  `applyPreset` (script.js:271) run only `updateCaptions`. So captions changed
  after the preview appears never reach the summary.
- `if (presets[preset])` (script.js:268) is meant as a test that `preset` is
  one of the four table keys. On an object literal it also passes for names
  inherited from `Object.prototype`.

Both are listed under Findings.

## Model

| member | source | states |
|---|---|---|
| `Text.Trim` | script.js:277-278 | `trim` never lengthens a string and its result neither starts nor ends with white space; `Text.TrimSpec` pins it down as the maximal strip |
| `Text.TrimStartSpec` | script.js:286 | the leading part `trim` removes is all white space and the rest starts with a non-space |
| `Text.TrimEndSpec` | script.js:286 | the trailing part `trim` removes is all white space and the rest ends with a non-space |
| `Text.TrimSpec` | script.js:286 | `trim` gives a slice of the input with white space only outside it, no white space at either end, and is empty exactly when the input is all white space |
| `Text.TrimOfTrimmed` | script.js:277-278 | a string without white space at its ends is left unchanged by `trim` |
| `Text.TrimIdempotent` | script.js:277-278 | trimming twice is the same as trimming once |
| `Layouts.RequiredPanels` | script.js:204-209 | single requires panel 1 only; vertical and horizontal require panels 1 and 2 |
| `Layouts.Ready` | script.js:202-212 | the gate's test holds exactly when every panel the layout requires holds an image |
| `Presets.Key` | script.js:261-266 | no preset button name is a property name inherited from `Object.prototype`, so for the real buttons the two lookups agree; `Presets.KeyRoundTrip` shows the names are distinct |
| `Presets.Captions` | script.js:261-266 | each preset writes two non-empty captions with no white space at either end, so the panels show them exactly as written |
| `Presets.Lookup` | script.js:261-268 | a name finds a preset exactly when it is that preset's button name; otherwise nothing is found |
| `Presets.KeyRoundTrip` | script.js:261-266 | the four preset names are distinct and each looks up its own preset |
| `Presets.LookupAsWritten` | script.js:260-272 | `presets[preset]` yields the preset's pair for a preset name, ("undefined", "undefined") for a name inherited from `Object.prototype`, and nothing otherwise |
| `Presets.InheritedNameIsNotANoOp` | script.js:268-271 | "toString" is no preset, yet the lookup as written returns a caption pair for it |
| `SummaryText.Truncate` | script.js:293-296 | at most 153 characters; text of up to 150 characters is kept whole; longer text becomes its first 150 characters followed by "..." |
| `SummaryText.Summary` | script.js:285-318 | typed text gives a blurb of at most 153 characters; with none, the single layout gets its fixed blurb and a split layout a blurb ending with the two fixed sentences |
| `SummaryText.UserTextSummary` | script.js:291-296 | with non-empty trimmed user text the summary is that text, cut to 150 characters plus "..." only beyond 150; it is at most 153 long and ignores layout and captions |
| `SummaryText.SingleTemplateSummary` | script.js:299-302 | with no user text the single layout always gets the same fixed blurb, whatever the captions |
| `SummaryText.ComparativePositions` | script.js:308 | in the comparative sentence the layout name follows the opening words, the first quoted caption follows "split view showing" and the second follows " versus " |
| `SummaryText.SplitSummary` | script.js:303-314 | with no user text a split blurb names the layout and ends with the two fixed sentences; when both trimmed captions are non-empty it quotes caption 1 right after "split view showing" and caption 2 right after " versus ", in that order; otherwise it is the generic split sentence |
| `SummaryText.SummaryIgnoresSurroundingSpace` | script.js:286-305 | the summary depends on the text inputs only through their trimmed values |
| `SummaryText.PresetChangesSplitSummary` | script.js:307-311 | for a vertical layout with no user text, the before-after captions produce a different blurb from empty captions |
| `ExportName.ToUpper` | script.js:350 | a lower-case ASCII letter becomes its capital; every other character is unchanged |
| `ExportName.Capitalize` | script.js:350 | same length; the first character is upper-cased and every later character is kept |
| `ExportName.LayoutSegmentValues` | script.js:350 | the layout segment is the layout name with its first letter capitalised: Single, Vertical, Horizontal |
| `ExportName.ReplaceColons` | script.js:349 | same length; every colon becomes a hyphen and every other character is kept |
| `ExportName.TimestampSegment` | script.js:349 | the stamp has the first 19 characters of the ISO string (all of a shorter one), each colon replaced by a hyphen, and contains no colon |
| `ExportName.FileName` | script.js:351 | the file name starts with `BAINT_Daily_` and ends with `.pdf` |
| `ExportName.FileNameSegments` | script.js:349-351 | the capitalised layout and `_` follow the prefix directly, and the stamp follows them |
| `ExportName.FileNameHasNoColon` | script.js:349-351 | no file name contains a colon |
| `ExportName.IsoStamp` | script.js:349 | for an instant written as `toISOString` writes it, the stamp is the date, `T`, and hours, minutes and seconds joined by hyphens |
| `ExportName.IsoStampExample` | script.js:349 | "2024-05-01T09:30:15.250Z" gives the stamp "2024-05-01T09-30-15" |
| `ExportName.StripAffixes` | script.js:351 | parsing a file name removes exactly the prefix and the extension |
| `ExportName.ParseMiddleRoundTrip` | script.js:350-351 | the layout segment is recognised from the name, and what follows its underscore is the stamp |
| `ExportName.FirstLetterDecides` | script.js:350 | a name that starts with a layout's segment starts with that layout's initial letter |
| `ExportName.ParseFileNameRoundTrip` | script.js:349-351 | parsing any file name gives back the layout and stamp it was built from |
| `ExportName.FileNameInjective` | script.js:349-351 | two exports share a file name only if the layout and the stamp are both the same |
| `ExportName.PageHeight` | script.js:337-338 | the page height over the 210 mm width equals the captured height over the captured width |
| `AppState.App.constructor` | script.js:2-6 | a fresh page has the single layout, no images, empty inputs and a hidden preview |
| `AppState.App.ResetImages` | script.js:366-394 | both slots become empty and the preview sections are hidden; nothing else changes |
| `AppState.App.SelectLayout` | script.js:44-70 | the layout becomes the chosen one, both slots become empty and the preview is hidden; text and captions are kept |
| `AppState.App.UpdateCaptions` | script.js:276-282 | the panels show the trimmed caption inputs; nothing else changes |
| `AppState.App.UpdateSummary` | script.js:285-318 | the summary element shows the summary of the current text, layout and captions; nothing else changes |
| `AppState.App.ShowPreview` | script.js:215-257 | the preview becomes visible with the given date stamp, the trimmed captions and the current summary |
| `AppState.App.CheckAndShowPreview` | script.js:202-212 | shows the preview when the layout's images are present, and otherwise changes nothing |
| `AppState.App.CompleteUpload` | script.js:161-174 | slot 1 (or slot 2 for any other number) receives the image and the other slot is kept; the preview is visible exactly when it was visible already or the layout's images are now present; the invariant is kept |
| `AppState.App.EditUserText` | script.js:150-151 | stores the free text and refreshes the summary; a visible preview stays in step |
| `AppState.App.SetCaption` | script.js:141-142 | stores the new value in the edited caption input only |
| `AppState.App.EditCaptionAsWritten` | script.js:141-142 | stores the caption and refreshes the panel captions; the summary is left as it was |
| `AppState.App.EditCaption` | script.js:141-142 | corrected handler: stores the caption; afterwards the panels show the trimmed captions and the summary element shows the summary of the new inputs, whether or not the preview is visible, so the preview is always in step |
| `AppState.App.ApplyPresetAsWritten` | script.js:260-273 | a name the table yields overwrites both captions and refreshes the panel captions but not the summary; any other name changes nothing |
| `AppState.App.ApplyPreset` | script.js:260-273 | corrected handler: a preset name sets both captions to its pair, and afterwards the panels show them trimmed and the summary element shows the summary of the new inputs, so the preview is in step; any other name changes nothing |
| `AppState.App.ResetApp` | script.js:397-423 | from any state, yields the single layout, empty slots, empty text and captions, and a hidden preview |
| `AppState.App.ExportFileName` | script.js:349-351 | the export name is the file name of the current layout and instant, and parses back to both |
| `AppState.StaleSummaryAfterPreset` | script.js:269-271 | in a split preview, a preset applied as written leaves a summary that does not match the new captions |
| `AppState.SummaryFollowsPreset` | script.js:269-271 | the same steps with the corrected handler end with the summary of the new captions |
| `AppState.SingleThenSplit` | script.js:161-212 | one image under single shows the preview; switching to horizontal hides it until both images are present again |

## Findings

| source | as written | input that shows it | evidently intended | confidence | as-written member | corrected member |
|---|---|---|---|---|---|---|
| script.js:141-142, 271 | the caption inputs' handlers (141-142) and `applyPreset` (271) call `updateCaptions` only, never `updateSummary` | vertical layout, no free text, both images uploaded, then the before-after preset: the summary still reads "This document features a vertical split comparison of two images. …" and the PDF is captured with it | the summary quotes the new captions as soon as they change | medium (not executed) | `AppState.StaleSummaryAfterPreset`, `AppState.App.ApplyPresetAsWritten`, `AppState.App.EditCaptionAsWritten` | `AppState.App.ApplyPreset`, `AppState.App.EditCaption`, `AppState.SummaryFollowsPreset` |
| script.js:268 | the test `presets[preset]` also passes for names inherited from `Object.prototype` | `applyPreset("toString")` sets both captions to "undefined" | a name that is not a preset changes nothing | low: not executed; the four preset buttons never pass such a name | `Presets.InheritedNameIsNotANoOp` | `Presets.Lookup` |

## Left out

- DOM styling and class toggling, drag-over colours, scrolling, clearing the file inputs and canvases, and the grid class and panel-2 display inside `showPreview`. These are presentation only.
- `canvases` and `contexts` (script.js:7-14) and `processAndDisplayImage`: canvas drawing with the fixed filter `brightness(110%) contrast(105%) saturate(105%)` is raster work done by the browser.
- `FileReader` and `Image` decoding: an upload is modelled from the moment decoding completes (`App.CompleteUpload`). Completions may arrive in any order with other events. This includes a slot-2 image arriving after the layout was switched back to single, which the source also allows.
- The drop handlers' test that the first file's type starts with `image/` (script.js:91, 121) is not modelled. A rejected file never reaches `CompleteUpload`.
- `html2canvas`, `toDataURL`, `jsPDF` and `pdf.save` are foreign libraries. So are the loading overlay and the `try`/`catch` alert around them. Only the page height and the file name are modelled.
- The clock: `new Date()`, `toLocaleDateString` and `toISOString` are replaced by string parameters (`now`, `iso`).
- The single-image variant of the page is not part of this model.
- `SummaryText.Truncate`: counts Unicode scalar values, while `substring` and `length` count UTF-16 code units. Text containing characters outside the Basic Multilingual Plane is cut at a different point; the model also never splits a surrogate pair.
- `ExportName.ToUpper`: upper-cases ASCII letters only. JavaScript's `toUpperCase` covers all of Unicode, but it is only ever applied to the three ASCII layout names.
- `ExportName.PageHeight`: computed over exact reals instead of IEEE doubles. It requires a positive canvas width; a zero width (Infinity or NaN in JavaScript) is not modelled.
- `AppState.App.CheckAndShowPreview`: the date stamp is stored as given; its locale formatting is not modelled.
