# Bible copywork worksheet generator — a verified model of its core

The system turns a verse reference such as `John 3:16 (ESV)` into a
one-page printable worksheet. A language model supplies the verse
record. The record's fields are:

- the full verse;
- a traceable excerpt, which the prompt asks to keep to 27 words or fewer
  (nothing enforces a bound; the renderer and the repairs use 26);
- the number of handwriting lines;
- a reflection question;
- a coloring idea.

The renderer lays the record out on a letter page in a fixed order:

1. A header with the optional logo and QR code, the title and the
   reference line.
2. A verse box.
3. A tracing box, in dotted print or dashed cursive.
4. A handwriting box of ruled guide rows.
5. A reflection box.
6. A coloring row.
7. A footer with the page border, the `FS-` verse code and the
   attribution.

A single cursor `y` is threaded through the boxes. Each box returns
`y - height - 10`.

This project models, in Dafny:

- **`build_pdf.py`**, the layout engine. The module `Wrap` models
  `capitalize_first_letter`, `tokenize_traceable` and the greedy
  `wrap_text_lines`. The module `BuildPdf` models the `draw_*_box`
  functions and `generate_pdf`. The ReportLab canvas is a class
  `PdfCanvas.Canvas` that records every call in a ghost log `ops`. Every
  drawing method is proved to append exactly the operations a
  specification function describes. Lemmas then count and locate those
  operations.
- **`app.py`**, the module `App`: `normalize_slug`,
  `extract_version_from_text` and the comma-separated verse list of the
  form.
- **`verse_helpers.py`**, the module `VerseHelpers`:
  - its copy of `normalize_slug`;
  - the call-and-retry-once of `request_verse_data`;
  - the in-place repair of `retry_traceable_fix`.

  Both of the last two run over a provider whose replies are scripted in
  advance.
- **`generate_all_worksheets.py`**, the module `GenerateAllWorksheets`:
  `is_too_long`, the traceable-verse repair of `process_file` (done in
  place on a `Records.Dict`), and its cursive default.

The support modules are:

- `PyStr`: the Python `str` built-ins the code uses.
- `Records`: JSON values, `dict.get` and truthiness.
- `PdfCanvas`: canvas operations, fonts and metrics.

### Where the model follows the code rather than the prose description

- `wrap_text_lines` does not guarantee that every line fits.
  - A word wider than the budget stays whole, on a line of its own.
  - When that word is the first word, the loop first closes the still
    empty line, so the result starts with `""`.

  `Wrap.WrapSpec` states exactly this: line 0 is empty exactly when the
  first word alone is too wide, and no other line is empty.
- The coloring rectangle's height is `min(y - 54, 180)` and is not clamped
  at zero. The label column is a paragraph box sized by its own text, so
  the two columns do not share a height.
- The tracing text is the full verse whenever that has at most 26 words,
  whatever `traceableVerse` says. Otherwise it is `traceableVerse`, or the
  full verse when that key is missing.

## Model

| member | source | states |
|---|---|---|
| Wrap.CapitalizeFirstLetter | build_pdf.py:19-20 | the length is kept and only index 0 can change; the text is unchanged exactly when it is empty or does not start with a lower-case letter; otherwise the first letter becomes its upper-case form |
| Wrap.CapitalizeIdempotent | build_pdf.py:19-20 | capitalizing twice is capitalizing once |
| Wrap.TokenizeTraceable | build_pdf.py:22-23 | every token is non-empty and holds no whitespace; there are no tokens exactly when the text is all whitespace; the tokens joined by single spaces are the text with each whitespace run squeezed to one space and the end runs dropped |
| PyStr.WordsEmpty | build_pdf.py:22-23 | `split()` yields nothing exactly when every character is whitespace |
| PyStr.Words | build_pdf.py:23 | every word of `split()` is non-empty and holds no whitespace |
| PyStr.JoinWords | build_pdf.py:23 | `' '.join(s.split())` equals an independent character scan that squeezes each whitespace run of `s` to one space and drops the runs at both ends |
| PyStr.SplitJoinedWords | build_pdf.py:23 | splitting words joined by single spaces at the spaces gives the words back |
| PyStr.WordsUnique | build_pdf.py:23 | `s.split()` is the only list of words whose join is the squeezed text, so its words are the maximal non-whitespace runs of `s`, in order |
| PyStr.WordCountWords | build_pdf.py:129 | counting word starts character by character gives `len(s.split())` |
| Wrap.WrapTextLines | build_pdf.py:25-38 | the lines equal the loop's fold over the words plus the open line; they meet `WrapSpec`: no words give no lines, the non-empty lines joined by single spaces equal the words joined by single spaces, line 0 is empty exactly when the first word alone is too wide and no other line is empty, every other line fits or is a single word, and each line overflows when the first word of the next line is added |
| Wrap.WrapLoop | build_pdf.py:29-35 | after the loop, `lines` and `current_line` are the fold of the loop step over all the words |
| Wrap.WrapWordsCorrect | build_pdf.py:26-37 | for every sequence of words the wrap meets `WrapSpec` (no word lost, split or reordered; fit; greedy) |
| Wrap.WrapTextCorrect | build_pdf.py:22-38 | the lines produced for a text meet `WrapSpec` for the words of that text |
| Wrap.WrapFoldInv | build_pdf.py:29-35 | the loop invariant (line shape, joined text, fit, greedy) holds after every prefix of the words |
| Wrap.StepFirst | build_pdf.py:30-35 | the first word establishes the invariant, including the empty line 0 when it is too wide |
| Wrap.StepClose | build_pdf.py:31-33 | a word that does not fit closes the stripped current line and the invariant is kept |
| Wrap.StepExtend | build_pdf.py:30-35 | a word that fits is joined to the current line with one space and the invariant is kept |
| Wrap.FinishOpenLine | build_pdf.py:36-37 | appending the non-empty open line gives lines that meet `WrapSpec` |
| Wrap.CandidateJoins | build_pdf.py:30 | the test line for a stripped non-empty line and a word is the line, one space and the word, with no whitespace at its ends |
| BuildPdf.DrawRoundedBox | build_pdf.py:40-43 | appends the light-gray fill, the filled rounded rectangle hanging from `y`, and the return to black |
| BuildPdf.DrawParagraphBox | build_pdf.py:45-54 | appends the frame, the title and the capitalized paragraph; returns `y - (paragraph height + 2·padding + 20) - 10` |
| BuildPdf.DrawTracingRows | build_pdf.py:69-77 | the loop appends one row per line, each 40 points below the previous one |
| BuildPdf.DrawTracingLines | build_pdf.py:57-77 | appends the frame of height `40·len(lines) + 40`, the title, the tracing font and the rows |
| BuildPdf.DrawTracingBox | build_pdf.py:56-79 | wraps the capitalized text at `width - 40` in the tracing font, draws it, and returns `y - (40·len(lines) + 40) - 10` |
| BuildPdf.TracingRowsCounts | build_pdf.py:71-77 | the rows draw one string per line and one underline per line when cursive, none otherwise |
| BuildPdf.TracingRowsAt | build_pdf.py:71-77 | row `k` draws `lines[k]` on baseline `ty0 - 40k`; when cursive it is followed by line width 1 and an underline 5 points lower, spanning the box inside the padding |
| BuildPdf.TracingBoxDraws | build_pdf.py:57-77 | the font is `LearningCurve` exactly when cursive and `KGPrimaryDots` otherwise; the box draws `len(lines) + 1` strings and `len(lines)` underlines when cursive, none otherwise |
| BuildPdf.DrawHandwritingRow | build_pdf.py:90-95 | one loop pass appends the solid baseline, the dashed midline 11 points above and the solid topline 22 points above |
| BuildPdf.DrawHandwritingRows | build_pdf.py:88-96 | the loop appends `lines_count` rows, 28 points apart, and none for a count that is not positive |
| BuildPdf.DrawHandwritingBox | build_pdf.py:82-97 | appends the frame, the title and the rows; returns `y - (28·lines_count + 2·padding + 20) - 10` |
| BuildPdf.HandwritingRowsCounts | build_pdf.py:89-96 | the rows hold `6·n` operations, stroke `3·n` lines and draw no text, where `n` is the count, or 0 when the count is negative |
| BuildPdf.HandwritingRowsAt | build_pdf.py:88-96 | row `k` strokes its baseline at `ty0 - 28k`, its dashed midline at +11 and its topline at +22, with the dash pattern set and reset around the midline |
| BuildPdf.HandwritingBoxDraws | build_pdf.py:82-97 | the box draws one string (its title) and strokes exactly three guides per row |
| BuildPdf.TracingText | build_pdf.py:126-130 | the full verse when it has at most 26 words; the stored `traceableVerse` when the full verse is longer and that key is present; the full verse when the key is missing; a traced text of more than 26 words implies a full verse of more than 26 words |
| BuildPdf.HeaderFontSize | build_pdf.py:118-119 | 14 exactly when `verse + " (" + VERSION + ")"` is shorter than 25 characters, and 12 otherwise |
| BuildPdf.VerseCode | build_pdf.py:149 | same length as `verse + "_" + version`; every verse character is upper-cased, with ':' and ' ' turned into '_'; then '_' and the upper-cased version |
| BuildPdf.ColoringBoxHeight | build_pdf.py:137-138 | the coloring height is at most 180 and at most the room above the bottom margin, and equals one of the two |
| BuildPdf.ColoringColumns | build_pdf.py:139-144 | the label column is 151.2 points wide and the two columns with the gap fill the usable width exactly |
| BuildPdf.DrawHeader | build_pdf.py:106-121 | appends the logo and the QR code when their files exist, the 18-point title and the reference line in its font size |
| BuildPdf.DrawColoringRow | build_pdf.py:137-144 | appends the label paragraph box and the rectangle of height `ColoringBoxHeight(y)` |
| BuildPdf.DrawFooter | build_pdf.py:146-155 | appends the border, the `FS-` code, the attribution and the save |
| BuildPdf.DrawUpperBoxes | build_pdf.py:124-132 | draws the verse box and the tracing box, each at the cursor the previous box returned |
| BuildPdf.DrawLowerBoxes | build_pdf.py:134-135 | draws the handwriting box and the reflection box from the cursor the tracing box returned |
| BuildPdf.DrawStack | build_pdf.py:124-135 | the four stacked boxes, with the cursor threaded through them, leaving it where the coloring row goes |
| BuildPdf.GeneratePdf | build_pdf.py:99-155 | the new canvas holds exactly the page: header, stacked boxes, coloring row and footer, with the tracing text chosen by the 26-word rule |
| BuildPdf.CursorDescends | build_pdf.py:103-135 | the verse box starts at 648 and, for non-negative paragraph heights and line count, each later box starts at least 50 points below the previous one |
| PyStr.Strip | app.py:96 | `strip()` leaves no whitespace at either end and never lengthens the text |
| PyStr.StripTrims | app.py:96 | `strip()` removes only whitespace at the two ends: its result is a contiguous piece of the input with nothing but whitespace before and after it |
| PyStr.StripNoEdgeSpace | app.py:96 | stripping text with no whitespace at its ends changes nothing |
| PyStr.Split | app.py:96 | `split(sep)` yields at least one piece and no piece holds the separator |
| PyStr.SplitJoin | app.py:96 | joining the pieces with the separator gives back the input |
| PyStr.SplitAround | app.py:96 | splitting `a + sep + b` is splitting `a`, then splitting `b` |
| PyStr.Replace | app.py:49 | same length; exactly the occurrences of the one character are replaced |
| PyStr.Lower | app.py:49 | same length; each character is mapped by ASCII `lower` |
| PyStr.Upper | build_pdf.py:118 | same length; each character is mapped by ASCII `upper` |
| App.NormalizeSlugChars | app.py:48-49 | the slug has the reference's length and maps each character on its own: lower-cased, then ':', en dash, em dash and space become '_' |
| App.NormalizeSlugClean | app.py:48-49 | a slug holds none of ':', ' ', en dash, em dash, and no upper-case letter |
| App.NormalizeSlugIdempotent | app.py:48-49 | normalizing a slug again changes nothing |
| App.FindTag | app.py:52 | a found length has the tag shape `(` + 2 to 6 word characters + `)` at the end; when none is found, no length fits |
| App.TagUnique | app.py:52 | at most one tag length fits a text |
| App.FindTagFinds | app.py:52 | the search finds the length that fits |
| App.CutTag | app.py:52-55 | the version has no upper-case letter; the reference has no whitespace at its ends; with no tag, the result is the lower-cased fallback and the text |
| App.ExtractVersionFromText | app.py:51-55 | as written: the version is lower-case, the reference is stripped, and without a tag the result is the lower-cased fallback and the stripped text |
| App.ExtractVersion | app.py:51-55 | the same extraction with the reference cut from the stripped text; same three guarantees |
| App.ExtractVersionTagged | app.py:52-54 | for stripped text `before(tag)` with a 2 to 6 character word tag, the result is the lower-cased tag and `before` stripped |
| App.ExtractAgreesWithoutLeadingSpace | app.py:51-55 | without leading whitespace, the code as written agrees with the corrected extraction |
| App.CutFromUnstripped | app.py:54 | on text with no leading whitespace, cutting from the unstripped text is cutting from the stripped one |
| App.ExtractLeadingSpaceCounterexample | app.py:54 | for `" ab(cd)"` the code as written returns the reference `"a"`, while the corrected extraction returns `"ab"` |
| App.Entries | app.py:96 | each kept entry is non-empty and stripped, and there are no more entries than pieces |
| App.SplitVerseList | app.py:96 | every verse of the list is non-empty, stripped and free of commas |
| App.SplitVerseListComma | app.py:96 | the list of `a,b` is the list of `a` followed by the list of `b`, so order is kept |
| App.SplitVerseListSingle | app.py:96 | text without a comma gives its stripped self, or nothing when it is blank |
| App.SplitEntriesExtract | app.py:96-100 | for every entry of the list, the extraction as written equals the corrected one |
| VerseHelpers.NormalizeSlugAgrees | verse_helpers.py:10-18 | the `normalize_slug` of verse_helpers.py equals the one of app.py on every reference |
| VerseHelpers.Provider.Call | verse_helpers.py:45-55 | each call logs its prompt and consumes the next scripted reply; a failed or exhausted call gives `None` |
| VerseHelpers.RequestVerseData | verse_helpers.py:57-64 | returns the first reply when it has content and otherwise the second; makes one call or two, both with the same prompt |
| VerseHelpers.RequestRetriesOnce | verse_helpers.py:57-64 | one or two calls; two exactly when the first reply is empty or failed; the answer is `replies[0]`, `replies[1]` or `None` accordingly |
| VerseHelpers.RequestContent | verse_helpers.py:60-64 | the answer has content exactly when one of the replies read has content |
| VerseHelpers.AskShorterTrace | verse_helpers.py:80-96 | one call with the full verse; the record is `TraceFixed` of the reply |
| VerseHelpers.RetryTraceableFix | verse_helpers.py:74-97 | a missing or short (at most 26 words) traceable verse leaves the record and the provider untouched; otherwise one call is made and its parsed `traceableVerse` is taken; the record is returned on every path |
| VerseHelpers.TraceFixedOnlyTraceable | verse_helpers.py:90-97 | the repair keeps the key set and every value except `traceableVerse`, in particular `fullVerse` |
| VerseHelpers.TraceFixedTakesReply | verse_helpers.py:90-96 | a parsed reply with `traceableVerse` sets it; no content, no object, or no such key leaves the record as it was |
| Records.GetStr | verse_helpers.py:76 | `data.get(key, "")` is the stored string, or `""` when the key is missing |
| GenerateAllWorksheets.IsTooLongWords | generate_all_worksheets.py:10-11 | too long exactly when `split()` yields more than 26 words |
| GenerateAllWorksheets.RepairKeepsShort | generate_all_worksheets.py:29-32 | a missing or short traceable verse leaves the record unchanged |
| GenerateAllWorksheets.RepairLong | generate_all_worksheets.py:32-38 | a long traceable verse becomes the full verse when that one is short; when both are long the record is unchanged |
| GenerateAllWorksheets.RepairKeepsKeys | generate_all_worksheets.py:29-38 | the repair adds and removes no key |
| GenerateAllWorksheets.RepairOnlyTraceable | generate_all_worksheets.py:29-38 | every key other than `traceableVerse` keeps its value |
| GenerateAllWorksheets.RepairShortens | generate_all_worksheets.py:29-36 | with a short full verse, the traceable verse after the repair is absent or short |
| GenerateAllWorksheets.RepairedRepairable | generate_all_worksheets.py:29-38 | a repaired record can be repaired again |
| GenerateAllWorksheets.RepairIdempotent | generate_all_worksheets.py:29-38 | repairing twice is repairing once |
| GenerateAllWorksheets.RepairedTracesShortText | generate_all_worksheets.py:29-41 | after the repair the page traces at most 26 words, unless the full verse is long and no short traceable verse is present |
| GenerateAllWorksheets.CursiveSetting | generate_all_worksheets.py:40 | the stored `cursive` value, or a truthy default when the key is missing |
| GenerateAllWorksheets.RepairTraceable | generate_all_worksheets.py:29-38 | updates the record in place to its repaired form |
| GenerateAllWorksheets.RenderRecord | generate_all_worksheets.py:40-41 | renders the record's page, in cursive unless the record says otherwise |
| GenerateAllWorksheets.ProcessFile | generate_all_worksheets.py:13-42 | an existing PDF means nothing is drawn and the record is untouched; otherwise the record is repaired in place and its page is rendered with the chosen script |

## Left out

- Flask routes, OAuth, sessions, Firestore logging, the zip bundle and the HTML responses of app.py are not modelled. They are web and storage glue.
- The OpenAI client, the prompt texts and the network call are replaced by `VerseHelpers.Provider`. Its replies are scripted in advance and a failed call is `None`. Prompts are recorded as a `Prompt` value, not as text.
- `json.loads`, `json.dump` and the JSON file loading of `process_file` are not modelled. `retry_traceable_fix` takes the parser as a parameter (`ParseObject`), which returns `None` when the reply is not a JSON object.
- `ProcessFile` starts from a record that is already loaded, so the "Failed to load JSON" early return is not modelled.
- The file-system checks are parameters:
  - `os.path.exists` of the two header images is the `Assets` value;
  - `pdf_path.exists()` is the `pdfExists` argument.
- `pdfmetrics.stringWidth` and `Paragraph.wrap` are function-valued parameters (`Metrics`). Only `CursorDescends` assumes paragraph heights are non-negative.
- The rendered PDF itself, font registration and `print` messages are not modelled. The canvas records calls; it does not rasterize.
- Case mapping and `\w` are ASCII only. Python's full Unicode `upper`/`lower` can change length ('ß'), and its Unicode `\w` accepts more letters. Whitespace follows Python's full `str.isspace` set.
- Numbers are `real`. ReportLab's floating point is not modelled, and no rounding occurs in the layout arithmetic.
- BuildPdf.GeneratePdf requires the record to hold the keys and types it reads with `data[...]`. Without them the Python code raises `KeyError` or `AttributeError`, and that crash is not modelled.
- BuildPdf.GeneratePdf requires `handwritingLines` to be an integer. Other values make `draw_handwriting_box` raise `TypeError`: a string at build_pdf.py:84, and a float at `range()` on build_pdf.py:89. That crash is not modelled. A JSON `true` or `false`, which Python accepts as 1 or 0, is also excluded.
- GenerateAllWorksheets.ProcessFile requires the same of the repaired record when the PDF does not exist yet, and it requires string values wherever `process_file` calls `split()`.
- VerseHelpers.RetryTraceableFix requires `traceableVerse` to be a string or missing. Any other value makes `trace.split()` raise `AttributeError` at verse_helpers.py:77, and that crash is not modelled.
- VerseHelpers.RequestVerseData takes the version as a required argument. The default `"nlt"` of `request_verse_data` is not modelled, and no modelled caller relies on it.
- test_chatgpt.py, test_generate_one.py and templates/darkmode.js are drivers and UI, and are not part of this model.

## Findings

| source | as written | input that shows it | evidently intended | confidence | as-written member | corrected member |
|---|---|---|---|---|---|---|
| app.py:52-54 | the tag is searched in `verse_text.strip()`, but the reference is cut from the unstripped `verse_text` at the match offset of the stripped text | `" ab(cd)"` gives reference `"a"` | cut the reference from the stripped text, giving `"ab"`; both callers strip their input first, so the form does not reach this case | not executed | App.ExtractLeadingSpaceCounterexample | App.ExtractVersionTagged |
