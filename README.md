# QR Code Generator page controller, modelled in Dafny

The page's behaviour lives in a single browser script (`script.js`) behind a form that turns typed text, a
VCF contact file or a JSON file into a QR code. Encoding and drawing the code are done by the
external `QRCodeStyling` library. What the script itself does, and what this project models, is:

- the **input-mode controller**: the textarea and its character counter, the VCF and JSON file
  inputs with their info elements (`has-file` marker), and the handlers that keep the three
  sources from being active together (typing, choosing a file, dropping a file on a label);
- the **generation pipeline**: the submit handler choosing a source with the fixed precedence
  VCF file, JSON file, trimmed text; the file read and its JSON check; the call into the renderer;
  and the loading / results / error / badge state of the page around it, including the
  Ctrl/Cmd+Enter shortcut that submits only when the generate button is enabled;
- the unused helper `formatDataPreview`.

Modules, one per component:

- `Wrappers` (`wrappers.dfy`): `Option` and `Result`.
- `JsStrings` (`js_strings.dfy`): the JavaScript string built-ins the script uses. These are `trim`
  with ECMAScript's white space and line terminators, ASCII `toLowerCase`/`toUpperCase`, and `endsWith`.
- `Sources` (`sources.dfy`): file references, the three sources and the submit handler's test for
  each. Also the exclusivity predicate, the precedence choice (`Resolve`) against an unordered
  reference (`Candidates`), and the drop handler's extension test and message.
- `Pipeline` (`pipeline.dfy`): the four user-visible messages and the verdict on a finished read.
- `Preview` (`preview.dfy`): `formatDataPreview`.
- `Page` (`page.dfy`): class `QrForm`. Its fields are the DOM state the handlers change, and each handler is a method.
  `Valid()` is the invariant every handler keeps:
  - at most one of {trimmed text non-empty, VCF file chosen, JSON file chosen} holds;
  - each info element names its input's file and carries `has-file` exactly when there is one;
  - the counter equals the text length;
  - `loading` (the disabled button) holds exactly while a file read is outstanding, and no results are shown then.

  The constructor establishes `Valid()` and every handler requires and ensures it, so every sequence
  of typing, change, drop, submit, read-completion and shortcut events preserves it. Two-state
  predicates `FileChanged`, `Submitted` and `Generated` spell out the whole new state after a file
  change, a submission and a render.
- `Scenarios` (`scenarios.dfy`): client methods that use only the contracts.
  - `WhitespaceThenJsonFile`: whitespace-only text survives a file choice, the shortcut is ignored
    while the read is outstanding, and the JSON content is rendered with the `JSON Data` badge.
  - `TextSubmission`: text without white space at its ends reaches the renderer as typed, with the `Text/URL` badge.
  - `InvalidJsonFile`: a JSON file that does not parse never reaches the renderer.
  - `StaleReadIsRendered`: a read that finishes after the inputs changed is still rendered.

How the outside world enters the model:

- JSON.parse succeeding is the function `validJson`, given to the constructor.
- Whether the renderer throws on a call is the parameter `renderOk`. The field `rendered` records
  the data of every call into the renderer.
- A FileReader's outcome is a `ReadOutcome` value (`Loaded(content)` or `ReadFault`), passed to
  `CompleteRead`. That is the read's `onload`/`onerror`, which runs after the submission returned.
- The `accept` attributes of the two inputs come from the page markup. They are constructor
  parameters. The page markup itself is not part of this model.

Behaviour of the code worth knowing, all as modelled:

- Clearing the text when a file is chosen happens only if the trimmed text is non-empty. Text made
  only of white space therefore survives, while typing any character, even a space, clears both files.
- A submission with no input shows its error but leaves earlier results visible. It does not touch
  `loading`, the recorded format or the renderer.
- A read that finishes after the inputs changed is still rendered: nothing in the code compares it
  with the current selection (`Scenarios.StaleReadIsRendered`).
- The guards `if (!qrCode)` (script.js:202, 336) cannot fire, because `qrCode` is assigned at
  script.js:22, so download and print have no "nothing generated yet" error.
- `handleFileSelection` takes a `fileType` argument that it never uses.

## Model

| member | source | states |
|---|---|---|
| `JsStrings.TrimStart` | script.js:115 | the result is a suffix of the input, everything dropped is white space, and the result does not start with white space |
| `JsStrings.TrimEnd` | script.js:115 | the result is a prefix of the input, everything dropped is white space, and the result does not end with white space |
| `JsStrings.Trim` | script.js:115 | the trimmed text is no longer than the input, has no white space at either end, and is empty exactly when the input is all white space |
| `JsStrings.TrimStartOf` | script.js:133 | leading white space in front of a core that does not start with white space is exactly what is removed |
| `JsStrings.TrimEndOf` | script.js:133 | trailing white space after a core that does not end with white space is exactly what is removed |
| `JsStrings.TrimOf` | script.js:133 | trim is determined by its result: white space, then a core without white space at its ends, then white space, trims to the core |
| `JsStrings.TrimIsMiddle` | script.js:115 | the trimmed text is a slice of the input with nothing but white space before and after it |
| `JsStrings.TrimIdempotent` | script.js:133 | trimming a trimmed string changes nothing |
| `JsStrings.AsciiLowerChar` | script.js:324 | `A`-`Z` become `a`-`z` (code point plus 32), every other character is left alone, the result is never upper-case and keeps the character's upper-case form |
| `JsStrings.AsciiUpperChar` | script.js:328 | `a`-`z` become `A`-`Z` (code point minus 32), every other character is left alone, and the result is never lower-case |
| `JsStrings.AsciiLower` | script.js:324 | the lower-cased name has the same length and is lower-cased character by character |
| `JsStrings.AsciiUpper` | script.js:328 | the upper-cased accept string has the same length and is upper-cased character by character |
| `JsStrings.EndsWith` | script.js:324 | a string ends with a suffix exactly when the suffix is no longer and matches its last characters one by one |
| `JsStrings.LowerOfUpper` | script.js:324 | lower-casing an upper-cased string gives the same as lower-casing the original |
| `Sources.KindLabel` | script.js:129-131 | a VCF file gets the label `VCF Contact`, a JSON file `JSON Data`, and neither is the text label |
| `Sources.Label` | script.js:129-133 | the badge is the text label exactly for typed text, and the file kind's label for a file |
| `Sources.HasText` | script.js:115 | typed input counts exactly when some character of it is not white space |
| `Sources.HasTextIsTrimNonEmpty` | script.js:115 | the model's text test is exactly the submit handler's `trim().length > 0` |
| `Sources.Resolve` | script.js:115-134 | no source exactly when there is no trimmed text and no file; otherwise an active source, the VCF file whenever there is one, else the JSON file, else the trimmed text |
| `Sources.ResolveIsSoleCandidate` | script.js:115-134 | when the sources are exclusive, the resolved source is the only active one, so the precedence decides nothing |
| `Sources.TextPayloadIsTrimmed` | script.js:133 | a text payload is non-empty and unchanged by trimming |
| `Sources.AcceptsDrop` | script.js:324 | a dropped name passes exactly when it is at least as long as the accept string and its last characters, lower-cased, are the accept string's |
| `Sources.DropErrorMessage` | script.js:328 | the message is `Please select a `, the accept string upper-cased character by character, then ` file.` |
| `Sources.DropIgnoresNameCase` | script.js:324 | the drop test gives the same answer for a name and its upper-cased form |
| `Sources.DropAcceptsExtension` | script.js:324 | with a lower-case accept string, any name ending in it is accepted, also when written in upper case |
| `Sources.DropRejectsUpperCaseAccept` | script.js:322-324 | an accept string containing an upper-case letter accepts no name |
| `Pipeline.ReadVerdict` | script.js:144-164 | a finished read reaches the renderer exactly when it loaded and, for a JSON file, parses. The content is passed on unchanged. A read fault gives the read error, and only unparsable JSON gives the JSON error |
| `Pipeline.VcfContentPassesThrough` | script.js:147-158 | a VCF file's content is never validated |
| `Preview.FormatDataPreview` | script.js:428-431 | data that fits is returned as is. Longer data keeps its first `maxLength` characters, followed by `...`, so the result is at most `maxLength + 3` long |
| `Preview.PreviewIdempotent` | script.js:428-431 | previewing a preview changes nothing |
| `Preview.DefaultPreview` | script.js:428-431 | with the default bound of 100, the preview is at most 103 characters, and longer data shows its first 100 followed by `...` |
| `Page.QrForm.constructor` | script.js:2-3 | the page after load: nothing typed or chosen, nothing shown, error text and badge empty, format `png`, the renderer not yet called, and the invariant holds |
| `Page.QrForm.OnTextInput` | script.js:42-50 | the counter becomes the new text's length; a non-empty text clears both inputs and both info elements; an empty one leaves them; the invariant is kept |
| `Page.QrForm.OnFileChange` | script.js:53-67 | the input and its info element show the choice and the invariant is kept. A file clears the other input, its info element and the error, and clears text that is not all white space. No file leaves everything else |
| `Page.QrForm.HandleFileSelection` | script.js:69-86 | the info element names the input's file and is marked exactly when there is one; a file hides the error |
| `Page.QrForm.ClearFileInputs` | script.js:88-95 | both inputs and both info elements are empty |
| `Page.QrForm.ClearTextInput` | script.js:97-102 | text with a non-white-space character is cleared and the counter reset; other text is left as it is |
| `Page.QrForm.ClearOtherFile` | script.js:104-108 | the named input and its info element are emptied; the other input is unchanged |
| `Page.QrForm.OnDrop` | script.js:318-331 | no file changes nothing. A first file passing the extension test has the effect of a change event. Any other shows the wrong-type message and leaves the inputs and text as they were |
| `Page.QrForm.Submit` | script.js:111-135 | no input gives the no-input error without touching loading, format, results or renderer. Otherwise the format is recorded, and then either a file read is started with loading on and results and error hidden, or the trimmed text is rendered with badge `Text/URL` |
| `Page.QrForm.ProcessFile` | script.js:137-142 | loading on, error and results hidden, and a read of the chosen file outstanding |
| `Page.QrForm.CompleteRead` | script.js:144-164 | the read ends with loading off. A read fault or unparsable JSON shows its error, with no results and no renderer call. Otherwise the content is rendered with the file's label |
| `Page.QrForm.GenerateQRCode` | script.js:169-198 | the renderer is called with the data and loading ends. On success results are shown, the error is hidden and the badge is the label. If the renderer throws, results stay hidden, the render error is shown and the badge is kept |
| `Page.QrForm.OnKeyDown` | script.js:258-266 | Ctrl/Cmd+Enter submits exactly when the button is enabled; any other key, or any key while loading, changes nothing |
| `Page.QrForm.ShowLoading` | script.js:217-230 | the button is disabled exactly when loading |
| `Page.QrForm.ShowResults` | script.js:232-235 | the results section is shown |
| `Page.QrForm.HideResults` | script.js:237-239 | the results section is hidden |
| `Page.QrForm.ShowError` | script.js:241-251 | the error section is shown with the message |
| `Page.QrForm.HideError` | script.js:253-255 | the error section is hidden |

## Left out

- The renderer: the `QRCodeStyling` construction, `update`, `append` and `download` (script.js:22-39, 176-184, 211-214) belong to a foreign library. A call is the `rendered` entry plus `renderOk`. The display container's contents are not modelled.
- JSON.parse is the constructor's `validJson` function. The unused utilities `isValidJSON` and `isValidURL` (script.js:440-456) wrap foreign parsers and are not modelled.
- File-size text: `(size/1024).toFixed(1)` (script.js:73) and `formatFileSize` (script.js:458-464) are floating-point formatting. An info element holds the file reference, not its HTML.
- The download handler (script.js:201-215): its file name comes from the clock, and its guard never fires.
- Printing, the print button and its `MutationObserver` (script.js:335-425): HTML generation in a pop-up and DOM observation.
- Presentation without state worth modelling: the 5-second auto-hide of errors, `scrollIntoView`, the spinner and button text, textarea auto-resize, hero scrolling, drag highlighting and the console banners.
- FileReader asynchrony is two steps: the submission starts the read, and `CompleteRead` finishes it. Reads are never cancelled, and at most one is outstanding, because a submission needs the button enabled.
- Page.QrForm.Submit: requires the button to be enabled (`!loading`). The form's submit event is only dispatched through the enabled button or the guarded shortcut. `OnKeyDown` carries that guard.
- Page.QrForm.OnTextInput: the counter counts Dafny characters (Unicode scalar values), while JavaScript's `length` counts UTF-16 code units. The two differ for characters outside the Basic Multilingual Plane.
- Preview.FormatDataPreview: counts and cuts in Dafny characters (Unicode scalar values), while `length` and `substring` count UTF-16 code units, so data with characters outside the Basic Multilingual Plane is cut at a different place. `maxLength` is a `nat`, so the negative values JavaScript accepts (for which the result is `...`) are not modelled. The function is never called.
- JsStrings.AsciiLower: maps only `A`-`Z`, while JavaScript's `toLowerCase` applies full Unicode case mapping. For an accept string that `toLowerCase` leaves unchanged (such as `.vcf` or `.json`), the drop test differs only for names whose non-ASCII letters lower-case into it (the Kelvin sign U+212A becomes `k`). With a non-ASCII capital in the accept string, the model also accepts names that JavaScript rejects.
- JsStrings.AsciiUpper: maps only `a`-`z`, so the wrong-type message is exact for ASCII accept strings only.
- The initial contents of the page are not in the script. These are the empty textarea, the hidden sections, and the empty error text and badge. The constructor assumes them.
