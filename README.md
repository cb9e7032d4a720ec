# Contact QR page: vCard, preview sizing, QR options and PDF exports

The page `QRCode-main/contact-qr-generator.tsx` shows a company contact as a QR
code and offers two downloads. This Dafny project models the deterministic
logic under its markup:

- **vCard serialiser** (`generateVCard`, module `VCard`). It builds a vCard 3.0
  text (RFC 2426) from one fixed template. Values go in unescaped, lines are
  joined by a bare line feed, and the result is trimmed. The JavaScript `trim`
  it applies is in module `Strings`, together with `split`/`join` on one
  character, which the page does not call: they are the model's vocabulary for
  stating the card's lines and components.
- **Preview sizing** (`getQRSize`, module `View`). The on-screen QR size shrinks
  at two viewport-width breakpoints.
- **QR renderer options** (`generateQRCodeDataURL`, module `QrRender`). Fixed
  defaults are shallowly overridden by the caller's options, and the merged
  options go to the QR encoding library. The library is a function parameter
  that returns a data URL or an error.
- **PDF exports** (`downloadContactPDF` and `downloadFeedbackPDF`, modules `Pdf`
  and `Export`):
  - The jsPDF document is a class `Pdf.Document`. It holds the current drawing
    state (fill colour, text colour, font, line width) and an append-only log of
    drawing operations. Each logged operation records the state it was drawn with.
  - Each export is a method that composes one page on a fresh document. It takes
    what the fallible calls returned as inputs: loading the logo, encoding the QR
    image, and saving.
  - It returns the document, the alerts raised and the downloaded file name.
  - Its `ensures` ties the log to a layout function (`ContactLayout`,
    `FeedbackLayout`). The lemmas prove the layout's promises about that function:
    - the order of operations
    - exactly one save, issued last
    - which images appear
    - centring of the QR slot and of the caption underline
    - degrading instead of aborting when the logo or the QR code fails

Page coordinates are exact `real`s in millimetres. Text width is the library's
measurement, passed in as a function.

Without a website the card keeps a blank URL line before `END:VCARD`, because
`.trim()` only touches the two ends; the card therefore has 11 lines when no
field holds a line feed (`VCard.CardLines`, `VCard.UrlLineIffWebsite`). Field
values are inserted unescaped, so a line feed inside a field adds lines.

An error from `save` is caught by the outer `catch`, which raises an alert; no
file is produced. The outcome of `save` is a parameter of each export
(`Export.DownloadContactPdf`, `Export.DownloadFeedbackPdf`).

## Model

| member | source | states |
|---|---|---|
| Strings.TrimStart | QRCode-main/contact-qr-generator.tsx:69 | The leading half of `.trim()`: the result is a suffix of the input; everything dropped is ECMAScript whitespace; the result does not start with whitespace |
| Strings.TrimEnd | QRCode-main/contact-qr-generator.tsx:69 | The trailing half of `.trim()`: the result is a prefix of the input; everything dropped is whitespace; the result does not end with whitespace |
| Strings.TrimKeepsText | QRCode-main/contact-qr-generator.tsx:69 | `.trim()` returns text unchanged when its first and last characters are not whitespace, whatever lies between them |
| Strings.Trim | QRCode-main/contact-qr-generator.tsx:69 | `.trim()`: the result is no longer than the text, is empty or has non-whitespace at both ends, and is empty when the text is all whitespace; `Strings.TrimKeepsText` is its identity case |
| Strings.TrimKeepsMiddle | QRCode-main/contact-qr-generator.tsx:69 | `.trim()` only touches the two ends: the result is the slice of the text after its leading whitespace, and every character outside that slice is whitespace |
| Strings.Split | QRCode-main/contact-qr-generator.tsx:59-69 | Splitting on a character always gives at least one piece, and no piece contains the separator |
| Strings.SplitAround | QRCode-main/contact-qr-generator.tsx:59-69 | A separator between two texts splits them apart: the pieces of the first, then the pieces of the second |
| Strings.SplitWhole | QRCode-main/contact-qr-generator.tsx:59-69 | Text without the separator is exactly one piece |
| Strings.JoinSplit | QRCode-main/contact-qr-generator.tsx:59-69 | Joining the pieces of a split on the same separator gives the text back |
| Strings.SplitJoin | QRCode-main/contact-qr-generator.tsx:59-69 | Splitting a join of separator-free pieces gives the pieces back, so the template's lines can be read back from the card |
| VCard.HasWebsite | QRCode-main/contact-qr-generator.tsx:68 | No contract: JavaScript truthiness of the optional website, present and non-empty; `VCard.UrlLineIffWebsite` ties it to the URL line |
| VCard.Template | QRCode-main/contact-qr-generator.tsx:59-68 | No contract: the template literal, its eleven lines joined by bare line feeds; `VCard.TemplateEnds` and `VCard.CardLines` state its shape |
| VCard.GenerateVCard | QRCode-main/contact-qr-generator.tsx:58-70 | For every contact, the card is at least 20 characters long, begins with `BEGIN:VCARD` and ends with `END:VCARD` |
| VCard.TemplateEnds | QRCode-main/contact-qr-generator.tsx:59-69 | The untrimmed template begins with `BEGIN:VCARD` and ends with `END:VCARD`, whatever the field values |
| VCard.TrimIsIdentity | QRCode-main/contact-qr-generator.tsx:69 | `.trim()` removes nothing: the card is exactly the template's lines joined by line feeds |
| VCard.CardLines | QRCode-main/contact-qr-generator.tsx:59-69 | When no field holds a line feed, the card splits on `\n` into exactly 11 lines in this order: BEGIN, VERSION:3.0, N, FN, TITLE, ORG, TEL, EMAIL, ADR, the URL slot, END |
| VCard.UrlLineIffWebsite | QRCode-main/contact-qr-generator.tsx:68-69 | When no field holds a line feed, a line starting with `URL:` appears if and only if the website is present and non-empty, and it carries the website; otherwise line 10 is empty and END follows it |
| VCard.PageCardHasBlankUrlSlot | QRCode-main/contact-qr-generator.tsx:44-54 | The page's own contact has an empty website, so the tenth template line, just before `END:VCARD`, is empty (the card keeps it by `VCard.TrimIsIdentity`) |
| VCard.NamePieces | QRCode-main/contact-qr-generator.tsx:61 | The N value's components are the family name's pieces, then the given name's pieces, then three empty components; an unescaped `;` in a name adds a component |
| VCard.NameComponents | QRCode-main/contact-qr-generator.tsx:61 | With no `;` in the names, N has exactly five components: family, given and three empty ones (RFC 2426 section 3.1.2) |
| VCard.AddressPieces | QRCode-main/contact-qr-generator.tsx:67 | The ADR value's components are two empty ones, the address's pieces, then four empty ones |
| VCard.AddressComponents | QRCode-main/contact-qr-generator.tsx:67 | With no `;` in the address, ADR has exactly seven components, with the whole address in the street slot (RFC 2426 section 3.2.1) |
| VCard.AddressSemicolonShifts | QRCode-main/contact-qr-generator.tsx:67 | An address `street;locality` is not escaped: ADR then has eight components, and the text after the `;` lands in the locality slot |
| VCard.EmptyPieces | QRCode-main/contact-qr-generator.tsx:61-67 | The template's runs of `;` split into empty components: `;;` into three and `;;;` into four |
| View.QrSizeBands | QRCode-main/contact-qr-generator.tsx:38-42 | The size is reduced by 50 if and only if the width is below 640, by 20 if and only if it is in [640, 1024), and by 0 if and only if it is at least 1024 |
| View.QrSize | QRCode-main/contact-qr-generator.tsx:38-42 | `getQRSize`: base − 50 below width 640, base − 20 below 1024, base otherwise; its contract: the size always lies in [base − 50, base] (the bands are `View.QrSizeBands`) |
| View.QrSizeMonotone | QRCode-main/contact-qr-generator.tsx:38-42 | A wider viewport never gives a smaller QR preview |
| View.InitialSizeIsFull | QRCode-main/contact-qr-generator.tsx:23 | At the assumed initial width of 1024, previews are full size |
| QrRender.Merge | QRCode-main/contact-qr-generator.tsx:74-85 | The effective options have exactly the defaults' keys plus the caller's keys; a caller key replaces the default wholesale; every other default keeps its value |
| QrRender.GenerateQrCodeDataUrl | QRCode-main/contact-qr-generator.tsx:72-93 | The encoder gets the unchanged text with the merged options; the renderer fails exactly when the encoder fails, with the same error message (re-thrown), and otherwise returns the encoder's data URL unchanged |
| QrRender.MergeNothing | QRCode-main/contact-qr-generator.tsx:72-85 | Called with no options, the renderer uses exactly the defaults |
| QrRender.MergeIsShallow | QRCode-main/contact-qr-generator.tsx:79-84 | A `color` option without `light` replaces the default colour pair outright, leaving no `light` entry; it is not merged key by key |
| QrRender.MergeRestatedDefault | QRCode-main/contact-qr-generator.tsx:74-85 | A caller option equal to its default changes nothing about the effective options |
| Export.ContactQrOptionsEffective | QRCode-main/contact-qr-generator.tsx:195-201 | The contact export's effective options are the defaults with the width raised to 500 (its colour pair restates the default) |
| Export.FeedbackQrOptionsEffective | QRCode-main/contact-qr-generator.tsx:281-287 | The feedback export's effective options are the defaults with the width raised to 400 |
| Pdf.Document.constructor | QRCode-main/contact-qr-generator.tsx:164-166 | A new page has an empty operation log, the given page size and the library's initial drawing state |
| Pdf.Document.SetFillColor | QRCode-main/contact-qr-generator.tsx:169 | Sets the fill colour and changes nothing else |
| Pdf.Document.SetTextColor | QRCode-main/contact-qr-generator.tsx:212 | Sets the text colour and changes nothing else |
| Pdf.Document.SetFontSize | QRCode-main/contact-qr-generator.tsx:213 | Changes the font size and keeps the face and style |
| Pdf.Document.SetFont | QRCode-main/contact-qr-generator.tsx:214 | Changes the face and style and keeps the size |
| Pdf.Document.SetLineWidth | QRCode-main/contact-qr-generator.tsx:225 | Sets the line width and changes nothing else |
| Pdf.Document.DrawRect | QRCode-main/contact-qr-generator.tsx:170 | Appends exactly one rectangle, filled with the current fill colour |
| Pdf.Document.AddImage | QRCode-main/contact-qr-generator.tsx:184 | Appends exactly one image at the given box |
| Pdf.Document.DrawText | QRCode-main/contact-qr-generator.tsx:217 | Appends exactly one text, in the current font and text colour |
| Pdf.Document.DrawLine | QRCode-main/contact-qr-generator.tsx:226 | Appends exactly one line, with the current line width |
| Pdf.Document.TextWidth | QRCode-main/contact-qr-generator.tsx:220 | No contract: `getTextWidth`, the library's measurement of the text in the current font (also used at lines 249, 306, 335); `Export.ContactUnderline` states the underline's length in its terms |
| Pdf.Document.Save | QRCode-main/contact-qr-generator.tsx:259 | Appends the save of the named file |
| Export.ContactLayout | QRCode-main/contact-qr-generator.tsx:168-259 | No contract: the contact page's operations for a logo and QR outcome: background, logo if loaded, QR slot, "Save Us" caption and underline, save; its properties are the `Export.Contact*` lemmas |
| Export.FeedbackLayout | QRCode-main/contact-qr-generator.tsx:274-345 | No contract: the feedback page's operations for a QR outcome: background, QR slot, caption and underline, save; its properties are the `Export.Feedback*` lemmas |
| Export.DrawBackground | QRCode-main/contact-qr-generator.tsx:168-170 | Appends one white rectangle covering the whole page |
| Export.DrawLogo | QRCode-main/contact-qr-generator.tsx:172-189 | Appends the 50×35 logo centred at y = 40 if it loaded, and nothing if it failed |
| Export.DrawQrBlock | QRCode-main/contact-qr-generator.tsx:192-256 | The QR try/catch: appends the QR image, or else the grey placeholder and its "QR CODE" label, then in both branches the black bold caption and its underline; afterwards the text colour is black, the font bold Helvetica at the caption size, the line width the underline width, and the fill colour grey exactly after the fallback |
| Export.ComposeContactPage | QRCode-main/contact-qr-generator.tsx:168-259 | On a fresh page, the log becomes exactly the contact layout for the given logo and QR outcomes, and the drawing state ends as the caption step left it |
| Export.ComposeFeedbackPage | QRCode-main/contact-qr-generator.tsx:274-345 | On a fresh page, the log becomes exactly the feedback layout for the given QR outcome, and the drawing state ends as the caption step left it |
| Export.ExportContactPage | QRCode-main/contact-qr-generator.tsx:164-265 | For given logo and QR outcomes: the fresh page's log is the contact layout; the logo warning is raised exactly when the logo failed; the error alert is raised and no file is produced exactly when the save failed |
| Export.DownloadContactPdf | QRCode-main/contact-qr-generator.tsx:159-266 | The fresh page's log is the contact layout for the loaded logo and the encoded vCard of the contact; the logo warning is raised exactly when the logo failed; the error alert is raised and no file is produced exactly when the save failed |
| Export.DownloadFeedbackPdf | QRCode-main/contact-qr-generator.tsx:268-352 | The fresh page's log is the feedback layout for the encoded feedback link; the error alert is raised and no file is produced exactly when the save failed |
| Export.OfKind | QRCode-main/contact-qr-generator.tsx:168-259 | Selecting the operations of one kind gives no more operations than the log, all of that kind |
| Export.OfKindMembers | QRCode-main/contact-qr-generator.tsx:168-259 | An operation is selected if and only if it is in the log and of the kind |
| Export.PageOfKind | QRCode-main/contact-qr-generator.tsx:168-259 | The operations of a kind on a page are those of the background, logo, QR slot, caption and save, in that order |
| Export.ContactSavesOnceLast | QRCode-main/contact-qr-generator.tsx:168-259 | Whatever the logo and QR outcomes, the contact page's only save is `Save-Us-QR.pdf`, and it is the last operation |
| Export.FeedbackSavesOnceLast | QRCode-main/contact-qr-generator.tsx:274-345 | Whatever the QR outcome, the feedback page's only save is `Share-Contact-QR.pdf`, and it is the last operation |
| Export.ContactImages | QRCode-main/contact-qr-generator.tsx:173-228 | The contact page's images are exactly the logo (if it loaded) followed by the QR image (if the card encoded) |
| Export.FeedbackImages | QRCode-main/contact-qr-generator.tsx:279-314 | The feedback page has no logo; its only image is the QR image, and only if the link encoded |
| Export.ContactQrSlotBox | QRCode-main/contact-qr-generator.tsx:204-241 | The contact QR slot follows the background and the logo. It is a 100 mm square at y = 95 with equal left and right margins: the image, or a grey box of the same place and size with "QR CODE" in bold 18 pt at its centre |
| Export.FeedbackQrSlotBox | QRCode-main/contact-qr-generator.tsx:290-327 | The feedback QR slot directly follows the background. It is an 80 mm square, centred across the page, whose centre is 20 mm above the page's middle: the image, or the grey box with "QR CODE" in bold 16 pt at its centre |
| Export.ContactUnderline | QRCode-main/contact-qr-generator.tsx:211-259 | For every outcome, "Save Us" in bold 24 pt sits at y = 215, followed by a 0.8 mm underline at y = 217 centred on the page and exactly as long as the measured caption, then the save |
| Export.FeedbackUnderline | QRCode-main/contact-qr-generator.tsx:297-345 | For every outcome, the feedback caption in bold 18 pt sits 15 mm under the QR slot, followed by a 0.5 mm underline 2 mm lower, centred and as long as the measured caption, then the save |
| Export.LogoFailureOnlySkipsLogo | QRCode-main/contact-qr-generator.tsx:173-189 | A logo failure removes only the logo image: every other operation is issued as it would have been |
| Export.QrFailureOnlySwapsSlot | QRCode-main/contact-qr-generator.tsx:192-256 | A QR failure replaces only the QR image, with the grey box and its label; everything before it and the caption, underline and save after it are unchanged |

## Left out

- `loadImageAsDataURL` (lines 95-157) is not part of this model. It looks up the DOM image, draws it onto a canvas and waits for load events. The export takes only its outcome: a data URL or an error.
- The QR encoding itself (`QRCodeLib.toDataURL`) is a parameter. So are jsPDF's A4 page size and its text-width measurement. They are foreign library code.
- The data URL's content is the encoder's: since the encoder is a parameter, nothing about the image itself is stated.
- The 100 ms `setTimeout` before the contact export, and the async/promise sequencing, are left out. They are timing, not logic.
- The resize listener and the `useState` wiring are left out; only the `getQRSize` rule is kept. The viewport width is a parameter of `View.QrSize`.
- The JSX markup, the on-screen QR previews, styling and `console` logging are left out. `alert` is kept as the sequence of alert messages an export returns.
- Floating-point rounding of coordinates is left out: page coordinates are exact reals.
- Export.DownloadContactPdf: takes the contact as a parameter. The page passes its hard-coded contact, which is `VCard.Card`.
- Export.DownloadContactPdf: a logo load that never settles is not modelled. If the logo image is already broken when the export runs, it is complete with zero natural width, so the loader attaches its load and error handlers after the error has fired (lines 105 and 126-155). The promise then never settles, and the export stops after the background: no QR slot, no save and no alert. `Export.ContactSavesOnceLast` and the degrade-not-abort lemmas hold for loads that settle.
- Export.DrawLogo: only a failed load of the logo is modelled. `addImage` throwing on a loaded logo would reach the same warning and is not modelled.
- Export.DrawQrBlock: only a failed encoding is modelled as entering the fallback. The jsPDF drawing calls are taken never to throw. In the code, a throw after the QR image was drawn would draw the placeholder on top of it.
- Export.DownloadContactPdf: of the calls inside the outer `try`, only `save` is modelled as able to fail, so the model always logs the whole page. The same holds for Export.DownloadFeedbackPdf.
- `website` is optional (`website?: string`). `VCard.HasWebsite` models JavaScript truthiness, so a missing website and an empty one both give the blank URL slot.
- vCard values are not escaped in the code (`;`, `,`, line feeds). The model reproduces this. `VCard.AddressSemicolonShifts` shows the effect, and `VCard.CardLines` and `VCard.UrlLineIffWebsite` require fields without line feeds: a field holding a line feed adds lines, and a title such as `CEO\nURL:x` puts a `URL:` line in a card without a website.
