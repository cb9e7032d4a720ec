/** The two "download" actions: each composes one page on a fresh PDF
    document and saves it under a fixed name. Loading the logo, encoding the
    QR image and saving are the calls that can fail; they are parameters
    (oracles), and each failure is handled where the page handles it. */
module Export {
  import opened Results
  import opened Pdf
  import opened VCard
  import opened QrRender

  const ContactFile := "Save-Us-QR.pdf"
  const FeedbackFile := "Share-Contact-QR.pdf"
  const LogoId := "jf-logo"
  const FeedbackUrl := "https://feedback-form-omega-eight.vercel.app/"
  const ContactCaption := "Save Us"
  const FeedbackCaption := "Share your contact to us"
  const PlaceholderLabel := "QR CODE"

  const LogoWarning := "Warning: JF Logo could not be loaded. PDF will be generated without the logo."
  const ContactFailure := "There was an error generating the Contact PDF. Please try again."
  const FeedbackFailure := "There was an error generating the Feedback PDF. Please try again."

  /** Page coordinates, in millimetres. */
  const LogoWidth: real := 50.0
  const LogoHeight: real := 35.0
  const LogoY: real := 40.0
  const ContactQrSize: real := 100.0
  const ContactQrY: real := 95.0
  const ContactCaptionGap: real := 20.0
  const FeedbackQrSize: real := 80.0
  const FeedbackLift: real := 20.0
  const FeedbackCaptionGap: real := 15.0
  const UnderlineDrop: real := 2.0

  const ContactCaptionFont := Font("helvetica", "bold", 24.0)
  const ContactLabelFont := Font("helvetica", "bold", 18.0)
  const FeedbackCaptionFont := Font("helvetica", "bold", 18.0)
  const FeedbackLabelFont := Font("helvetica", "bold", 16.0)
  const ContactUnderlineWidth: real := 0.8
  const FeedbackUnderlineWidth: real := 0.5

  /** The options each export passes to the renderer: black on white, at
      print resolution. */
  const ContactQrOptions: Options := map["color" := BlackOnWhite, "width" := Num(500.0)]
  const FeedbackQrOptions: Options := map["color" := BlackOnWhite, "width" := Num(400.0)]

  // ---------------------------------------------------------------------
  // The layouts, as the sequences of drawing operations they leave

  /** The page filled white. */
  function Background(pageWidth: real, pageHeight: real): seq<Op> {
    [Rect(0.0, 0.0, pageWidth, pageHeight, "F", White)]
  }

  /** The logo centred near the top, or nothing when it failed to load. */
  function LogoOps(pageWidth: real, logo: Result<string>): seq<Op> {
    if logo.Ok? then [Image(logo.value, "PNG", (pageWidth - LogoWidth) / 2.0, LogoY, LogoWidth, LogoHeight)]
    else []
  }

  /** The horizontally centred square QR slot at height `y`: the QR image, or
      a grey box of the same place and size labelled "QR CODE" at its centre. */
  function QrSlot(pageWidth: real, y: real, size: real, labelFont: Font, qr: Result<string>): seq<Op> {
    var x := (pageWidth - size) / 2.0;
    if qr.Ok? then [Image(qr.value, "PNG", x, y, size, size)]
    else [Rect(x, y, size, size, "F", Grey),
          Text(PlaceholderLabel, pageWidth / 2.0, y + size / 2.0, Center, labelFont, Black)]
  }

  /** A centred black caption at height `y` and its underline, drawn 2 mm
      lower from the measured start to the measured end of the text. */
  function Caption(pageWidth: real, text: string, y: real, font: Font, lineWidth: real, measure: Measure): seq<Op> {
    var textWidth := measure(text, font);
    [Text(text, pageWidth / 2.0, y, Center, font, Black),
     Line((pageWidth - textWidth) / 2.0, y + UnderlineDrop, (pageWidth + textWidth) / 2.0, y + UnderlineDrop, lineWidth)]
  }

  /** Both exports: background, the optional logo, the QR slot, the caption,
      then one save. */
  function Page(pageWidth: real, pageHeight: real, logo: seq<Op>, slot: seq<Op>, caption: seq<Op>, fileName: string): seq<Op> {
    Background(pageWidth, pageHeight) + logo + slot + caption + [Save(fileName)]
  }

  const ContactCaptionY: real := ContactQrY + ContactQrSize + ContactCaptionGap

  /** The contact page, given what loading the logo and encoding the card
      returned. */
  function ContactLayout(pageWidth: real, pageHeight: real, measure: Measure, logo: Result<string>, qr: Result<string>): seq<Op> {
    Page(pageWidth, pageHeight,
         LogoOps(pageWidth, logo),
         QrSlot(pageWidth, ContactQrY, ContactQrSize, ContactLabelFont, qr),
         Caption(pageWidth, ContactCaption, ContactCaptionY, ContactCaptionFont, ContactUnderlineWidth, measure),
         ContactFile)
  }

  /** The feedback QR sits at the vertical centre, lifted 20 mm. */
  function FeedbackQrY(pageHeight: real): real {
    (pageHeight - FeedbackQrSize) / 2.0 - FeedbackLift
  }

  function FeedbackCaptionY(pageHeight: real): real {
    FeedbackQrY(pageHeight) + FeedbackQrSize + FeedbackCaptionGap
  }

  /** The feedback page, given what encoding the feedback link returned. */
  function FeedbackLayout(pageWidth: real, pageHeight: real, measure: Measure, qr: Result<string>): seq<Op> {
    Page(pageWidth, pageHeight,
         [],
         QrSlot(pageWidth, FeedbackQrY(pageHeight), FeedbackQrSize, FeedbackLabelFont, qr),
         Caption(pageWidth, FeedbackCaption, FeedbackCaptionY(pageHeight), FeedbackCaptionFont, FeedbackUnderlineWidth, measure),
         FeedbackFile)
  }

  // ---------------------------------------------------------------------
  // The steps of the export actions

  /** Fills the page white. */
  method DrawBackground(pdf: Document)
    modifies pdf`ops, pdf`fillColor
    ensures pdf.ops == old(pdf.ops) + Background(pdf.pageWidth, pdf.pageHeight)
    ensures pdf.fillColor == White
  {
    pdf.SetFillColor(255, 255, 255);
    pdf.DrawRect(0.0, 0.0, pdf.pageWidth, pdf.pageHeight, "F");
  }

  /** The logo step: draws the logo, centred near the top, if it loaded. */
  method DrawLogo(pdf: Document, logo: Result<string>)
    modifies pdf`ops
    ensures pdf.ops == old(pdf.ops) + LogoOps(pdf.pageWidth, logo)
  {
    if logo.Ok? {
      var logoX := (pdf.pageWidth - LogoWidth) / 2.0;
      pdf.AddImage(logo.value, "PNG", logoX, LogoY, LogoWidth, LogoHeight);
    }
  }

  /** The QR step of either export: on success the image, otherwise the
      grey placeholder with its label; in both cases the black caption in
      bold Helvetica of `captionSize` points and its underline. */
  method DrawQrBlock(pdf: Document, qr: Result<string>, qrY: real, qrSize: real, labelSize: real,
                     caption: string, captionGap: real, captionSize: real, underlineWidth: real)
    modifies pdf`ops, pdf`fillColor, pdf`textColor, pdf`font, pdf`lineWidth
    ensures pdf.ops == old(pdf.ops)
      + QrSlot(pdf.pageWidth, qrY, qrSize, Font("helvetica", "bold", labelSize), qr)
      + Caption(pdf.pageWidth, caption, qrY + qrSize + captionGap, Font("helvetica", "bold", captionSize),
                underlineWidth, pdf.measure)
    ensures pdf.fillColor == if qr.Ok? then old(pdf.fillColor) else Grey
    ensures pdf.textColor == Black
    ensures pdf.font == Font("helvetica", "bold", captionSize)
    ensures pdf.lineWidth == underlineWidth
  {
    var qrX := (pdf.pageWidth - qrSize) / 2.0;
    var textY := qrY + qrSize + captionGap;
    if qr.Ok? {
      pdf.AddImage(qr.value, "PNG", qrX, qrY, qrSize, qrSize);
      pdf.SetTextColor(0, 0, 0);
      pdf.SetFontSize(captionSize);
      pdf.SetFont("helvetica", "bold");
      pdf.DrawText(caption, pdf.pageWidth / 2.0, textY, Center);
      assert pdf.ops == old(pdf.ops) + QrSlot(pdf.pageWidth, qrY, qrSize, Font("helvetica", "bold", labelSize), qr)
        + [Text(caption, pdf.pageWidth / 2.0, textY, Center, Font("helvetica", "bold", captionSize), Black)];
    } else {
      pdf.SetFillColor(200, 200, 200);
      pdf.DrawRect(qrX, qrY, qrSize, qrSize, "F");
      pdf.SetTextColor(0, 0, 0);
      pdf.SetFontSize(labelSize);
      pdf.SetFont("helvetica", "bold");
      pdf.DrawText(PlaceholderLabel, pdf.pageWidth / 2.0, qrY + qrSize / 2.0, Center);
      pdf.SetFontSize(captionSize);
      pdf.DrawText(caption, pdf.pageWidth / 2.0, textY, Center);
      assert pdf.ops == old(pdf.ops) + QrSlot(pdf.pageWidth, qrY, qrSize, Font("helvetica", "bold", labelSize), qr)
        + [Text(caption, pdf.pageWidth / 2.0, textY, Center, Font("helvetica", "bold", captionSize), Black)];
    }
    var textWidth := pdf.TextWidth(caption);
    var underlineY := textY + UnderlineDrop;
    pdf.SetLineWidth(underlineWidth);
    pdf.DrawLine((pdf.pageWidth - textWidth) / 2.0, underlineY, (pdf.pageWidth + textWidth) / 2.0, underlineY);
  }

  /** The contact page on a fresh document, given what loading the logo and
      encoding the card returned. */
  method ComposeContactPage(pdf: Document, logo: Result<string>, qr: Result<string>)
    requires pdf.ops == []
    modifies pdf`ops, pdf`fillColor, pdf`textColor, pdf`font, pdf`lineWidth
    ensures pdf.ops == ContactLayout(pdf.pageWidth, pdf.pageHeight, pdf.measure, logo, qr)
    ensures pdf.fillColor == (if qr.Ok? then White else Grey) && pdf.textColor == Black
    ensures pdf.font == ContactCaptionFont && pdf.lineWidth == ContactUnderlineWidth
  {
    DrawBackground(pdf);
    DrawLogo(pdf, logo);
    DrawQrBlock(pdf, qr, ContactQrY, ContactQrSize, ContactLabelFont.size,
                ContactCaption, ContactCaptionGap, ContactCaptionFont.size, ContactUnderlineWidth);
    pdf.Save(ContactFile);
  }

  /** The feedback page on a fresh document, given what encoding the
      feedback link returned. */
  method ComposeFeedbackPage(pdf: Document, qr: Result<string>)
    requires pdf.ops == []
    modifies pdf`ops, pdf`fillColor, pdf`textColor, pdf`font, pdf`lineWidth
    ensures pdf.ops == FeedbackLayout(pdf.pageWidth, pdf.pageHeight, pdf.measure, qr)
    ensures pdf.fillColor == (if qr.Ok? then White else Grey) && pdf.textColor == Black
    ensures pdf.font == FeedbackCaptionFont && pdf.lineWidth == FeedbackUnderlineWidth
  {
    DrawBackground(pdf);
    var qrY := (pdf.pageHeight - FeedbackQrSize) / 2.0 - FeedbackLift;
    DrawQrBlock(pdf, qr, qrY, FeedbackQrSize, FeedbackLabelFont.size,
                FeedbackCaption, FeedbackCaptionGap, FeedbackCaptionFont.size, FeedbackUnderlineWidth);
    pdf.Save(FeedbackFile);
    assert Background(pdf.pageWidth, pdf.pageHeight) + [] == Background(pdf.pageWidth, pdf.pageHeight);
  }

  // ---------------------------------------------------------------------
  // The export actions

  /** The contact export once the logo and QR outcomes are known: the page
      on a fresh document, the logo warning when the logo failed, and the
      error alert instead of the file when the save failed. */
  method ExportContactPage(pageWidth: real, pageHeight: real, measure: Measure,
                           logo: Result<string>, qr: Result<string>, saveSucceeds: bool)
    returns (pdf: Document, alerts: seq<string>, downloaded: Option<string>)
    ensures fresh(pdf) && pdf.pageWidth == pageWidth && pdf.pageHeight == pageHeight
    ensures pdf.ops == ContactLayout(pageWidth, pageHeight, measure, logo, qr)
    ensures alerts == (if logo.Err? then [LogoWarning] else []) + (if saveSucceeds then [] else [ContactFailure])
    ensures downloaded == if saveSucceeds then Some(ContactFile) else None
  {
    pdf := new Document(pageWidth, pageHeight, measure);
    ComposeContactPage(pdf, logo, qr);
    var warnings := if logo.Ok? then [] else [LogoWarning];
    if saveSucceeds {
      alerts, downloaded := warnings, Some(ContactFile);
    } else {
      alerts, downloaded := warnings + [ContactFailure], None;
    }
  }

  /** `downloadContactPDF` for the contact record `contact`. A logo that
      fails to load is skipped with a warning; a QR code that fails to encode
      is replaced by the placeholder; only a failing save ends in the error
      alert, and then no file. */
  method DownloadContactPdf(contact: ContactInfo, pageWidth: real, pageHeight: real, measure: Measure,
                            loadImage: string -> Result<string>, toDataUrl: Encoder, saveSucceeds: bool)
    returns (pdf: Document, alerts: seq<string>, downloaded: Option<string>)
    ensures fresh(pdf) && pdf.pageWidth == pageWidth && pdf.pageHeight == pageHeight
    ensures pdf.ops == ContactLayout(pageWidth, pageHeight, measure, loadImage(LogoId),
                                     GenerateQrCodeDataUrl(GenerateVCard(contact), ContactQrOptions, toDataUrl))
    ensures alerts == (if loadImage(LogoId).Err? then [LogoWarning] else [])
                      + (if saveSucceeds then [] else [ContactFailure])
    ensures downloaded == if saveSucceeds then Some(ContactFile) else None
  {
    var logo := loadImage(LogoId);
    var qr := GenerateQrCodeDataUrl(GenerateVCard(contact), ContactQrOptions, toDataUrl);
    pdf, alerts, downloaded := ExportContactPage(pageWidth, pageHeight, measure, logo, qr, saveSucceeds);
  }

  /** `downloadFeedbackPDF`. No logo; a QR code that fails to encode is
      replaced by the placeholder; only a failing save ends in the error
      alert, and then no file. */
  method DownloadFeedbackPdf(pageWidth: real, pageHeight: real, measure: Measure,
                             toDataUrl: Encoder, saveSucceeds: bool)
    returns (pdf: Document, alerts: seq<string>, downloaded: Option<string>)
    ensures fresh(pdf) && pdf.pageWidth == pageWidth && pdf.pageHeight == pageHeight
    ensures pdf.ops == FeedbackLayout(pageWidth, pageHeight, measure,
                                      GenerateQrCodeDataUrl(FeedbackUrl, FeedbackQrOptions, toDataUrl))
    ensures alerts == if saveSucceeds then [] else [FeedbackFailure]
    ensures downloaded == if saveSucceeds then Some(FeedbackFile) else None
  {
    pdf := new Document(pageWidth, pageHeight, measure);
    var qr := GenerateQrCodeDataUrl(FeedbackUrl, FeedbackQrOptions, toDataUrl);
    ComposeFeedbackPage(pdf, qr);
    if saveSucceeds {
      alerts, downloaded := [], Some(FeedbackFile);
    } else {
      alerts, downloaded := [FeedbackFailure], None;
    }
  }

  // ---------------------------------------------------------------------
  // What the layouts guarantee

  datatype Kind = RectKind | ImageKind | TextKind | LineKind | SaveKind

  function KindOf(op: Op): Kind {
    match op
    case Rect(_, _, _, _, _, _) => RectKind
    case Image(_, _, _, _, _, _) => ImageKind
    case Text(_, _, _, _, _, _) => TextKind
    case Line(_, _, _, _, _) => LineKind
    case Save(_) => SaveKind
  }

  /** The operations of one kind, in the order they were issued. */
  function OfKind(ops: seq<Op>, k: Kind): (r: seq<Op>)
    ensures |r| <= |ops|
    ensures forall i :: 0 <= i < |r| ==> KindOf(r[i]) == k
  {
    if ops == [] then []
    else if KindOf(ops[0]) == k then [ops[0]] + OfKind(ops[1..], k)
    else OfKind(ops[1..], k)
  }

  /** An operation is kept exactly when it was issued and is of the kind. */
  lemma {:induction false} OfKindMembers(ops: seq<Op>, k: Kind, op: Op)
    ensures op in OfKind(ops, k) <==> op in ops && KindOf(op) == k
    decreases |ops|
  {
    if ops != [] {
      OfKindMembers(ops[1..], k, op);
      assert ops == [ops[0]] + ops[1..];
    }
  }

  lemma {:induction false} OfKindAppend(a: seq<Op>, b: seq<Op>, k: Kind)
    ensures OfKind(a + b, k) == OfKind(a, k) + OfKind(b, k)
    decreases |a|
  {
    if a != [] {
      assert (a + b)[0] == a[0] && (a + b)[1..] == a[1..] + b;
      OfKindAppend(a[1..], b, k);
    } else {
      assert a + b == b;
    }
  }

  lemma OfKindPair(a: Op, b: Op, k: Kind)
    ensures OfKind([a], k) == if KindOf(a) == k then [a] else []
    ensures OfKind([a, b], k) == OfKind([a], k) + OfKind([b], k)
  {
    assert [a, b] == [a] + [b];
    OfKindAppend([a], [b], k);
  }

  /** The background holds no image and no save. */
  lemma BackgroundKinds(pageWidth: real, pageHeight: real)
    ensures OfKind(Background(pageWidth, pageHeight), ImageKind) == []
    ensures OfKind(Background(pageWidth, pageHeight), SaveKind) == []
  {
    var bg := Background(pageWidth, pageHeight);
    OfKindPair(bg[0], bg[0], ImageKind);
    OfKindPair(bg[0], bg[0], SaveKind);
  }

  /** The logo step's only operation, if any, is the logo image. */
  lemma LogoKinds(pageWidth: real, logo: Result<string>)
    ensures OfKind(LogoOps(pageWidth, logo), ImageKind) == LogoOps(pageWidth, logo)
    ensures OfKind(LogoOps(pageWidth, logo), SaveKind) == []
  {
    if logo.Ok? {
      var l := LogoOps(pageWidth, logo);
      OfKindPair(l[0], l[0], ImageKind);
      OfKindPair(l[0], l[0], SaveKind);
    }
  }

  lemma SaveKinds(fileName: string)
    ensures OfKind([Save(fileName)], ImageKind) == []
    ensures OfKind([Save(fileName)], SaveKind) == [Save(fileName)]
  {
    OfKindPair(Save(fileName), Save(fileName), ImageKind);
    OfKindPair(Save(fileName), Save(fileName), SaveKind);
  }

  /** The QR slot holds no save; its only image is the QR image, drawn
      exactly when encoding succeeded. */
  lemma SlotKinds(pageWidth: real, y: real, size: real, labelFont: Font, qr: Result<string>)
    ensures OfKind(QrSlot(pageWidth, y, size, labelFont, qr), SaveKind) == []
    ensures OfKind(QrSlot(pageWidth, y, size, labelFont, qr), ImageKind)
      == if qr.Ok? then [Image(qr.value, "PNG", (pageWidth - size) / 2.0, y, size, size)] else []
  {
    var x := (pageWidth - size) / 2.0;
    if qr.Ok? {
      var image := Image(qr.value, "PNG", x, y, size, size);
      OfKindPair(image, image, SaveKind);
      OfKindPair(image, image, ImageKind);
    } else {
      var box := Rect(x, y, size, size, "F", Grey);
      var labelText := Text(PlaceholderLabel, pageWidth / 2.0, y + size / 2.0, Center, labelFont, Black);
      OfKindPair(box, labelText, SaveKind);
      OfKindPair(box, labelText, ImageKind);
    }
  }

  /** The caption holds no image and no save. */
  lemma CaptionKinds(pageWidth: real, text: string, textY: real, font: Font, lineWidth: real, measure: Measure)
    ensures OfKind(Caption(pageWidth, text, textY, font, lineWidth, measure), SaveKind) == []
    ensures OfKind(Caption(pageWidth, text, textY, font, lineWidth, measure), ImageKind) == []
  {
    var textWidth := measure(text, font);
    var labelText := Text(text, pageWidth / 2.0, textY, Center, font, Black);
    var underline := Line((pageWidth - textWidth) / 2.0, textY + UnderlineDrop,
                          (pageWidth + textWidth) / 2.0, textY + UnderlineDrop, lineWidth);
    OfKindPair(labelText, underline, SaveKind);
    OfKindPair(labelText, underline, ImageKind);
  }

  /** The operations of one kind on a page are those of its parts, in order. */
  lemma PageOfKind(pageWidth: real, pageHeight: real, logo: seq<Op>, slot: seq<Op>, caption: seq<Op>,
                   fileName: string, k: Kind)
    ensures OfKind(Page(pageWidth, pageHeight, logo, slot, caption, fileName), k)
      == OfKind(Background(pageWidth, pageHeight), k) + OfKind(logo, k) + OfKind(slot, k)
         + OfKind(caption, k) + OfKind([Save(fileName)], k)
  {
    var bg := Background(pageWidth, pageHeight);
    OfKindAppend(bg, logo, k);
    OfKindAppend(bg + logo, slot, k);
    OfKindAppend(bg + logo + slot, caption, k);
    OfKindAppend(bg + logo + slot + caption, [Save(fileName)], k);
  }

  /** Whatever the logo and QR steps return, the contact page ends with its
      save, and that is the only save. */
  lemma ContactSavesOnceLast(pageWidth: real, pageHeight: real, measure: Measure,
                             logo: Result<string>, qr: Result<string>)
    ensures var ops := ContactLayout(pageWidth, pageHeight, measure, logo, qr);
      OfKind(ops, SaveKind) == [Save(ContactFile)] && ops[|ops| - 1] == Save(ContactFile)
  {
    PageOfKind(pageWidth, pageHeight, LogoOps(pageWidth, logo),
               QrSlot(pageWidth, ContactQrY, ContactQrSize, ContactLabelFont, qr),
               Caption(pageWidth, ContactCaption, ContactCaptionY, ContactCaptionFont, ContactUnderlineWidth, measure),
               ContactFile, SaveKind);
    BackgroundKinds(pageWidth, pageHeight);
    LogoKinds(pageWidth, logo);
    SaveKinds(ContactFile);
    SlotKinds(pageWidth, ContactQrY, ContactQrSize, ContactLabelFont, qr);
    CaptionKinds(pageWidth, ContactCaption, ContactCaptionY, ContactCaptionFont, ContactUnderlineWidth, measure);
  }

  /** Whatever the QR step returns, the feedback page ends with its save,
      and that is the only save. */
  lemma FeedbackSavesOnceLast(pageWidth: real, pageHeight: real, measure: Measure, qr: Result<string>)
    ensures var ops := FeedbackLayout(pageWidth, pageHeight, measure, qr);
      OfKind(ops, SaveKind) == [Save(FeedbackFile)] && ops[|ops| - 1] == Save(FeedbackFile)
  {
    PageOfKind(pageWidth, pageHeight, [],
               QrSlot(pageWidth, FeedbackQrY(pageHeight), FeedbackQrSize, FeedbackLabelFont, qr),
               Caption(pageWidth, FeedbackCaption, FeedbackCaptionY(pageHeight), FeedbackCaptionFont, FeedbackUnderlineWidth, measure),
               FeedbackFile, SaveKind);
    BackgroundKinds(pageWidth, pageHeight);
    SaveKinds(FeedbackFile);
    SlotKinds(pageWidth, FeedbackQrY(pageHeight), FeedbackQrSize, FeedbackLabelFont, qr);
    CaptionKinds(pageWidth, FeedbackCaption, FeedbackCaptionY(pageHeight), FeedbackCaptionFont, FeedbackUnderlineWidth, measure);
  }

  /** The contact page holds the logo image exactly when the logo loaded,
      above the QR image exactly when the card encoded, and no other image. */
  lemma ContactImages(pageWidth: real, pageHeight: real, measure: Measure,
                      logo: Result<string>, qr: Result<string>)
    ensures OfKind(ContactLayout(pageWidth, pageHeight, measure, logo, qr), ImageKind)
      == (if logo.Ok? then [Image(logo.value, "PNG", (pageWidth - 50.0) / 2.0, 40.0, 50.0, 35.0)] else [])
         + (if qr.Ok? then [Image(qr.value, "PNG", (pageWidth - 100.0) / 2.0, 95.0, 100.0, 100.0)] else [])
  {
    var bg := Background(pageWidth, pageHeight);
    var logoOps := LogoOps(pageWidth, logo);
    var slot := QrSlot(pageWidth, ContactQrY, ContactQrSize, ContactLabelFont, qr);
    var caption := Caption(pageWidth, ContactCaption, ContactCaptionY, ContactCaptionFont, ContactUnderlineWidth, measure);
    assert OfKind(ContactLayout(pageWidth, pageHeight, measure, logo, qr), ImageKind)
      == OfKind(bg, ImageKind) + OfKind(logoOps, ImageKind) + OfKind(slot, ImageKind)
         + OfKind(caption, ImageKind) + OfKind([Save(ContactFile)], ImageKind) by {
      PageOfKind(pageWidth, pageHeight, logoOps, slot, caption, ContactFile, ImageKind);
    }
    BackgroundKinds(pageWidth, pageHeight);
    LogoKinds(pageWidth, logo);
    SaveKinds(ContactFile);
    SlotKinds(pageWidth, ContactQrY, ContactQrSize, ContactLabelFont, qr);
    CaptionKinds(pageWidth, ContactCaption, ContactCaptionY, ContactCaptionFont, ContactUnderlineWidth, measure);
  }

  /** The feedback page holds no logo: its only image is the QR image, and
      only when the link encoded. */
  lemma FeedbackImages(pageWidth: real, pageHeight: real, measure: Measure, qr: Result<string>)
    ensures OfKind(FeedbackLayout(pageWidth, pageHeight, measure, qr), ImageKind)
      == if qr.Ok? then [Image(qr.value, "PNG", (pageWidth - 80.0) / 2.0, (pageHeight - 80.0) / 2.0 - 20.0, 80.0, 80.0)] else []
  {
    PageOfKind(pageWidth, pageHeight, [],
               QrSlot(pageWidth, FeedbackQrY(pageHeight), FeedbackQrSize, FeedbackLabelFont, qr),
               Caption(pageWidth, FeedbackCaption, FeedbackCaptionY(pageHeight), FeedbackCaptionFont, FeedbackUnderlineWidth, measure),
               FeedbackFile, ImageKind);
    BackgroundKinds(pageWidth, pageHeight);
    SaveKinds(FeedbackFile);
    SlotKinds(pageWidth, FeedbackQrY(pageHeight), FeedbackQrSize, FeedbackLabelFont, qr);
    CaptionKinds(pageWidth, FeedbackCaption, FeedbackCaptionY(pageHeight), FeedbackCaptionFont, FeedbackUnderlineWidth, measure);
  }

  /** The contact QR slot follows the background and the logo, if any. It
      is a 100 mm square at y = 95, centred across the page with equal
      margins: the image when the card encoded, otherwise a grey box of the
      same place and size with the "QR CODE" label at its centre. */
  lemma ContactQrSlotBox(pageWidth: real, pageHeight: real, measure: Measure,
                         logo: Result<string>, qr: Result<string>)
    ensures var ops := ContactLayout(pageWidth, pageHeight, measure, logo, qr);
      var k := if logo.Ok? then 2 else 1;
      var x := (pageWidth - 100.0) / 2.0;
      && x + 50.0 == pageWidth / 2.0 && pageWidth - (x + 100.0) == x
      && |ops| > k + 1
      && (qr.Ok? ==> ops[k] == Image(qr.value, "PNG", x, 95.0, 100.0, 100.0))
      && (qr.Err? ==> ops[k] == Rect(x, 95.0, 100.0, 100.0, "F", Grey))
      && (qr.Err? ==> ops[k + 1] == Text("QR CODE", pageWidth / 2.0, 145.0, Center, Font("helvetica", "bold", 18.0), Black))
  {
  }

  /** The feedback QR slot directly follows the background: an 80 mm square
      centred across the page whose centre sits 20 mm above the page's
      middle; the image, or the grey box with its label at the centre. */
  lemma FeedbackQrSlotBox(pageWidth: real, pageHeight: real, measure: Measure, qr: Result<string>)
    ensures var ops := FeedbackLayout(pageWidth, pageHeight, measure, qr);
      var x := (pageWidth - 80.0) / 2.0;
      var y := (pageHeight - 80.0) / 2.0 - 20.0;
      && x + 40.0 == pageWidth / 2.0 && y + 40.0 == pageHeight / 2.0 - 20.0
      && |ops| > 2
      && (qr.Ok? ==> ops[1] == Image(qr.value, "PNG", x, y, 80.0, 80.0))
      && (qr.Err? ==> ops[1] == Rect(x, y, 80.0, 80.0, "F", Grey))
      && (qr.Err? ==> ops[2] == Text("QR CODE", pageWidth / 2.0, y + 40.0, Center, Font("helvetica", "bold", 16.0), Black))
  {
  }

  /** Whatever the logo and QR steps return, the contact page closes with the
      "Save Us" caption in bold 24-point Helvetica, 20 mm under the QR slot,
      and an underline 2 mm lower that is centred on the page and exactly as
      long as the measured caption, then the save. */
  lemma ContactUnderline(pageWidth: real, pageHeight: real, measure: Measure,
                         logo: Result<string>, qr: Result<string>)
    ensures var ops := ContactLayout(pageWidth, pageHeight, measure, logo, qr);
      var font := Font("helvetica", "bold", 24.0);
      var n := |ops|;
      && n >= 4
      && ops[n - 3] == Text("Save Us", pageWidth / 2.0, 215.0, Center, font, Black)
      && ops[n - 2].Line? && ops[n - 2].y1 == ops[n - 2].y2 == 217.0 && ops[n - 2].width == 0.8
      && (ops[n - 2].x1 + ops[n - 2].x2) / 2.0 == pageWidth / 2.0
      && ops[n - 2].x2 - ops[n - 2].x1 == measure("Save Us", font)
      && ops[n - 1] == Save("Save-Us-QR.pdf")
  {
  }

  /** Whatever the QR step returns, the feedback page closes with its caption
      in bold 18-point Helvetica, 15 mm under the QR slot, and an underline
      2 mm lower that is centred on the page and exactly as long as the
      measured caption, then the save. */
  lemma FeedbackUnderline(pageWidth: real, pageHeight: real, measure: Measure, qr: Result<string>)
    ensures var ops := FeedbackLayout(pageWidth, pageHeight, measure, qr);
      var font := Font("helvetica", "bold", 18.0);
      var textY := (pageHeight - 80.0) / 2.0 - 20.0 + 80.0 + 15.0;
      var n := |ops|;
      && n >= 4
      && ops[n - 3] == Text("Share your contact to us", pageWidth / 2.0, textY, Center, font, Black)
      && ops[n - 2].Line? && ops[n - 2].y1 == ops[n - 2].y2 == textY + 2.0 && ops[n - 2].width == 0.5
      && (ops[n - 2].x1 + ops[n - 2].x2) / 2.0 == pageWidth / 2.0
      && ops[n - 2].x2 - ops[n - 2].x1 == measure("Share your contact to us", font)
      && ops[n - 1] == Save("Share-Contact-QR.pdf")
  {
  }

  /** A logo that fails to load only removes the logo image: every other
      operation is issued as it would have been. */
  lemma LogoFailureOnlySkipsLogo(pageWidth: real, pageHeight: real, measure: Measure,
                                 logoData: string, reason: string, qr: Result<string>)
    ensures var withLogo := ContactLayout(pageWidth, pageHeight, measure, Ok(logoData), qr);
      ContactLayout(pageWidth, pageHeight, measure, Err(reason), qr) == [withLogo[0]] + withLogo[2..]
  {
    var withLogo := ContactLayout(pageWidth, pageHeight, measure, Ok(logoData), qr);
    var bg := Background(pageWidth, pageHeight);
    var rest := QrSlot(pageWidth, ContactQrY, ContactQrSize, ContactLabelFont, qr)
      + Caption(pageWidth, ContactCaption, ContactCaptionY, ContactCaptionFont, ContactUnderlineWidth, measure)
      + [Save(ContactFile)];
    assert withLogo == bg + LogoOps(pageWidth, Ok(logoData)) + rest;
    assert withLogo[2..] == rest;
    assert ContactLayout(pageWidth, pageHeight, measure, Err(reason), qr) == bg + rest;
  }

  /** A QR code that fails to encode only swaps the QR image for the grey box
      and its label; the caption, underline and save are unchanged. */
  lemma QrFailureOnlySwapsSlot(pageWidth: real, pageHeight: real, measure: Measure,
                               logo: Result<string>, qrData: string, reason: string)
    ensures var withQr := ContactLayout(pageWidth, pageHeight, measure, logo, Ok(qrData));
      var k := if logo.Ok? then 2 else 1;
      var x := (pageWidth - 100.0) / 2.0;
      && |withQr| > k
      && ContactLayout(pageWidth, pageHeight, measure, logo, Err(reason))
         == withQr[..k]
            + [Rect(x, 95.0, 100.0, 100.0, "F", Grey),
               Text("QR CODE", pageWidth / 2.0, 145.0, Center, Font("helvetica", "bold", 18.0), Black)]
            + withQr[k + 1..]
  {
    var head := Background(pageWidth, pageHeight) + LogoOps(pageWidth, logo);
    var tail := Caption(pageWidth, ContactCaption, ContactCaptionY, ContactCaptionFont, ContactUnderlineWidth, measure)
      + [Save(ContactFile)];
    var withQr := ContactLayout(pageWidth, pageHeight, measure, logo, Ok(qrData));
    var k := if logo.Ok? then 2 else 1;
    assert |head| == k;
    assert withQr == head + QrSlot(pageWidth, ContactQrY, ContactQrSize, ContactLabelFont, Ok(qrData)) + tail;
    assert withQr[..k] == head && withQr[k + 1..] == tail;
    assert ContactLayout(pageWidth, pageHeight, measure, logo, Err(reason))
      == head + QrSlot(pageWidth, ContactQrY, ContactQrSize, ContactLabelFont, Err(reason)) + tail;
  }

  /** The contact export asks for the default options with the width raised
      to 500 pixels: its colour pair restates the default. */
  lemma ContactQrOptionsEffective()
    ensures Merge(ContactQrOptions) == Defaults["width" := Num(500.0)]
  {
    var a, b := Merge(ContactQrOptions), Defaults["width" := Num(500.0)];
    assert a.Keys == b.Keys;
    forall k | k in a.Keys ensures a[k] == b[k] {
    }
  }

  /** The feedback export asks for the default options with the width raised
      to 400 pixels. */
  lemma FeedbackQrOptionsEffective()
    ensures Merge(FeedbackQrOptions) == Defaults["width" := Num(400.0)]
  {
    var a, b := Merge(FeedbackQrOptions), Defaults["width" := Num(400.0)];
    assert a.Keys == b.Keys;
    forall k | k in a.Keys ensures a[k] == b[k] {
    }
  }
}
