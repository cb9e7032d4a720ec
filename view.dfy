/** The on-screen QR preview size: the page shrinks its QR images below two
    viewport-width breakpoints. The viewport width, which the page tracks
    from resize events, is a parameter here. */
module View {

  /** The width the page assumes before the first resize measurement. */
  const InitialWidth: int := 1024

  /** `getQRSize`: narrow viewports (below 640) take 50 off the base size,
      medium ones (640 up to 1024) take 20 off, wide ones keep it. */
  function QrSize(baseSize: int, width: int): (size: int)
    ensures baseSize - 50 <= size <= baseSize
  {
    if width < 640 then baseSize - 50
    else if width < 1024 then baseSize - 20
    else baseSize
  }

  /** The amount taken off the base size is one of the three breakpoint
      reductions, chosen by the viewport's band. */
  lemma QrSizeBands(baseSize: int, width: int)
    ensures var cut := baseSize - QrSize(baseSize, width);
      && (cut == 50 <==> width < 640)
      && (cut == 20 <==> 640 <= width < 1024)
      && (cut == 0 <==> 1024 <= width)
  {
  }

  /** A wider viewport never gets a smaller QR image. */
  lemma QrSizeMonotone(baseSize: int, narrow: int, wide: int)
    requires narrow <= wide
    ensures QrSize(baseSize, narrow) <= QrSize(baseSize, wide)
  {
  }

  /** Before any measurement the previews are drawn at full size. */
  lemma InitialSizeIsFull(baseSize: int)
    ensures QrSize(baseSize, InitialWidth) == baseSize
  {
  }
}
