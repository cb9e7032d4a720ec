/** The QR image renderer: a thin wrapper that merges the caller's options
    over fixed defaults and hands the text to the QR encoding library. The
    library itself is a parameter: any function from text and options to a
    PNG data URL or an error. */
module QrRender {
  import opened Results

  /** An option value as the encoding library receives it: a string, a
      number, or a nested object (the colour pair). */
  datatype Value = Str(s: string) | Num(n: real) | Obj(fields: map<string, Value>)

  type Options = map<string, Value>

  /** The QR encoding library's `toDataURL`. */
  type Encoder = (string, Options) -> Result<string>

  /** Black modules on a white background. */
  const BlackOnWhite: Value := Obj(map["dark" := Str("#000000"), "light" := Str("#FFFFFF")])

  /** Medium error correction, PNG output at quality 0.92, a one-module
      quiet zone, black on white, 200 pixels wide. */
  const Defaults: Options := map[
    "errorCorrectionLevel" := Str("M"),
    "type" := Str("image/png"),
    "quality" := Num(0.92),
    "margin" := Num(1.0),
    "color" := BlackOnWhite,
    "width" := Num(200.0)]

  /** `{ ...defaults, ...options }`: every key the caller supplies replaces
      the default wholesale, every other default stays. */
  function Merge(options: Options): (effective: Options)
    ensures effective.Keys == Defaults.Keys + options.Keys
    ensures forall k :: k in options ==> effective[k] == options[k]
    ensures forall k :: k in Defaults && k !in options ==> effective[k] == Defaults[k]
  {
    Defaults + options
  }

  /** `generateQRCodeDataURL`: the text goes to the encoder unchanged, with
      the merged options; an encoder error is passed on to the caller. */
  function GenerateQrCodeDataUrl(text: string, options: Options, toDataUrl: Encoder): (r: Result<string>)
    ensures r.Err? <==> toDataUrl(text, Merge(options)).Err?
    ensures r.Ok? ==> r.value == toDataUrl(text, Merge(options)).value
    ensures r.Err? ==> r.reason == toDataUrl(text, Merge(options)).reason
  {
    toDataUrl(text, Merge(options))
  }

  /** Called with no options, the renderer uses the defaults. */
  lemma MergeNothing()
    ensures Merge(map[]) == Defaults
  {
    assert Defaults + map[] == Defaults;
  }

  /** Merging is shallow: a colour object without a `light` entry replaces
      the default pair outright, so the effective colour has no background. */
  lemma MergeIsShallow(dark: string)
    ensures var effective := Merge(map["color" := Obj(map["dark" := Str(dark)])]);
      effective["color"] == Obj(map["dark" := Str(dark)])
      && "light" !in effective["color"].fields
  {
  }

  /** A caller option that only restates a default changes nothing, so the
      effective options depend only on the keys whose values differ. */
  lemma MergeRestatedDefault(options: Options, k: string)
    requires k in Defaults
    ensures Merge(options[k := Defaults[k]]) == Merge(options - {k})
  {
    var a, b := Merge(options[k := Defaults[k]]), Merge(options - {k});
    assert a.Keys == b.Keys;
    forall j | j in a.Keys ensures a[j] == b[j] {
    }
  }
}
