/**
  `generate_encoded_images` (generate.py:129-210): for each code in turn,
  render it as an EAN-13 barcode or a QR image (with the logo pasted in the
  middle when one was loaded), save it as `<code>.png`, and append the line
  `<code>.png,<code>` to the manifest. A failure in any step for one code is
  caught, that code gets no manifest line, and the loop goes on.

  The barcode, QR and imaging libraries are oracles (`Library`): each call
  either returns normally or raises, and the QR renderer reports the size of
  the image it made.
 */
module Images {
  import opened Wrappers
  import opened Padding
  import opened Geometry

  /** The encoding selector. `Ean13` and `Qr` are the two members of the
      program's `EncodingType`; `Unsupported` stands for any other value,
      which reaches the defensive `raise ValueError` of generate.py:201-202. */
  datatype EncodingType = Ean13 | Qr | Unsupported

  /** The error-correction levels of the QR library. */
  datatype ErrorCorrection = Low | Medium | Quartile | High

  /** The constructor arguments of a QR code object. */
  datatype QrConfig = QrConfig(version: nat, errorCorrection: ErrorCorrection, boxSize: nat, border: nat)

  /** generate.py:167-172: version 2, level H, 10-pixel modules, 5-module border. */
  const BatchQrConfig := QrConfig(2, High, 10, 5)

  /** What one saved image holds. */
  datatype Artifact =
    | BarcodeImage(payload: string)
    | MatrixImage(data: seq<string>, size: Size, logo: Option<Placement>)

  /** The step whose exception the loop caught. */
  datatype Failure = BarcodeFailed | RenderFailed | LogoFailed | SaveFailed | UnsupportedType

  /** The result of the `try` block for one code. */
  datatype Outcome = Saved(fileName: string, artifact: Artifact) | Failed(failure: Failure)

  /** The third-party calls. Each answers whether the call returned normally. */
  datatype Library = Library(
    // EAN13(payload, writer=ImageWriter()) and barcode.save(file_path)
    writeBarcode: (string, string) -> bool,
    // qr.make(fit=True) and qr.make_image(...).convert("RGB"): the image's size, or None if it raised
    renderQr: (QrConfig, seq<string>) -> Option<Size>,
    // logo_img.resize((s, s)) and img.paste(resized_logo, (x, y))
    pasteLogo: Placement -> bool,
    // img.save(file_path)
    saveImage: (Artifact, string) -> bool)

  /** `f"{code}.png"` (generate.py:178). */
  function FileName(code: string): string
  {
    code + ".png"
  }

  /** `f"{file_name},{code}\n"` (generate.py:205). */
  function ManifestLine(code: string): string
  {
    FileName(code) + "," + code + "\n"
  }

  /** The file name is the code and `.png`; the manifest line is the file
      name, a comma, the code and a newline. */
  lemma ManifestLineShape(code: string)
    ensures var name := FileName(code);
      |name| == |code| + 4 && name[..|code|] == code && name[|code|..] == ".png"
    ensures var line := ManifestLine(code);
      |line| == 2 * |code| + 6 && line[..|code| + 4] == FileName(code) && line[|code| + 4] == ','
      && line[|code| + 5..|line| - 1] == code && line[|line| - 1] == '\n'
  {
    var name := FileName(code);
    var line := ManifestLine(code);
    assert line == name + [','] + code + ['\n'];
    assert line[..|code| + 4] == name;
    assert line[|code| + 5..|line| - 1] == code;
  }

  /** One manifest row, as a reader of the file sees it. */
  datatype ManifestEntry = ManifestEntry(fileName: string, code: string)

  /** Reads a manifest line back. A line of `2n + 6` characters splits into
      a file name of `n + 4` characters, a comma, a code of `n` characters and
      a newline; the file name must be the code followed by `.png`. */
  function ParseManifestLine(line: string): (e: Option<ManifestEntry>)
    ensures e.Some? ==> line == ManifestLine(e.value.code) && e.value.fileName == FileName(e.value.code)
  {
    if |line| < 6 || (|line| - 6) % 2 != 0 then None
    else
      var n := (|line| - 6) / 2;
      var name := line[..n + 4];
      var code := line[n + 5..|line| - 1];
      if line[n + 4] == ',' && line[|line| - 1] == '\n' && name == code + ".png" then
        assert line == name + [','] + code + ['\n'];
        Some(ManifestEntry(name, code))
      else None
  }

  /** Every line the program writes reads back as its file name and code. */
  lemma ParseManifestLineRoundTrip(code: string)
    ensures ParseManifestLine(ManifestLine(code)) == Some(ManifestEntry(FileName(code), code))
  {
    ManifestLineShape(code);
    var line := ManifestLine(code);
    assert (|line| - 6) / 2 == |code|;
  }

  /** Distinct codes give distinct manifest lines. */
  lemma ManifestLineInjective(a: string, b: string)
    requires ManifestLine(a) == ManifestLine(b)
    ensures a == b
  {
    ParseManifestLineRoundTrip(a);
    ParseManifestLineRoundTrip(b);
  }

  /** The `try` block of generate.py:177-205 for one code, up to the manifest
      write: the barcode branch, the QR branch with its optional logo, and
      the unsupported-type branch. The QR object holds only this code, since
      the loop clears it first. */
  function EncodeOne(lib: Library, encoding: EncodingType, logoLoaded: bool, code: string): (o: Outcome)
    ensures o.Saved? ==> o.fileName == FileName(code)
    ensures o.Saved? && o.artifact.BarcodeImage? ==> encoding == Ean13 && o.artifact.payload == EanPayload(code)
    ensures o.Saved? && o.artifact.MatrixImage? ==> encoding == Qr && o.artifact.data == [code]
    ensures o.Saved? && o.artifact.MatrixImage? ==> (o.artifact.logo.Some? <==> logoLoaded)
    ensures o.Saved? && o.artifact.MatrixImage? && o.artifact.logo.Some? ==>
              o.artifact.logo.value == LogoPlacement(o.artifact.size)
    ensures encoding == Qr && o.Saved? ==>
              var r := lib.renderQr(BatchQrConfig, [code]);
              r.Some? && o.artifact.MatrixImage? && o.artifact.size == r.value
    ensures encoding == Ean13 ==> (o.Saved? <==> lib.writeBarcode(EanPayload(code), FileName(code)))
    ensures encoding == Qr ==>
              var r := lib.renderQr(BatchQrConfig, [code]);
              (o.Saved? <==> r.Some? && (!logoLoaded || lib.pasteLogo(LogoPlacement(r.value)))
                             && lib.saveImage(MatrixImage([code], r.value, if logoLoaded then Some(LogoPlacement(r.value)) else None), FileName(code)))
    ensures encoding == Unsupported ==> o == Failed(UnsupportedType)
  {
    var fileName := FileName(code);
    match encoding
    case Ean13 =>
      var payload := EanPayload(code);
      if lib.writeBarcode(payload, fileName) then Saved(fileName, BarcodeImage(payload)) else Failed(BarcodeFailed)
    case Qr =>
      var rendered := lib.renderQr(BatchQrConfig, [code]);
      if rendered.None? then Failed(RenderFailed)
      else
        var size := rendered.value;
        var logo := if logoLoaded then Some(LogoPlacement(size)) else None;
        var image := MatrixImage([code], size, logo);
        if logo.Some? && !lib.pasteLogo(logo.value) then Failed(LogoFailed)
        else if lib.saveImage(image, fileName) then Saved(fileName, image)
        else Failed(SaveFailed)
    case Unsupported => Failed(UnsupportedType)
  }

  /** A logo is pasted onto every saved QR image when one was loaded, inside
      the image and centred; no saved image carries a logo otherwise, and
      barcodes never do. */
  lemma LogoOnlyOnQr(lib: Library, encoding: EncodingType, logoLoaded: bool, code: string)
    requires EncodeOne(lib, encoding, logoLoaded, code).Saved?
    ensures var a := EncodeOne(lib, encoding, logoLoaded, code).artifact;
      (a.MatrixImage? && a.logo.Some?) <==> (encoding == Qr && logoLoaded)
    ensures var a := EncodeOne(lib, encoding, logoLoaded, code).artifact;
      a.MatrixImage? && a.logo.Some? ==>
        a.logo.value.x + a.logo.value.side <= a.size.width && a.logo.value.y + a.logo.value.side <= a.size.height
  {
  }

  /** What the manifest gains for one code. */
  function Contribution(o: Outcome, code: string): seq<string>
  {
    if o.Saved? then [ManifestLine(code)] else []
  }

  /** The `try` block the batch runs for each code. */
  function Step(lib: Library, encoding: EncodingType, logoLoaded: bool): string -> Outcome
  {
    code => EncodeOne(lib, encoding, logoLoaded, code)
  }

  /** The manifest written when `step` is run on each of `codes`: the
      per-code contributions, in order. */
  function Manifest(step: string -> Outcome, codes: seq<string>): (lines: seq<string>)
  {
    if codes == [] then []
    else
      var last := codes[|codes| - 1];
      Manifest(step, codes[..|codes| - 1]) + Contribution(step(last), last)
  }

  /** One more code adds its contribution at the end of the manifest. */
  lemma ManifestSnoc(step: string -> Outcome, codes: seq<string>, code: string)
    ensures Manifest(step, codes + [code]) == Manifest(step, codes) + Contribution(step(code), code)
  {
    assert (codes + [code])[..|codes|] == codes;
  }

  /** The codes whose `try` block completed, in input order. */
  function Succeeded(step: string -> Outcome, codes: seq<string>): (ok: seq<string>)
  {
    if codes == [] then []
    else
      var last := codes[|codes| - 1];
      Succeeded(step, codes[..|codes| - 1]) + (if step(last).Saved? then [last] else [])
  }

  /** A code is among the successful ones exactly when it is an input code
      whose `try` block completed; and there are no more of them than codes. */
  lemma {:induction false} SucceededMembers(step: string -> Outcome, codes: seq<string>, c: string)
    ensures |Succeeded(step, codes)| <= |codes|
    ensures c in Succeeded(step, codes) <==> c in codes && step(c).Saved?
  {
    if codes != [] {
      var init := codes[..|codes| - 1];
      SucceededMembers(step, init, c);
      assert codes == init + [codes[|codes| - 1]];
    }
  }

  /** The lines for a list of codes, one each, in order. */
  function LinesFor(codes: seq<string>): (lines: seq<string>)
    ensures |lines| == |codes|
    ensures forall i :: 0 <= i < |codes| ==> lines[i] == ManifestLine(codes[i])
  {
    seq(|codes|, i requires 0 <= i < |codes| => ManifestLine(codes[i]))
  }

  /** The manifest has exactly one line `<code>.png,<code>` per code whose
      `try` block completed, in input order, and nothing else. */
  lemma {:induction false} ManifestListsSucceeded(step: string -> Outcome, codes: seq<string>)
    ensures Manifest(step, codes) == LinesFor(Succeeded(step, codes))
  {
    if codes != [] {
      var init := codes[..|codes| - 1];
      var last := codes[|codes| - 1];
      ManifestListsSucceeded(step, init);
      var s := Succeeded(step, init);
      if step(last).Saved? {
        assert LinesFor(s + [last]) == LinesFor(s) + [ManifestLine(last)];
      }
    }
  }

  /** Failure isolation: the manifest for two runs of codes is the manifest
      of the first followed by that of the second, whatever failed in the
      first. */
  lemma {:induction false} ManifestAppend(step: string -> Outcome, a: seq<string>, b: seq<string>)
    ensures Manifest(step, a + b) == Manifest(step, a) + Manifest(step, b)
    decreases |b|
  {
    if b == [] {
      assert a + b == a;
    } else {
      var b' := b[..|b| - 1];
      assert (a + b)[..|a + b| - 1] == a + b';
      assert (a + b)[|a + b| - 1] == b[|b| - 1];
      ManifestAppend(step, a, b');
    }
  }

  /** A code holds a manifest line exactly when it is an input code whose
      `try` block completed; so a failed code has none. */
  lemma ManifestLineIff(step: string -> Outcome, codes: seq<string>, c: string)
    ensures ManifestLine(c) in Manifest(step, codes) <==> c in codes && step(c).Saved?
  {
    var s := Succeeded(step, codes);
    ManifestListsSucceeded(step, codes);
    SucceededMembers(step, codes, c);
    if ManifestLine(c) in LinesFor(s) {
      var i :| 0 <= i < |s| && LinesFor(s)[i] == ManifestLine(c);
      ManifestLineInjective(s[i], c);
    }
    if c in s {
      var i :| 0 <= i < |s| && s[i] == c;
      assert LinesFor(s)[i] == ManifestLine(c);
    }
  }

  /** The manifest never has more lines than there are codes; it has one per
      code when every code succeeds, and fewer when some code fails. */
  lemma {:induction false} ManifestSize(step: string -> Outcome, codes: seq<string>)
    ensures |Manifest(step, codes)| <= |codes|
    ensures (forall i :: 0 <= i < |codes| ==> step(codes[i]).Saved?) ==> |Manifest(step, codes)| == |codes|
    ensures (exists i :: 0 <= i < |codes| && step(codes[i]).Failed?) ==> |Manifest(step, codes)| < |codes|
  {
    if codes != [] {
      var init := codes[..|codes| - 1];
      var last := codes[|codes| - 1];
      ManifestSize(step, init);
      var c := Contribution(step(last), last);
      assert |Manifest(step, codes)| == |Manifest(step, init)| + |c|;
      assert |c| == if step(last).Saved? then 1 else 0;
      if forall i :: 0 <= i < |codes| ==> step(codes[i]).Saved? {
        forall i | 0 <= i < |init| ensures step(init[i]).Saved? {
          assert init[i] == codes[i];
        }
      }
      if exists i :: 0 <= i < |codes| && step(codes[i]).Failed? {
        var i :| 0 <= i < |codes| && step(codes[i]).Failed?;
        if i < |init| {
          assert init[i] == codes[i];
        }
      }
    }
  }

  /** With an encoding selector outside the two supported ones every code
      fails and the manifest stays empty. */
  lemma {:induction false} ManifestUnsupported(lib: Library, logoLoaded: bool, codes: seq<string>)
    ensures Manifest(Step(lib, Unsupported, logoLoaded), codes) == []
  {
    if codes != [] {
      ManifestUnsupported(lib, logoLoaded, codes[..|codes| - 1]);
    }
  }

  /** The QR code object, built once per batch and reused for every code. */
  class QrCode {
    const config: QrConfig
    /** The data added since the last `clear()`. */
    var dataList: seq<string>

    constructor (config: QrConfig)
      ensures this.config == config && dataList == []
    {
      this.config := config;
      dataList := [];
    }

    /** `qr.clear()`: forgets the previous code's data. */
    method Clear()
      modifies this
      ensures dataList == []
    {
      dataList := [];
    }

    /** `qr.add_data(code)`. */
    method AddData(data: string)
      modifies this
      ensures dataList == old(dataList) + [data]
    {
      dataList := dataList + [data];
    }
  }

  /** The manifest file, opened for writing: its lines so far. */
  class ManifestFile {
    var lines: seq<string>

    /** `open(manifest_path, "w")`: a fresh, empty file. */
    constructor Open()
      ensures lines == []
    {
      lines := [];
    }

    /** `manifest.write(line)`. */
    method Write(line: string)
      modifies this
      ensures lines == old(lines) + [line]
    {
      lines := lines + [line];
    }
  }

  /** The `try` block of generate.py:177-202 for one code, run with the
      batch's QR object: what it saved, or the step that raised. */
  method TryEncode(lib: Library, encoding: EncodingType, logoLoaded: bool, qr: QrCode?, code: string)
    returns (o: Outcome)
    requires encoding == Qr ==> qr != null && qr.config == BatchQrConfig
    modifies qr
    ensures o == EncodeOne(lib, encoding, logoLoaded, code)
    ensures encoding == Qr ==> qr.dataList == [code]
    ensures encoding != Qr && qr != null ==> qr.dataList == old(qr.dataList)
  {
    var fileName := FileName(code);
    match encoding {
      case Ean13 =>
        var barcode := EanPayload(code);
        if lib.writeBarcode(barcode, fileName) {
          o := Saved(fileName, BarcodeImage(barcode));
        } else {
          o := Failed(BarcodeFailed);
        }
      case Qr =>
        qr.Clear();
        qr.AddData(code);
        assert qr.dataList == [code];
        var rendered := lib.renderQr(qr.config, qr.dataList);
        if rendered.None? {
          o := Failed(RenderFailed);
        } else {
          var img := MatrixImage(qr.dataList, rendered.value, None);
          var pasted := true;
          if logoLoaded {
            var pos := LogoPlacement(rendered.value);
            img := img.(logo := Some(pos));
            pasted := lib.pasteLogo(pos);
          }
          if !pasted {
            o := Failed(LogoFailed);
          } else if lib.saveImage(img, fileName) {
            o := Saved(fileName, img);
          } else {
            o := Failed(SaveFailed);
          }
        }
      case Unsupported =>
        o := Failed(UnsupportedType);
    }
  }

  /** The encoding loop of generate.py:164-208. Returns the lines written
      to the manifest: exactly `Manifest(...)`. */
  method GenerateEncodedImages(codes: seq<string>, encoding: EncodingType, logoLoaded: bool, lib: Library)
    returns (written: seq<string>)
    ensures written == Manifest(Step(lib, encoding, logoLoaded), codes)
  {
    var qr: QrCode? := null;
    if encoding == Qr {
      qr := new QrCode(BatchQrConfig);
    }
    var manifest := new ManifestFile.Open();
    for i := 0 to |codes|
      invariant encoding == Qr ==> qr != null && qr.config == BatchQrConfig
      invariant manifest.lines == Manifest(Step(lib, encoding, logoLoaded), codes[..i])
    {
      var code := codes[i];
      var outcome := TryEncode(lib, encoding, logoLoaded, qr, code);
      if outcome.Saved? {
        manifest.Write(outcome.fileName + "," + code + "\n");
      }
      assert codes[..i + 1] == codes[..i] + [code];
      ManifestSnoc(Step(lib, encoding, logoLoaded), codes[..i], code);
    }
    assert codes[..|codes|] == codes;
    written := manifest.lines;
  }
}
