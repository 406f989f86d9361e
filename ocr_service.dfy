/**
 * The receipt OCR pipeline (worker/services/ocr_service.py): one normal
 * pass, a second aggressive pass when the first read (almost) nothing, and
 * a success verdict on the final text. Loading and preprocessing the image
 * are outside the model: the image says whether it loads and what the
 * engine reads for each mode after normal or aggressive preprocessing.
 */
module OcrService {
  import opened Text
  import opened Tesseract

  /** A receipt image as the pipeline sees it. */
  datatype Image = Image(
    loads: bool,
    engineInstalled: bool,
    scan: bool -> (int -> PsmOutcome))

  /** One OCR pass: `extract_text` on the image preprocessed normally or aggressively. */
  function Pass(img: Image, aggressive: bool): (string, Meta) {
    if !img.engineInstalled then ("", Unavailable)
    else
      var b := Run(img.scan(aggressive), PsmModes);
      (b.text, MetaOf(b, Attempts(img.scan(aggressive), PsmModes)))
  }

  /** The retry condition: nothing read, or under 5 characters once stripped. */
  predicate Weak(text: string) {
    text == [] || |Strip(text)| < 5
  }

  /** The success condition: more than 5 characters once stripped. */
  predicate Readable(text: string) {
    text != [] && |Strip(text)| > 5
  }

  /** The final pass: the normal one, or the aggressive one when the normal one was weak. */
  function FinalPass(img: Image): (string, Meta) {
    var first := Pass(img, false);
    if Weak(first.0) then Pass(img, true) else first
  }

  datatype Metadata = EngineMeta(meta: Meta) | LoadError

  datatype ReceiptResult = ReceiptResult(success: bool, ocrText: string, metadata: Metadata)

  /** What `process_receipt_image` returns. */
  function Receipt(img: Image): (r: ReceiptResult)
    ensures !img.loads ==> r == ReceiptResult(false, "", LoadError)
    ensures img.loads ==> r.ocrText == FinalPass(img).0 && (r.success <==> Readable(FinalPass(img).0))
  {
    if !img.loads then ReceiptResult(false, "", LoadError)
    else
      var f := FinalPass(img);
      ReceiptResult(Readable(f.0), f.0, EngineMeta(f.1))
  }

  /** One engine call on the image preprocessed one way or the other. */
  method ExtractOnce(img: Image, aggressive: bool) returns (text: string, meta: Meta)
    ensures (text, meta) == Pass(img, aggressive)
  {
    text, meta := ExtractText(img.engineInstalled, img.scan(aggressive));
  }

  /**
   * `process_receipt_image`. `passes` lists the passes made, as whether
   * each was aggressive.
   */
  method ProcessReceiptImage(img: Image) returns (r: ReceiptResult, ghost passes: seq<bool>)
    ensures r == Receipt(img)
    ensures img.loads ==> passes == (if Weak(Pass(img, false).0) then [false, true] else [false])
    ensures !img.loads ==> passes == []
  {
    if !img.loads {
      return ReceiptResult(false, "", LoadError), [];
    }
    var text, meta := ExtractOnce(img, false);
    passes := [false];
    if text == [] || |Strip(text)| < 5 {
      text, meta := ExtractOnce(img, true);
      passes := passes + [true];
    }
    r := ReceiptResult(text != [] && |Strip(text)| > 5, text, EngineMeta(meta));
  }

  /** A text of exactly five stripped characters is neither retried nor a success. */
  lemma ThresholdGap(text: string)
    requires |Strip(text)| == 5
    ensures !Weak(text) && !Readable(text)
  {
  }

  /**
   * With this engine, a pass reads either nothing or more than ten
   * characters, so the gap is never reached: a retry happens exactly when
   * the first pass read nothing, and success means the final text is non-empty.
   */
  lemma EngineAvoidsGap(img: Image)
    requires img.loads
    ensures Weak(Pass(img, false).0) <==> Pass(img, false).0 == []
    ensures Receipt(img).success <==> FinalPass(img).0 != []
  {
    PassShape(img, false);
    PassShape(img, true);
  }

  lemma PassShape(img: Image, aggressive: bool)
    ensures Pass(img, aggressive).0 == [] || |Strip(Pass(img, aggressive).0)| > MinChars
  {
    if img.engineInstalled {
      var b := Run(img.scan(aggressive), PsmModes);
      if b.psm.Some? {
        RunWinner(img.scan(aggressive), PsmModes);
        var k :| IsWinner(img.scan(aggressive), PsmModes, k, b);
        StripIdempotent(img.scan(aggressive)(PsmModes[k]).text);
      }
    }
  }
}
