/**
 * Multi-PSM OCR (worker/ocr/tesseract.py): the engine is run once per page
 * segmentation mode, in a fixed order, and the attempt with the highest mean
 * token confidence whose stripped text is longer than ten characters wins.
 * The engine itself is a parameter: what it reads for each mode.
 */
module Tesseract {
  import opened Wrappers
  import opened Text

  /** The page segmentation modes, in the order they are tried. */
  const PsmModes: seq<int> := [6, 4, 3, 11]

  /** An attempt needs strictly more stripped characters than this to be kept. */
  const MinChars: nat := 10

  /**
   * What the engine gives for one mode: the text and `str(c)` of every entry
   * of its "conf" list (an absent list is empty), or the error it raised.
   */
  datatype PsmOutcome = Read(text: string, conf: seq<string>) | Failed(error: string)

  /** An entry that counts: `str(c).isdigit() and int(c) > 0`. */
  predicate CountedConf(c: string) {
    c != [] && AllDigits(c) && DigitsValue(c) > 0
  }

  /** The counted entries' values, in order. */
  function CountedConfs(conf: seq<string>): (r: seq<nat>)
    ensures forall k :: 0 <= k < |r| ==> r[k] > 0
    ensures r == [] <==> forall k :: 0 <= k < |conf| ==> !CountedConf(conf[k])
  {
    if conf == [] then []
    else
      var rest := CountedConfs(conf[1..]);
      assert forall j :: 0 <= j < |conf| - 1 ==> conf[1..][j] == conf[j + 1];
      if CountedConf(conf[0]) then [DigitsValue(conf[0])] + rest else rest
  }

  function Sum(xs: seq<nat>): (s: nat)
    ensures (forall k :: 0 <= k < |xs| ==> xs[k] > 0) ==> (s > 0 <==> xs != [])
  {
    if xs == [] then 0 else xs[0] + Sum(xs[1..])
  }

  /** The mean of the counted entries, 0 when none counts. */
  function MeanConfidence(conf: seq<string>): (r: real)
    ensures r >= 0.0
    ensures r > 0.0 <==> exists k :: 0 <= k < |conf| && CountedConf(conf[k])
  {
    var xs := CountedConfs(conf);
    if xs == [] then 0.0 else (Sum(xs) as real) / (|xs| as real)
  }

  lemma {:induction false} SumAtMost(xs: seq<nat>, m: nat)
    requires forall k :: 0 <= k < |xs| ==> xs[k] <= m
    ensures Sum(xs) <= |xs| * m
  {
    if xs != [] {
      SumAtMost(xs[1..], m);
      assert |xs| * m == m + (|xs| - 1) * m;
    }
  }

  lemma {:induction false} CountedAtMost(conf: seq<string>, m: nat)
    requires forall k :: 0 <= k < |conf| && CountedConf(conf[k]) ==> DigitsValue(conf[k]) <= m
    ensures forall k :: 0 <= k < |CountedConfs(conf)| ==> CountedConfs(conf)[k] <= m
  {
    if conf != [] {
      assert forall j :: 0 <= j < |conf| - 1 ==> conf[1..][j] == conf[j + 1];
      CountedAtMost(conf[1..], m);
    }
  }

  lemma DivideAtMost(s: nat, n: nat, m: nat)
    requires n > 0 && s <= n * m
    ensures (s as real) / (n as real) <= m as real
  {
    var a, b, c := s as real, n as real, m as real;
    assert a <= b * c;
    assert a / b * b == a;
  }

  /** When every counted entry is at most `m` (Tesseract reports up to 100), so is the mean. */
  lemma MeanAtMost(conf: seq<string>, m: nat)
    requires forall k :: 0 <= k < |conf| && CountedConf(conf[k]) ==> DigitsValue(conf[k]) <= m
    ensures MeanConfidence(conf) <= m as real
  {
    var xs := CountedConfs(conf);
    if xs != [] {
      CountedAtMost(conf, m);
      SumAtMost(xs, m);
      DivideAtMost(Sum(xs), |xs|, m);
    }
  }

  /** Confidence of one outcome; a failed mode has none. */
  function Confidence(o: PsmOutcome): real {
    if o.Read? then MeanConfidence(o.conf) else 0.0
  }

  /** Long enough to be kept. */
  predicate Eligible(o: PsmOutcome) {
    o.Read? && |Strip(o.text)| > MinChars
  }

  /** One entry of `attempts`. */
  datatype Attempt =
    | Attempt(psm: int, textLength: nat, confidence: real)
    | AttemptError(psm: int, error: string)

  function AttemptOf(psm: int, o: PsmOutcome): (a: Attempt)
    ensures a.psm == psm
    ensures a.AttemptError? <==> o.Failed?
    ensures a.Attempt? ==> a.textLength == |Strip(o.text)| && a.confidence == Confidence(o)
  {
    match o
    case Read(text, conf) => Attempt(psm, |Strip(text)|, MeanConfidence(conf))
    case Failed(e) => AttemptError(psm, e)
  }

  /** The attempts log after trying `psms`. */
  function Attempts(engine: int -> PsmOutcome, psms: seq<int>): seq<Attempt> {
    seq(|psms|, i requires 0 <= i < |psms| => AttemptOf(psms[i], engine(psms[i])))
  }

  /** Trying the next mode appends exactly its entry to the log. */
  lemma AttemptsSnoc(engine: int -> PsmOutcome, psms: seq<int>, i: int)
    requires 0 <= i < |psms|
    ensures Attempts(engine, psms[..i + 1]) == Attempts(engine, psms[..i]) + [AttemptOf(psms[i], engine(psms[i]))]
  {
    var a := Attempts(engine, psms[..i + 1]);
    var b := Attempts(engine, psms[..i]) + [AttemptOf(psms[i], engine(psms[i]))];
    forall k | 0 <= k <= i ensures a[k] == b[k] {
      assert psms[..i + 1][k] == psms[k];
      if k < i {
        assert psms[..i][k] == psms[k];
      }
    }
  }

  /** `best_text`, `best_confidence`, `best_psm`. */
  datatype Best = Best(text: string, confidence: real, psm: Option<int>)

  /** One iteration's update of the best attempt. */
  function Step(b: Best, psm: int, o: PsmOutcome): Best {
    if o.Read? && Confidence(o) > b.confidence && |Strip(o.text)| > MinChars
    then Best(Strip(o.text), Confidence(o), Some(psm))
    else b
  }

  /** The best attempt after trying `psms` in order. */
  function Run(engine: int -> PsmOutcome, psms: seq<int>): (b: Best)
    ensures b.confidence >= 0.0
    ensures b.psm.None? <==> b.text == []
    ensures b.psm.None? ==> b.confidence == 0.0
    decreases |psms|
  {
    if psms == [] then Best("", 0.0, None)
    else
      var n := |psms| - 1;
      Step(Run(engine, psms[..n]), psms[n], engine(psms[n]))
  }

  /** Trying the next mode is one more step. */
  lemma RunSnoc(engine: int -> PsmOutcome, psms: seq<int>, i: int)
    requires 0 <= i < |psms|
    ensures Run(engine, psms[..i + 1]) == Step(Run(engine, psms[..i]), psms[i], engine(psms[i]))
  {
    assert psms[..i + 1][..i] == psms[..i];
  }

  /** A step never lowers the best confidence and reaches an eligible attempt's. */
  lemma StepRaises(b: Best, psm: int, o: PsmOutcome)
    ensures Step(b, psm, o).confidence >= b.confidence
    ensures Eligible(o) ==> Confidence(o) <= Step(b, psm, o).confidence
  {
  }

  /** No eligible attempt scored more than the recorded best. */
  lemma {:induction false} RunDominates(engine: int -> PsmOutcome, psms: seq<int>)
    ensures forall j :: 0 <= j < |psms| && Eligible(engine(psms[j])) ==>
      Confidence(engine(psms[j])) <= Run(engine, psms).confidence
    decreases |psms|
  {
    if psms != [] {
      var n := |psms| - 1;
      var prev := Run(engine, psms[..n]);
      RunDominates(engine, psms[..n]);
      StepRaises(prev, psms[n], engine(psms[n]));
      assert Run(engine, psms) == Step(prev, psms[n], engine(psms[n]));
      forall j | 0 <= j < |psms| && Eligible(engine(psms[j]))
        ensures Confidence(engine(psms[j])) <= Run(engine, psms).confidence
      {
        if j < n {
          assert psms[..n][j] == psms[j];
        }
      }
    }
  }

  /**
   * Attempt `k` won: it is eligible, it is the recorded text, mode and
   * confidence, its confidence is positive and every eligible attempt
   * before it scored strictly less.
   */
  predicate IsWinner(engine: int -> PsmOutcome, psms: seq<int>, k: int, b: Best) {
    && 0 <= k < |psms|
    && Eligible(engine(psms[k]))
    && b == Best(Strip(engine(psms[k]).text), Confidence(engine(psms[k])), Some(psms[k]))
    && b.confidence > 0.0
    && forall j :: 0 <= j < k && Eligible(engine(psms[j])) ==> Confidence(engine(psms[j])) < b.confidence
  }

  /** A recorded best attempt is the first eligible attempt of highest confidence. */
  lemma {:induction false} RunWinner(engine: int -> PsmOutcome, psms: seq<int>)
    requires Run(engine, psms).psm.Some?
    ensures exists k :: IsWinner(engine, psms, k, Run(engine, psms))
    decreases |psms|
  {
    var n := |psms| - 1;
    var prev := Run(engine, psms[..n]);
    RunDominates(engine, psms[..n]);
    assert forall j :: 0 <= j < n ==> psms[..n][j] == psms[j];
    if Run(engine, psms) == prev {
      RunWinner(engine, psms[..n]);
      var k :| IsWinner(engine, psms[..n], k, prev);
      assert IsWinner(engine, psms, k, prev);
    } else {
      assert IsWinner(engine, psms, n, Run(engine, psms));
    }
  }

  /** The result when the engine is installed, and when it is not. */
  datatype Meta =
    | Meta(confidence: real, psmUsed: Option<int>, wordCount: nat, charCount: nat, attempts: seq<Attempt>)
    | Unavailable

  function MetaOf(b: Best, attempts: seq<Attempt>): Meta {
    Meta(b.confidence, b.psm, if b.text != [] then |Split(b.text)| else 0, |b.text|, attempts)
  }

  /** `TesseractOCR.extract_text` */
  method ExtractText(available: bool, engine: int -> PsmOutcome) returns (text: string, meta: Meta)
    ensures !available ==> text == [] && meta == Unavailable
    ensures available ==> text == Run(engine, PsmModes).text
    ensures available ==> meta == MetaOf(Run(engine, PsmModes), Attempts(engine, PsmModes))
  {
    if !available {
      return "", Unavailable;
    }
    var best, attempts := TryModes(engine);
    var wordCount := if best.text != [] then |Split(best.text)| else 0;
    text := best.text;
    meta := Meta(best.confidence, best.psm, wordCount, |best.text|, attempts);
  }

  /** The loop of `extract_text` over the modes: the best attempt and the attempts log. */
  method TryModes(engine: int -> PsmOutcome) returns (best: Best, attempts: seq<Attempt>)
    ensures best == Run(engine, PsmModes)
    ensures attempts == Attempts(engine, PsmModes)
  {
    var bestText: string := "";
    var bestConfidence: real := 0.0;
    var bestPsm: Option<int> := None;
    attempts := [];
    for i := 0 to |PsmModes|
      invariant Best(bestText, bestConfidence, bestPsm) == Run(engine, PsmModes[..i])
      invariant attempts == Attempts(engine, PsmModes[..i])
    {
      var psm := PsmModes[i];
      AttemptsSnoc(engine, PsmModes, i);
      RunSnoc(engine, PsmModes, i);
      match engine(psm)
      case Failed(e) =>
        attempts := attempts + [AttemptError(psm, e)];
      case Read(t, conf) =>
        var avgConfidence := MeanConfidence(conf);
        attempts := attempts + [Attempt(psm, |Strip(t)|, avgConfidence)];
        if avgConfidence > bestConfidence && |Strip(t)| > MinChars {
          bestText := Strip(t);
          bestConfidence := avgConfidence;
          bestPsm := Some(psm);
        }
    }
    assert PsmModes[..|PsmModes|] == PsmModes;
    best := Best(bestText, bestConfidence, bestPsm);
  }

  /** One attempt per mode, in the fixed order, failed ones included. */
  lemma AttemptsInOrder(engine: int -> PsmOutcome)
    ensures |Attempts(engine, PsmModes)| == 4
    ensures forall i :: 0 <= i < 4 ==> Attempts(engine, PsmModes)[i].psm == PsmModes[i]
    ensures forall i :: 0 <= i < 4 ==>
      (Attempts(engine, PsmModes)[i].AttemptError? <==> engine(PsmModes[i]).Failed?)
  {
  }

  /**
   * The returned text is empty or the stripped text of an attempt longer
   * than ten characters; the mode is recorded exactly when text is.
   */
  lemma BestTextShape(engine: int -> PsmOutcome)
    ensures var b := Run(engine, PsmModes);
      b.text == [] || exists k :: 0 <= k < 4 && Eligible(engine(PsmModes[k])) && b.text == Strip(engine(PsmModes[k]).text)
    ensures Run(engine, PsmModes).psm.None? <==> Run(engine, PsmModes).text == []
  {
    var b := Run(engine, PsmModes);
    if b.psm.Some? {
      RunWinner(engine, PsmModes);
      var k :| IsWinner(engine, PsmModes, k, b);
      assert Eligible(engine(PsmModes[k]));
    }
  }
}
