/**
 * Prompt construction (worker/llm/prompts.py): which template an input
 * source selects and how the user's input is framed after it. The template
 * prose is a parameter: only where the input goes matters here.
 */
module Prompts {
  import opened Text

  /**
   * The fixed prose of the templates. The two analysis prompts whose money
   * values are formatted are split at those values.
   */
  datatype Templates = Templates(
    textSystem: string,
    textExamples: string,
    receiptSystem: string,
    audioSystem: string,
    balanceBefore: string,
    balanceAfter: string,
    simulationScenario: string,
    simulationBalance: string,
    simulationAverage: string,
    simulationHistory: string,
    simulationAfter: string)

  /** `_build_text_prompt`: the input between double quotes after "Input: ". */
  function TextPrompt(t: Templates, input: string): (p: string)
  {
    t.textSystem + "\n" + t.textExamples + "\n" + "\nInput: \"" + input + "\"\nOutput:"
  }

  /** `_build_receipt_prompt`: the OCR text between triple quotes. */
  function ReceiptPrompt(t: Templates, ocrText: string): (p: string)
  {
    t.receiptSystem + "\n" + "\nInput (OCR Result):\n\"\"\"\n" + ocrText + "\n\"\"\"\n\nOutput:"
  }

  /** `_build_audio_prompt`: the transcription in double quotes on its own line. */
  function AudioPrompt(t: Templates, transcript: string): (p: string)
  {
    t.audioSystem + "\n" + "\nInput (Voice Transcription):\n\"" + transcript + "\"\n\nOutput:"
  }

  /** `build_prompt`: "ocr" and "audio" pick their templates, anything else the text one. */
  function BuildPrompt(t: Templates, input: string, source: string): (p: string)
    ensures source == "ocr" ==> p == ReceiptPrompt(t, input)
    ensures source == "audio" ==> p == AudioPrompt(t, input)
    ensures source != "ocr" && source != "audio" ==> p == TextPrompt(t, input)
  {
    if source == "ocr" then ReceiptPrompt(t, input)
    else if source == "audio" then AudioPrompt(t, input)
    else TextPrompt(t, input)
  }

  /** A prompt made of a fixed head, the input, and a fixed tail. */
  predicate Frames(p: string, head: string, input: string, tail: string) {
    p == head + input + tail
  }

  /** A framed input can be read back: the same frame around two inputs gives two prompts. */
  lemma FramedInjective(head: string, a: string, b: string, tail: string)
    requires head + a + tail == head + b + tail
    ensures a == b
  {
    var x := head + a + tail;
    assert |a| == |b|;
    assert forall i :: 0 <= i < |a| ==> a[i] == x[|head| + i] == b[i];
  }

  /** Each builder puts its input verbatim between a head and a tail that do not depend on it. */
  lemma BuildersFrameInput(t: Templates, input: string)
    ensures Frames(TextPrompt(t, input), t.textSystem + "\n" + t.textExamples + "\n" + "\nInput: \"", input, "\"\nOutput:")
    ensures Frames(ReceiptPrompt(t, input), t.receiptSystem + "\n" + "\nInput (OCR Result):\n\"\"\"\n", input, "\n\"\"\"\n\nOutput:")
    ensures Frames(AudioPrompt(t, input), t.audioSystem + "\n" + "\nInput (Voice Transcription):\n\"", input, "\"\n\nOutput:")
  {
    var th := t.textSystem + "\n" + t.textExamples + "\n" + "\nInput: \"";
    assert TextPrompt(t, input) == th + input + "\"\nOutput:";
    var rh := t.receiptSystem + "\n" + "\nInput (OCR Result):\n\"\"\"\n";
    assert ReceiptPrompt(t, input) == rh + input + "\n\"\"\"\n\nOutput:";
    var ah := t.audioSystem + "\n" + "\nInput (Voice Transcription):\n\"";
    assert AudioPrompt(t, input) == ah + input + "\"\n\nOutput:";
  }

  /** Prompt building is deterministic and loses nothing: different inputs give different prompts. */
  lemma BuildPromptInjective(t: Templates, a: string, b: string, source: string)
    requires BuildPrompt(t, a, source) == BuildPrompt(t, b, source)
    ensures a == b
  {
    BuildersFrameInput(t, a);
    BuildersFrameInput(t, b);
    if source == "ocr" {
      FramedInjective(t.receiptSystem + "\n" + "\nInput (OCR Result):\n\"\"\"\n", a, b, "\n\"\"\"\n\nOutput:");
    } else if source == "audio" {
      FramedInjective(t.audioSystem + "\n" + "\nInput (Voice Transcription):\n\"", a, b, "\"\n\nOutput:");
    } else {
      FramedInjective(t.textSystem + "\n" + t.textExamples + "\n" + "\nInput: \"", a, b, "\"\nOutput:");
    }
  }

  /** `build_balance_prediction_prompt`: the balance written with comma thousands grouping. */
  function BalancePredictionPrompt(t: Templates, history: string, balance: int): (p: string)
  {
    t.balanceBefore + history + "\n\nSaldo saat ini: Rp " + Group(balance, ",") + t.balanceAfter
  }

  /** `build_saving_simulation_prompt`: both money values with comma thousands grouping. */
  function SavingSimulationPrompt(t: Templates, scenario: string, balance: int, dailyAverage: int, summary: string): (p: string)
  {
    t.simulationScenario + scenario + t.simulationBalance + Group(balance, ",")
    + t.simulationAverage + Group(dailyAverage, ",") + t.simulationHistory + summary + t.simulationAfter
  }

  /**
   * The balance appears in its prompt right after "Rp ", comma-grouped, and
   * reads back as the balance once the commas are dropped.
   */
  lemma BalanceShownGrouped(t: Templates, history: string, balance: nat)
    ensures exists head, tail :: BalancePredictionPrompt(t, history, balance) == head + "Rp " + Group(balance, ",") + tail
    ensures DigitsValue(DigitsOnly(Group(balance, ","))) == balance
  {
    var head := t.balanceBefore + history + "\n\nSaldo saat ini: ";
    assert BalancePredictionPrompt(t, history, balance) == head + "Rp " + Group(balance, ",") + t.balanceAfter;
    GroupedValue(balance, ",");
  }

  /** Both money values of the simulation prompt are comma-grouped and read back. */
  lemma SimulationShownGrouped(t: Templates, scenario: string, balance: nat, dailyAverage: nat, summary: string)
    ensures exists a, b, c :: (SavingSimulationPrompt(t, scenario, balance, dailyAverage, summary)
      == a + Group(balance, ",") + b + Group(dailyAverage, ",") + c)
    ensures DigitsValue(DigitsOnly(Group(balance, ","))) == balance
    ensures DigitsValue(DigitsOnly(Group(dailyAverage, ","))) == dailyAverage
  {
    var a := t.simulationScenario + scenario + t.simulationBalance;
    var c := t.simulationHistory + summary + t.simulationAfter;
    assert SavingSimulationPrompt(t, scenario, balance, dailyAverage, summary)
      == a + Group(balance, ",") + t.simulationAverage + Group(dailyAverage, ",") + c;
    GroupedValue(balance, ",");
    GroupedValue(dailyAverage, ",");
  }
}
