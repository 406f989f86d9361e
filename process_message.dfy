/**
 * The background job (worker/jobs/process_message.py): a job holds the
 * user, the input type and the payload dict; running it dispatches on the
 * type to the worker's handlers, returns nothing when the payload lacks
 * the input, and turns an exception escaping a handler into a failure dict.
 */
module ProcessMessage {
  import opened Wrappers
  import opened Json
  import W = Worker

  /** `InputType` */
  datatype InputType = TextInput | ImageInput | AudioInput
  {
    function Value(): string {
      match this
      case TextInput => "text"
      case ImageInput => "image"
      case AudioInput => "audio"
    }
  }

  /** The constructor's coercion: a known value is kept, anything else becomes TEXT. */
  function Coerce(s: string): (t: InputType)
    ensures t.Value() == s <==> s in {"text", "image", "audio"}
    ensures s !in {"text", "image", "audio"} ==> t == TextInput
  {
    if s == "image" then ImageInput
    else if s == "audio" then AudioInput
    else TextInput
  }

  /** What `execute` returns: None, a handler's dict, or the dict built from an exception. */
  datatype JobResult =
    | NoResult
    | Ran(outcome: W.Outcome)
    | JobFailed(userId: int, inputType: string)

  /**
   * The payload values the model covers: a truthy "text" is a string or a
   * scalar, and a truthy "receipt_id" is an integer.
   */
  predicate Payload(data: map<string, Json>) {
    && (var text := Get(data, "text", JStr("")); Truthy(text) ==> !text.JArr? && !text.JObj?)
    && (var id := Get(data, "receipt_id", JNull); Truthy(id) ==> id.JInt?)
  }

  /** The receipt id as the handler sees it; a falsy one is no id. */
  function ReceiptId(data: map<string, Json>): (r: Option<int>)
    requires Payload(data)
    ensures r.Some? <==> Truthy(Get(data, "receipt_id", JNull))
  {
    var id := Get(data, "receipt_id", JNull);
    if Truthy(id) then Some(id.i) else None
  }

  /** What `execute` does, from the worker's log before it to the log after it. */
  function ExecuteSpec(e: W.Env, userId: int, inputType: InputType, data: map<string, Json>, s: W.Log): (W.Log, JobResult)
    requires Payload(data)
  {
    match inputType
    case TextInput =>
      var text := Get(data, "text", JStr(""));
      if !Truthy(text) then (s, NoResult)
      else if !text.JStr? then (s, JobFailed(userId, inputType.Value()))
      else
        var run := W.TextSpec(e, userId, text.s, s);
        (run.0, Ran(run.1))
    case ImageInput =>
      var path := Get(data, "file_path", JNull);
      if !Truthy(path) then (s, NoResult)
      else if !path.JStr? then (s, Ran(W.Failure(Some(W.ImageSource), W.ImageFailed, Some(W.ImageNotLoaded), None)))
      else
        var run := W.ImageSpec(e, userId, path.s, ReceiptId(data), s);
        (run.0, Ran(run.1))
    case AudioInput =>
      var path := Get(data, "file_path", JNull);
      if !Truthy(path) then (s, NoResult)
      else if !path.JStr? then (s, Ran(W.Failure(Some(W.AudioSource), W.VoiceUnclear, None, None)))
      else
        var run := W.AudioSpec(e, userId, path.s, s);
        (run.0, Ran(run.1))
  }

  class ProcessMessageJob {
    const userId: int
    const inputType: InputType
    const data: map<string, Json>

    /** `__init__` */
    constructor(userId: int, inputType: string, data: map<string, Json>)
      ensures this.userId == userId && this.data == data
      ensures this.inputType == Coerce(inputType)
    {
      this.userId := userId;
      this.inputType := Coerce(inputType);
      this.data := data;
    }

    /** `execute` */
    method Execute(worker: W.Worker) returns (r: JobResult)
      requires worker.Valid() && Payload(data)
      modifies worker, worker.store
      ensures (worker.State(), r) == ExecuteSpec(worker.env(), userId, inputType, data, old(worker.State()))
    {
      match inputType
      case TextInput =>
        var text := Get(data, "text", JStr(""));
        if !Truthy(text) {
          return NoResult;
        }
        if !text.JStr? {
          // `len(text)` in the handler's first log line raises TypeError.
          return JobFailed(userId, inputType.Value());
        }
        var o := worker.ProcessText(userId, text.s);
        r := Ran(o);
      case ImageInput =>
        var path := Get(data, "file_path", JNull);
        if !Truthy(path) {
          return NoResult;
        }
        if !path.JStr? {
          // Loading a path that is not a string fails inside the handler.
          return Ran(W.Failure(Some(W.ImageSource), W.ImageFailed, Some(W.ImageNotLoaded), None));
        }
        var o := worker.ProcessImage(userId, path.s, ReceiptId(data));
        r := Ran(o);
      case AudioInput =>
        var path := Get(data, "file_path", JNull);
        if !Truthy(path) {
          return NoResult;
        }
        if !path.JStr? {
          // The transcriber swallows the error and returns None.
          return Ran(W.Failure(Some(W.AudioSource), W.VoiceUnclear, None, None));
        }
        var o := worker.ProcessAudio(userId, path.s);
        r := Ran(o);
    }
  }

  /** A payload without its input gives None and changes nothing. */
  lemma MissingInputSkipped(e: W.Env, userId: int, inputType: InputType, data: map<string, Json>, s: W.Log)
    requires Payload(data)
    requires inputType == TextInput ==> !Truthy(Get(data, "text", JStr("")))
    requires inputType != TextInput ==> !Truthy(Get(data, "file_path", JNull))
    ensures ExecuteSpec(e, userId, inputType, data, s) == (s, NoResult)
  {
  }

  /** Only a text job whose text is a number or a boolean ends in the exception dict, labelled "text". */
  lemma JobFailedOnlyForScalarText(e: W.Env, userId: int, inputType: InputType, data: map<string, Json>, s: W.Log)
    requires Payload(data)
    ensures ExecuteSpec(e, userId, inputType, data, s).1.JobFailed? <==>
      inputType == TextInput && Truthy(Get(data, "text", JStr(""))) && !Get(data, "text", JStr("")).JStr?
    ensures ExecuteSpec(e, userId, inputType, data, s).1.JobFailed? ==>
      ExecuteSpec(e, userId, inputType, data, s) == (s, JobFailed(userId, "text"))
  {
  }

  /** The string form of a payload entry, as the background entry point receives it. */
  function StringArg(v: Json): Option<string> {
    if v.JStr? then Some(v.s) else None
  }

  /**
   * On a string payload, a job that finds its input does exactly what
   * `process_message_background` does with the same arguments.
   */
  lemma ExecuteAgreesWithBackground(e: W.Env, userId: int, inputType: InputType, data: map<string, Json>, s: W.Log)
    requires Payload(data)
    requires Get(data, "text", JStr("")).JStr? && Get(data, "file_path", JNull).JStr?
    requires ExecuteSpec(e, userId, inputType, data, s).1 != NoResult
    ensures var bg := W.BackgroundSpec(e, userId, inputType.Value(), StringArg(Get(data, "text", JStr(""))),
                                        StringArg(Get(data, "file_path", JNull)), ReceiptId(data), s);
      ExecuteSpec(e, userId, inputType, data, s) == (bg.0, Ran(bg.1))
  {
    var text := Get(data, "text", JStr(""));
    var path := Get(data, "file_path", JNull);
    var bg := W.BackgroundSpec(e, userId, inputType.Value(), StringArg(text), StringArg(path), ReceiptId(data), s);
    match inputType
    case TextInput =>
      assert bg == W.TextSpec(e, userId, text.s, s);
    case ImageInput =>
      assert bg == W.ImageSpec(e, userId, path.s, ReceiptId(data), s);
    case AudioInput =>
      assert bg == W.AudioSpec(e, userId, path.s, s);
  }

  /** A receipt id in the payload reaches the image handler unchanged. */
  lemma ReceiptIdPassedThrough(data: map<string, Json>, id: int)
    requires "receipt_id" in data && data["receipt_id"] == JInt(id) && id != 0
    requires Payload(data)
    ensures ReceiptId(data) == Some(id)
  {
  }
}
