/**
 * The job runner (app/model/generator.py): the message protocol `stream_worker`
 * puts on the delivery queue, the keyword arguments handed to `model.generate`
 * in both modes, and the slicing and stripping of `generate_full`'s output.
 * Everything torch and transformers do is an opaque field of `Backend`.
 */
module Generator {
  import opened Wrappers
  import opened Config
  import PyStr

  /** The one content part of a chat message the routes build. */
  datatype ContentPart = TextPart(sourceLangCode: string, targetLangCode: string, text: string)

  datatype ChatMessage = ChatMessage(role: string, content: seq<ContentPart>)

  /** A keyword argument value for `model.generate`. */
  datatype Arg = Tensor(handle: nat) | TextStreamer | Flag(b: bool) | Count(n: int) | Real(x: real) | NoneArg

  /** What `apply_chat_template` returns: the model inputs, and the prompt length
      `inputs["input_ids"].shape[-1]`. */
  datatype Prompt = Prompt(inputs: map<string, Arg>, inputLen: nat)

  /** One item of the delivery queue: a text piece, `None` (normal end), or an exception. */
  datatype Msg = Piece(text: string) | Done | Failed(message: string)

  /** Iterating the streamer inside the try block: the pieces it yields, and
      possibly an exception raised in that block once `after` of them have been
      put. An exception of `model.generate` itself is raised in its own thread
      and is not one of these: the streamer then never ends. */
  datatype StreamFailure = StreamFailure(after: nat, message: string)
  datatype Stream = Stream(pieces: seq<string>, failure: Option<StreamFailure>)

  /** The inference backend as the job runner sees it. */
  datatype Backend = Backend(
    loadError: Option<string>,                                // `ensure_loaded()` raising, or not
    template: seq<ChatMessage> -> Result<Prompt, string>,     // `processor.apply_chat_template`
    generate: map<string, Arg> -> Result<seq<int>, string>,   // `model.generate`, row 0 of its output
    decode: seq<int> -> string,                               // `processor.decode(..., skip_special_tokens=True)`
    stream: map<string, Arg> -> Stream)                       // `model.generate` feeding a `TextIteratorStreamer`

  /** The keywords `stream_worker` passes besides the model inputs, in call order. */
  const StreamKeywordOrder: seq<string> := ["streamer", "do_sample", "max_new_tokens"]
  const StreamKeywords: set<string> := {"streamer", "do_sample", "max_new_tokens"}

  /** The keywords `generate_full` passes besides the model inputs, in call order. */
  const FullKeywordOrder: seq<string> := ["do_sample", "max_new_tokens", "temperature", "top_p"]
  const FullKeywords: set<string> := {"do_sample", "max_new_tokens", "temperature", "top_p"}

  const SamplingKeywords: set<string> := {"temperature", "top_p"}

  /** The position in `keys` of the first keyword already in `taken`, or
      `|keys|` when there is none: merging keyword arguments stops there. */
  function FirstClash(keys: seq<string>, taken: set<string>): (i: nat)
    ensures i <= |keys|
    ensures forall j :: 0 <= j < i ==> keys[j] !in taken
    ensures i < |keys| ==> keys[i] in taken
  {
    if keys == [] || keys[0] in taken then 0 else 1 + FirstClash(keys[1..], taken)
  }

  /** The text of the `TypeError` raised for a keyword given twice in one call. */
  function MultipleValues(callee: string, keyword: string): string
  {
    callee + "() got multiple values for keyword argument '" + keyword + "'"
  }

  /** The `kwargs` dict of `stream_worker`: `dict(**inputs, ...)` fails on the
      first repeated keyword; `temperature` and `top_p` are added only when sampling. */
  function StreamKwargs(inputs: map<string, Arg>, cfg: GenerationCfg, maxNew: int): (r: Result<map<string, Arg>, string>)
    ensures r.Err? <==> !(inputs.Keys !! StreamKeywords)
    ensures "streamer" in inputs ==> r == Err(MultipleValues("dict", "streamer"))
    ensures "streamer" !in inputs && "do_sample" in inputs ==> r == Err(MultipleValues("dict", "do_sample"))
    ensures "streamer" !in inputs && "do_sample" !in inputs && "max_new_tokens" in inputs ==>
      r == Err(MultipleValues("dict", "max_new_tokens"))
    ensures r.Ok? ==> r.value.Keys == inputs.Keys + StreamKeywords + (if cfg.doSample then SamplingKeywords else {})
    ensures r.Ok? ==> r.value["streamer"] == TextStreamer && r.value["do_sample"] == Flag(cfg.doSample) &&
                      r.value["max_new_tokens"] == Count(maxNew)
    ensures r.Ok? && cfg.doSample ==> r.value["temperature"] == Real(cfg.temperature) && r.value["top_p"] == Real(cfg.topP)
    ensures r.Ok? ==> forall k :: k in inputs && !(cfg.doSample && k in SamplingKeywords) ==> r.value[k] == inputs[k]
  {
    var i := FirstClash(StreamKeywordOrder, inputs.Keys);
    assert StreamKeywordOrder[0] == "streamer" && StreamKeywordOrder[1] == "do_sample" && StreamKeywordOrder[2] == "max_new_tokens";
    if i < |StreamKeywordOrder| then
      Err(MultipleValues("dict", StreamKeywordOrder[i]))
    else
      var kwargs := inputs["streamer" := TextStreamer]["do_sample" := Flag(cfg.doSample)]["max_new_tokens" := Count(maxNew)];
      if cfg.doSample then
        Ok(kwargs["temperature" := Real(cfg.temperature)]["top_p" := Real(cfg.topP)])
      else
        Ok(kwargs)
  }

  /** The keyword arguments of `generate_full`'s `model.generate` call:
      `temperature` and `top_p` are always passed, as `None` unless sampling;
      the call fails on the first repeated keyword. */
  function FullKwargs(inputs: map<string, Arg>, cfg: GenerationCfg, maxNew: int): (r: Result<map<string, Arg>, string>)
    ensures r.Err? <==> !(inputs.Keys !! FullKeywords)
    ensures "do_sample" in inputs ==> r == Err(MultipleValues("generate", "do_sample"))
    ensures "do_sample" !in inputs && "max_new_tokens" in inputs ==> r == Err(MultipleValues("generate", "max_new_tokens"))
    ensures "do_sample" !in inputs && "max_new_tokens" !in inputs && "temperature" in inputs ==>
      r == Err(MultipleValues("generate", "temperature"))
    ensures "do_sample" !in inputs && "max_new_tokens" !in inputs && "temperature" !in inputs && "top_p" in inputs ==>
      r == Err(MultipleValues("generate", "top_p"))
    ensures r.Ok? ==> r.value.Keys == inputs.Keys + FullKeywords
    ensures r.Ok? ==> r.value["do_sample"] == Flag(cfg.doSample) && r.value["max_new_tokens"] == Count(maxNew)
    ensures r.Ok? ==> r.value["temperature"] == (if cfg.doSample then Real(cfg.temperature) else NoneArg)
    ensures r.Ok? ==> r.value["top_p"] == (if cfg.doSample then Real(cfg.topP) else NoneArg)
    ensures r.Ok? ==> forall k :: k in inputs ==> r.value[k] == inputs[k]
  {
    var i := FirstClash(FullKeywordOrder, inputs.Keys);
    assert FullKeywordOrder[0] == "do_sample" && FullKeywordOrder[1] == "max_new_tokens" &&
           FullKeywordOrder[2] == "temperature" && FullKeywordOrder[3] == "top_p";
    if i < |FullKeywordOrder| then
      Err(MultipleValues("generate", FullKeywordOrder[i]))
    else
      Ok(inputs["do_sample" := Flag(cfg.doSample)]["max_new_tokens" := Count(maxNew)]
               ["temperature" := if cfg.doSample then Real(cfg.temperature) else NoneArg]
               ["top_p" := if cfg.doSample then Real(cfg.topP) else NoneArg])
  }

  /** Both modes agree on the sampling values when sampling; otherwise the full
      mode passes `None` and the streaming mode leaves the keywords out. */
  lemma SamplingArgsAgree(inputs: map<string, Arg>, cfg: GenerationCfg, maxNew: int)
    requires inputs.Keys !! FullKeywords && inputs.Keys !! StreamKeywords
    ensures StreamKwargs(inputs, cfg, maxNew).Ok? && FullKwargs(inputs, cfg, maxNew).Ok?
    ensures cfg.doSample ==> forall k :: k in SamplingKeywords ==>
      k in StreamKwargs(inputs, cfg, maxNew).value &&
      StreamKwargs(inputs, cfg, maxNew).value[k] == FullKwargs(inputs, cfg, maxNew).value[k] != NoneArg
    ensures !cfg.doSample ==> forall k :: k in SamplingKeywords ==>
      k !in StreamKwargs(inputs, cfg, maxNew).value && FullKwargs(inputs, cfg, maxNew).value[k] == NoneArg
  {
  }

  /** `out[0][input_len:]`: the tokens at positions from the prompt length on
      (Python slicing gives the empty sequence past the end). */
  function Generated(output: seq<int>, promptLen: nat): (g: seq<int>)
    ensures |g| == if promptLen <= |output| then |output| - promptLen else 0
    ensures forall i :: 0 <= i < |g| ==> g[i] == output[promptLen + i]
  {
    if promptLen <= |output| then output[promptLen..] else []
  }

  /** The decoded text of the generated tokens, stripped of surrounding whitespace:
      a slice of that text with only whitespace around it. */
  function Completion(output: seq<int>, promptLen: nat, decode: seq<int> -> string): (r: string)
    ensures var d := decode(Generated(output, promptLen));
      && PyStr.LeadingSpace(d) + |r| <= |d|
      && r == d[PyStr.LeadingSpace(d)..PyStr.LeadingSpace(d) + |r|]
      && (forall k :: 0 <= k < PyStr.LeadingSpace(d) ==> PyStr.IsSpace(d[k]))
      && (forall k :: PyStr.LeadingSpace(d) + |r| <= k < |d| ==> PyStr.IsSpace(d[k]))
    ensures r == [] || (!PyStr.IsSpace(r[0]) && !PyStr.IsSpace(r[|r| - 1]))
  {
    PyStr.Strip(decode(Generated(output, promptLen)))
  }

  /** The prompt tokens never reach the decoder: two outputs that agree from the
      prompt length on give the same completion. */
  lemma CompletionIgnoresPrompt(out1: seq<int>, out2: seq<int>, promptLen: nat, decode: seq<int> -> string)
    requires promptLen <= |out1| && promptLen <= |out2|
    requires |out1| == |out2|
    requires forall i :: promptLen <= i < |out1| ==> out1[i] == out2[i]
    ensures Completion(out1, promptLen, decode) == Completion(out2, promptLen, decode)
  {
    assert Generated(out1, promptLen) == Generated(out2, promptLen);
  }

  /** `generate_full`: load, build the prompt, generate, keep the completion.
      Every exception reaches the caller; none is caught here. */
  function GenerateFull(b: Backend, messages: seq<ChatMessage>, cfg: GenerationCfg, maxNew: int): (r: Result<string, string>)
    ensures b.loadError.Some? ==> r == Err(b.loadError.value)
    ensures r.Ok? ==> b.template(messages).Ok?
    ensures b.loadError.None? && b.template(messages).Err? ==> r == Err(b.template(messages).error)
    ensures b.loadError.None? && b.template(messages).Ok? ==>
      var prompt := b.template(messages).value;
      var kwargs := FullKwargs(prompt.inputs, cfg, maxNew);
      && (kwargs.Err? ==> r == Err(kwargs.error))
      && (kwargs.Ok? && b.generate(kwargs.value).Err? ==> r == Err(b.generate(kwargs.value).error))
      && (kwargs.Ok? && b.generate(kwargs.value).Ok? ==>
            r == Ok(Completion(b.generate(kwargs.value).value, prompt.inputLen, b.decode)))
    ensures r.Ok? ==> r.value == [] || (!PyStr.IsSpace(r.value[0]) && !PyStr.IsSpace(r.value[|r.value| - 1]))
  {
    if b.loadError.Some? then Err(b.loadError.value)
    else
      match b.template(messages)
      case Err(e) => Err(e)
      case Ok(prompt) =>
        match FullKwargs(prompt.inputs, cfg, maxNew)
        case Err(e) => Err(e)
        case Ok(kwargs) =>
          match b.generate(kwargs)
          case Err(e) => Err(e)
          case Ok(output) => Ok(Completion(output, prompt.inputLen, b.decode))
  }

  /** How many pieces are put before the streamer stops. */
  function Cut(s: Stream): (n: nat)
    ensures n <= |s.pieces|
    ensures s.failure.None? ==> n == |s.pieces|
    ensures s.failure.Some? ==> n == if s.failure.value.after < |s.pieces| then s.failure.value.after else |s.pieces|
  {
    match s.failure
    case None => |s.pieces|
    case Some(f) => if f.after < |s.pieces| then f.after else |s.pieces|
  }

  function Pieces(texts: seq<string>): (ms: seq<Msg>)
    ensures |ms| == |texts| && forall i :: 0 <= i < |texts| ==> ms[i] == Piece(texts[i])
  {
    seq(|texts|, i requires 0 <= i < |texts| => Piece(texts[i]))
  }

  /** What the try block puts once the streamer runs: the pieces up to the
      failure point, then exactly one terminal item. */
  function StreamMessages(s: Stream): seq<Msg>
  {
    Pieces(s.pieces[..Cut(s)]) + [if s.failure.Some? then Failed(s.failure.value.message) else Done]
  }

  /** Everything `stream_worker` puts on the queue, in order. A load failure
      happens before the try block, so nothing at all is put. */
  function WorkerMessages(b: Backend, messages: seq<ChatMessage>, cfg: GenerationCfg, maxNew: int): seq<Msg>
  {
    if b.loadError.Some? then []
    else
      match b.template(messages)
      case Err(e) => [Failed(e)]
      case Ok(prompt) =>
        match StreamKwargs(prompt.inputs, cfg, maxNew)
        case Err(e) => [Failed(e)]
        case Ok(kwargs) => StreamMessages(b.stream(kwargs))
  }

  /** The protocol: pieces of the backend's output, in its order, then one
      terminal item which is `Failed` exactly when something raised. */
  lemma WorkerProtocol(b: Backend, messages: seq<ChatMessage>, cfg: GenerationCfg, maxNew: int)
    requires b.loadError.None?
    ensures var ms := WorkerMessages(b, messages, cfg, maxNew);
      && |ms| >= 1
      && (forall i :: 0 <= i < |ms| - 1 ==> ms[i].Piece?)
      && !ms[|ms| - 1].Piece?
  {
  }

  /** On the streaming path every piece the streamer yields is put once, in
      order, and `None` follows them exactly when nothing raised. */
  lemma StreamPiecesInOrder(s: Stream)
    ensures var ms := StreamMessages(s);
      && (s.failure.None? ==> |ms| == |s.pieces| + 1 && ms[|ms| - 1] == Done)
      && (s.failure.Some? ==> ms[|ms| - 1] == Failed(s.failure.value.message))
      && (forall i :: 0 <= i < |ms| - 1 ==> ms[i] == Piece(s.pieces[i]))
      && (s.failure.Some? && s.failure.value.after <= |s.pieces| ==> |ms| == s.failure.value.after + 1)
  {
  }

  /** The delivery queue, as the sequence of everything put on it. */
  class Channel {
    var items: seq<Msg>

    constructor ()
      ensures items == []
    {
      items := [];
    }

    /** `q.put(item)` scheduled onto the event loop: appended at the back. */
    method Put(m: Msg)
      modifies this
      ensures items == old(items) + [m]
    {
      items := items + [m];
    }
  }

  /** `stream_worker`: puts every piece as the streamer yields it, then `None`
      once generation has finished, or the exception if anything in the try
      block raised. */
  method StreamWorker(ch: Channel, b: Backend, messages: seq<ChatMessage>, cfg: GenerationCfg, maxNew: int)
    modifies ch
    ensures ch.items == old(ch.items) + WorkerMessages(b, messages, cfg, maxNew)
  {
    if b.loadError.Some? {
      return;
    }
    var prompt := b.template(messages);
    if prompt.Err? {
      ch.Put(Failed(prompt.error));
      return;
    }
    var kwargs := StreamKwargs(prompt.value.inputs, cfg, maxNew);
    if kwargs.Err? {
      ch.Put(Failed(kwargs.error));
      return;
    }
    var s := b.stream(kwargs.value);
    var i := 0;
    while i < |s.pieces| && !(s.failure.Some? && s.failure.value.after == i)
      invariant i <= Cut(s)
      invariant ch.items == old(ch.items) + Pieces(s.pieces[..i])
    {
      ch.Put(Piece(s.pieces[i]));
      i := i + 1;
    }
    if s.failure.Some? {
      ch.Put(Failed(s.failure.value.message));
    } else {
      ch.Put(Done);
    }
  }
}
