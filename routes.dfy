/**
 * The request gateway and stream encoder (app/api/routes.py): budget
 * validation, message construction, the admission gate, the `_sse` framing of
 * each outward event and the `gen()` loop that drains the delivery queue.
 */
module Routes {
  import opened Wrappers
  import opened Config
  import opened Generator
  import Sse

  /** The JSON body of a request; a missing key (or a JSON `null` for
      `max_new_tokens`) is None. */
  datatype Request = Request(
    sourceLangCode: Option<string>,
    targetLangCode: Option<string>,
    text: Option<string>,
    maxNewTokens: Option<int>)

  /** Why a request is turned away before admission: the 400 for an oversized
      budget, or the `KeyError` (a 500) raised when a message field is missing. */
  datatype Rejection = TooLarge | MissingKey(key: string)

  function Status(r: Rejection): (code: int)
    ensures code == 400 <==> r.TooLarge?
    ensures r.MissingKey? ==> code == 500
  {
    match r
    case TooLarge => 400
    case MissingKey(_) => 500
  }

  /** `req.get("max_new_tokens") or default`, then the ceiling check. */
  function Validate(requested: Option<int>, cfg: GenerationCfg): (r: Result<int, Rejection>)
    ensures requested.None? || requested == Some(0) ==>
      (r.Ok? <==> cfg.defaultMaxNewTokens <= cfg.maxNewTokensLimit) && (r.Ok? ==> r.value == cfg.defaultMaxNewTokens)
    ensures requested.Some? && requested.value != 0 ==>
      (r.Ok? <==> requested.value <= cfg.maxNewTokensLimit) && (r.Ok? ==> r.value == requested.value)
    ensures r.Err? ==> r.error == TooLarge
  {
    var maxNew := if requested.Some? && requested.value != 0 then requested.value else cfg.defaultMaxNewTokens;
    if maxNew > cfg.maxNewTokensLimit then Err(TooLarge) else Ok(maxNew)
  }

  /** With the shipped defaults: absent and 0 mean 200, 1024 is accepted, 1025
      is not, and nothing is checked below. */
  lemma DefaultBudgets()
    ensures Validate(None, DefaultGeneration) == Ok(200)
    ensures Validate(Some(0), DefaultGeneration) == Ok(200)
    ensures Validate(Some(1024), DefaultGeneration) == Ok(1024)
    ensures Validate(Some(1025), DefaultGeneration) == Err(TooLarge)
    ensures Validate(Some(-5), DefaultGeneration) == Ok(-5)
  {
  }

  /** An admitted request: its chat messages and its token budget. */
  datatype Job = Job(messages: seq<ChatMessage>, maxNew: int)

  /** What both endpoints do before touching the gate: validate, then build the
      one user message, reading the three keys in order. */
  function Admit(req: Request, cfg: GenerationCfg): (r: Result<Job, Rejection>)
    ensures Validate(req.maxNewTokens, cfg).Err? ==> r == Err(TooLarge)
    ensures r.Err? ==> (r.error == TooLarge <==> Validate(req.maxNewTokens, cfg).Err?)
    ensures r.Ok? <==>
      Validate(req.maxNewTokens, cfg).Ok? && req.sourceLangCode.Some? && req.targetLangCode.Some? && req.text.Some?
    ensures r.Ok? ==> r.value.maxNew == Validate(req.maxNewTokens, cfg).value
    ensures r.Ok? ==>
      && |r.value.messages| == 1
      && r.value.messages[0].role == "user"
      && r.value.messages[0].content == [TextPart(req.sourceLangCode.value, req.targetLangCode.value, req.text.value)]
    ensures r.Err? && r.error.MissingKey? ==>
      r.error.key == (if req.sourceLangCode.None? then "source_lang_code"
                      else if req.targetLangCode.None? then "target_lang_code" else "text")
  {
    match Validate(req.maxNewTokens, cfg)
    case Err(e) => Err(e)
    case Ok(maxNew) =>
      if req.sourceLangCode.None? then Err(MissingKey("source_lang_code"))
      else if req.targetLangCode.None? then Err(MissingKey("target_lang_code"))
      else if req.text.None? then Err(MissingKey("text"))
      else
        var part := TextPart(req.sourceLangCode.value, req.targetLangCode.value, req.text.value);
        Ok(Job([ChatMessage("user", [part])], maxNew))
  }

  /** `max(1, max_concurrent)`. */
  function AdmissionLimit(maxConcurrent: int): (n: int)
    ensures n >= 1 && n >= maxConcurrent
    ensures n == maxConcurrent || n == 1
  {
    if maxConcurrent < 1 then 1 else maxConcurrent
  }

  /** The admission semaphore, as the count of slots held. */
  class Gate {
    const limit: int
    var held: nat

    ghost predicate Valid()
      reads this
    {
      1 <= limit && held <= limit
    }

    constructor (maxConcurrent: int)
      ensures Valid() && limit == AdmissionLimit(maxConcurrent) && held == 0
    {
      limit := AdmissionLimit(maxConcurrent);
      held := 0;
    }

    /** Entering `async with _sem`: a slot when one is free; otherwise the
        caller would wait, and nothing changes. */
    method TryAcquire() returns (ok: bool)
      requires Valid()
      modifies this
      ensures Valid()
      ensures ok <==> old(held) < limit
      ensures held == if ok then old(held) + 1 else old(held)
    {
      ok := held < limit;
      if ok {
        held := held + 1;
      }
    }

    /** Leaving the `async with` block. */
    method Release()
      requires Valid() && held > 0
      modifies this
      ensures Valid() && held == old(held) - 1
    {
      held := held - 1;
    }
  }

  /** The outward events of a stream. */
  datatype Event = ReadyEvent | TokenEvent(text: string) | DoneEvent | ErrorEvent(message: string)

  /** The dict passed to `_sse`: `{"ok": True}`, `{"text": ...}` or `{"error": ...}`. */
  datatype Payload = OkFlag | TextField(text: string) | ErrorField(error: string)

  function Name(e: Event): (n: string)
    ensures n != [] && Sse.SingleLine(n)
  {
    match e
    case ReadyEvent => "ready"
    case TokenEvent(_) => "token"
    case DoneEvent => "done"
    case ErrorEvent(_) => "error"
  }

  function PayloadOf(e: Event): Payload
  {
    match e
    case ReadyEvent => OkFlag
    case TokenEvent(t) => TextField(t)
    case DoneEvent => OkFlag
    case ErrorEvent(m) => ErrorField(m)
  }

  /** `_sse(name, payload)` with `enc` standing for `json.dumps(..., ensure_ascii=False)`. */
  function Render(e: Event, enc: Payload -> string): string
  {
    Sse.Frame(Name(e), enc(PayloadOf(e)))
  }

  predicate IsTerminal(m: Msg)
  {
    !m.Piece?
  }

  predicate HasTerminal(q: seq<Msg>)
  {
    exists i :: 0 <= i < |q| && IsTerminal(q[i])
  }

  /** How many items the loop dequeues: up to and including the first terminal,
      or all of them while none has arrived. */
  function Consumed(q: seq<Msg>): (n: nat)
    ensures n <= |q|
    ensures forall i :: 0 <= i < n - 1 ==> q[i].Piece?
    ensures HasTerminal(q) ==> 0 < n && IsTerminal(q[n - 1])
    ensures !HasTerminal(q) ==> n == |q|
  {
    if q == [] then 0
    else if q[0].Piece? then
      assert HasTerminal(q) ==> HasTerminal(q[1..]) by {
        if HasTerminal(q) {
          var i :| 0 <= i < |q| && IsTerminal(q[i]);
          assert IsTerminal(q[1..][i - 1]);
        }
      }
      assert HasTerminal(q[1..]) ==> HasTerminal(q) by {
        if HasTerminal(q[1..]) {
          var i :| 0 <= i < |q[1..]| && IsTerminal(q[1..][i]);
          assert IsTerminal(q[i + 1]);
        }
      }
      1 + Consumed(q[1..])
    else
      assert IsTerminal(q[0]);
      1
  }

  /** A queue of pieces only holds no terminal; all of it is read. */
  lemma ConsumedAllPieces(q: seq<Msg>)
    requires forall i :: 0 <= i < |q| ==> q[i].Piece?
    ensures !HasTerminal(q) && Consumed(q) == |q|
  {
  }

  /** A terminal at position `k - 1` after pieces only: `k` items are read. */
  lemma ConsumedStopsAt(q: seq<Msg>, k: nat)
    requires 0 < k <= |q| && IsTerminal(q[k - 1])
    requires forall i :: 0 <= i < k - 1 ==> q[i].Piece?
    ensures HasTerminal(q) && Consumed(q) == k
  {
  }

  /** The event each dequeued item yields. */
  function EventFor(m: Msg): Event
  {
    match m
    case Piece(t) => TokenEvent(t)
    case Done => DoneEvent
    case Failed(e) => ErrorEvent(e)
  }

  /** The events the loop emits after `ready`, reading `q` in order. */
  function Drain(q: seq<Msg>): seq<Event>
  {
    if q == [] then []
    else
      match q[0]
      case Piece(t) => [TokenEvent(t)] + Drain(q[1..])
      case Done => [DoneEvent]
      case Failed(e) => [ErrorEvent(e)]
  }

  /** One event per item dequeued, the i-th for the i-th item: nothing after
      the first terminal is read or answered. */
  lemma {:induction false} DrainShape(q: seq<Msg>)
    ensures |Drain(q)| == Consumed(q)
    ensures forall i :: 0 <= i < Consumed(q) ==> Drain(q)[i] == EventFor(q[i])
  {
    if q != [] && q[0].Piece? {
      DrainShape(q[1..]);
    }
  }

  /** `ready`, then tokens, then exactly one terminal event, last. */
  predicate Complete(events: seq<Event>)
  {
    && |events| >= 2
    && events[0] == ReadyEvent
    && (forall i :: 1 <= i < |events| - 1 ==> events[i].TokenEvent?)
    && (events[|events| - 1].DoneEvent? || events[|events| - 1].ErrorEvent?)
  }

  /** A queue that receives a terminal item yields a complete stream; one that
      never does yields no terminal event at all. */
  lemma StreamShape(q: seq<Msg>)
    ensures HasTerminal(q) ==> Complete([ReadyEvent] + Drain(q))
    ensures !HasTerminal(q) ==> forall e :: e in Drain(q) ==> e.TokenEvent?
  {
    DrainShape(q);
    var evs := [ReadyEvent] + Drain(q);
    if HasTerminal(q) {
      assert forall i :: 1 <= i < |evs| - 1 ==> evs[i] == EventFor(q[i - 1]);
    }
  }

  /** The `gen()` loop: `ready`, then one frame per item it dequeues, stopping
      after the first `None` or exception. Reaching the end of `q` without one
      is the loop waiting on `q.get()` for ever. */
  method Gen(q: seq<Msg>, enc: Payload -> string) returns (chunks: seq<string>, read: nat, finished: bool)
    ensures read == Consumed(q)
    ensures finished <==> HasTerminal(q)
    ensures |chunks| == 1 + |Drain(q)| && chunks[0] == Render(ReadyEvent, enc)
    ensures forall i :: 0 <= i < |Drain(q)| ==> chunks[i + 1] == Render(Drain(q)[i], enc)
  {
    chunks := [Render(ReadyEvent, enc)];
    read, finished := 0, false;
    while read < |q|
      invariant read <= |q|
      invariant forall i :: 0 <= i < read ==> q[i].Piece?
      invariant |chunks| == 1 + read && chunks[0] == Render(ReadyEvent, enc)
      invariant forall i :: 0 <= i < read ==> chunks[i + 1] == Render(EventFor(q[i]), enc)
    {
      var item := q[read];
      chunks := chunks + [Render(EventFor(item), enc)];
      read := read + 1;
      if IsTerminal(item) {
        finished := true;
        ConsumedStopsAt(q, read);
        break;
      }
    }
    if !finished {
      ConsumedAllPieces(q);
    }
    GenChunks(q, enc, chunks);
  }

  /** The frames written for the consumed prefix, one per item, are the frames
      of `Drain(q)`. */
  lemma GenChunks(q: seq<Msg>, enc: Payload -> string, chunks: seq<string>)
    requires |chunks| == 1 + Consumed(q)
    requires forall i :: 0 <= i < Consumed(q) ==> chunks[i + 1] == Render(EventFor(q[i]), enc)
    ensures |chunks| == 1 + |Drain(q)|
    ensures forall i :: 0 <= i < |Drain(q)| ==> chunks[i + 1] == Render(Drain(q)[i], enc)
  {
    DrainShape(q);
  }

  /** The frames on the wire, read by a receiver of the event-stream format,
      are the events in order, each with its name and encoded payload, provided
      the JSON encoding never emits a line break. */
  lemma WireRoundTrip(events: seq<Event>, chunks: seq<string>, enc: Payload -> string)
    requires forall p :: Sse.SingleLine(enc(p))
    requires |chunks| == |events|
    requires forall i :: 0 <= i < |events| ==> chunks[i] == Render(events[i], enc)
    ensures |Sse.Interpret(Sse.Concat(chunks), Sse.Empty)| == |events|
    ensures forall i :: 0 <= i < |events| ==>
      Sse.Interpret(Sse.Concat(chunks), Sse.Empty)[i] == Sse.Dispatched(Name(events[i]), enc(PayloadOf(events[i])))
  {
    var fields := seq(|events|, i requires 0 <= i < |events| => (Name(events[i]), enc(PayloadOf(events[i]))));
    Sse.StreamRoundTrip(fields, chunks);
  }

  /** A receiver can tell the events apart: when the encoding keeps payloads
      apart, two events written as the same frame are the same event. */
  lemma RenderInjective(e1: Event, e2: Event, enc: Payload -> string)
    requires forall p :: Sse.SingleLine(enc(p))
    requires forall p1, p2 :: enc(p1) == enc(p2) ==> p1 == p2
    ensures Render(e1, enc) == Render(e2, enc) ==> e1 == e2
  {
    Sse.FrameInjective(Name(e1), enc(PayloadOf(e1)), Name(e2), enc(PayloadOf(e2)));
  }

  /** Producer and encoder together: `ready`, a token per piece the streamer
      yielded before it stopped, in order, then `done`, or `error` with the
      exception's text. */
  lemma EndToEnd(s: Stream)
    ensures var evs := Drain(StreamMessages(s));
      && |evs| == Cut(s) + 1
      && (forall i :: 0 <= i < Cut(s) ==> evs[i] == TokenEvent(s.pieces[i]))
      && evs[Cut(s)] == (if s.failure.Some? then ErrorEvent(s.failure.value.message) else DoneEvent)
      && Complete([ReadyEvent] + evs)
  {
    var ms := StreamMessages(s);
    assert IsTerminal(ms[|ms| - 1]);
    assert forall i :: 0 <= i < |ms| - 1 ==> ms[i] == Piece(s.pieces[i]);
    DrainShape(ms);
    StreamShape(ms);
  }

  /** The stream terminates exactly when loading succeeded: a load failure puts
      nothing on the queue, so `gen()` never reads a terminal item. */
  lemma WorkerTerminates(b: Backend, messages: seq<ChatMessage>, cfg: GenerationCfg, maxNew: int)
    ensures HasTerminal(WorkerMessages(b, messages, cfg, maxNew)) <==> b.loadError.None?
  {
    var ms := WorkerMessages(b, messages, cfg, maxNew);
    if b.loadError.None? {
      WorkerProtocol(b, messages, cfg, maxNew);
      assert IsTerminal(ms[|ms| - 1]);
    }
  }

  /** The two outcomes of the streaming examples: pieces "ho", "la" then the
      end; and "ho" then an exception raised in the try block. */
  lemma StreamExamples()
    ensures Drain(StreamMessages(Stream(["ho", "la"], None))) == [TokenEvent("ho"), TokenEvent("la"), DoneEvent]
    ensures Drain(StreamMessages(Stream(["ho"], Some(StreamFailure(1, "boom"))))) == [TokenEvent("ho"), ErrorEvent("boom")]
  {
    var ok, failed := StreamMessages(Stream(["ho", "la"], None)), StreamMessages(Stream(["ho"], Some(StreamFailure(1, "boom"))));
    assert ok == [Piece("ho"), Piece("la"), Done];
    assert failed == [Piece("ho"), Failed("boom")];
  }

  datatype Response =
    | Translated(translatedText: string)    // {"translated_text": out}
    | Rejected(rejection: Rejection)
    | ServerError(message: string)          // an exception from generate_full
    | Suspended                             // waiting for a slot

  /** `translate`: reject before the gate, else hold a slot around `generate_full`;
      the slot is given back on success and on failure alike. */
  method Translate(req: Request, cfg: GenerationCfg, gate: Gate, b: Backend) returns (resp: Response)
    requires gate.Valid()
    modifies gate
    ensures gate.Valid() && gate.held == old(gate.held)
    ensures Admit(req, cfg).Err? ==> resp == Rejected(Admit(req, cfg).error)
    ensures Admit(req, cfg).Ok? && old(gate.held) == gate.limit ==> resp == Suspended
    ensures Admit(req, cfg).Ok? && old(gate.held) < gate.limit ==>
      var job := Admit(req, cfg).value;
      var out := GenerateFull(b, job.messages, cfg, job.maxNew);
      resp == if out.Ok? then Translated(out.value) else ServerError(out.error)
  {
    var job := Admit(req, cfg);
    if job.Err? {
      return Rejected(job.error);
    }
    var ok := gate.TryAcquire();
    if !ok {
      return Suspended;
    }
    var out := GenerateFull(b, job.value.messages, cfg, job.value.maxNew);
    gate.Release();
    resp := if out.Ok? then Translated(out.value) else ServerError(out.error);
  }

  datatype StreamResponse =
    | StreamRejected(rejection: Rejection)
    | StreamSuspended
    | EventStream(chunks: seq<string>, finished: bool)

  /** `translate_stream` with its body `gen()` run to its end: reject before the
      gate; else, holding a slot, start the worker on a fresh queue and drain
      it. The slot is given back only once a terminal item has been read. */
  method TranslateStream(req: Request, cfg: GenerationCfg, gate: Gate, b: Backend, enc: Payload -> string)
    returns (resp: StreamResponse)
    requires gate.Valid()
    modifies gate
    ensures gate.Valid()
    ensures Admit(req, cfg).Err? ==> resp == StreamRejected(Admit(req, cfg).error) && gate.held == old(gate.held)
    ensures Admit(req, cfg).Ok? && old(gate.held) == gate.limit ==> resp == StreamSuspended && gate.held == old(gate.held)
    ensures Admit(req, cfg).Ok? && old(gate.held) < gate.limit ==>
      var job := Admit(req, cfg).value;
      var evs := Drain(WorkerMessages(b, job.messages, cfg, job.maxNew));
      && resp.EventStream?
      && (resp.finished <==> b.loadError.None?)
      && |resp.chunks| == 1 + |evs| && resp.chunks[0] == Render(ReadyEvent, enc)
      && (forall i :: 0 <= i < |evs| ==> resp.chunks[i + 1] == Render(evs[i], enc))
      && gate.held == if resp.finished then old(gate.held) else old(gate.held) + 1
  {
    var job := Admit(req, cfg);
    if job.Err? {
      return StreamRejected(job.error);
    }
    var ok := gate.TryAcquire();
    if !ok {
      return StreamSuspended;
    }
    var q := new Channel();
    StreamWorker(q, b, job.value.messages, cfg, job.value.maxNew);
    ghost var ms := WorkerMessages(b, job.value.messages, cfg, job.value.maxNew);
    assert q.items == ms;
    var chunks, read, finished := Gen(q.items, enc);
    WorkerTerminates(b, job.value.messages, cfg, job.value.maxNew);
    if finished {
      gate.Release();
    }
    resp := EventStream(chunks, finished);
  }
}
