/**
 * The chat service's streaming answer: the request sent to Ollama
 * (configuration, message list, options), the handler that reassembles
 * the streamed lines and forwards them as server-sent events, the mock
 * answer other model types get, and the error event.
 */
module AiService {
  import opened Js
  import opened Text
  import RecService

  const DefaultOllamaUrl: string := "http://localhost:11434"
  const DefaultTemperature: real := 0.7
  const DefaultNumPredict: real := 2048.0

  const NoFullResponse: string := "未收到完整响应"
  const OllamaStreamError: string := "Ollama 服务错误"
  const SaveFailed: string := "保存响应失败"
  const OllamaUnreachable: string := "Ollama 服务未启动或无法连接"
  const OllamaCallFailed: string := "调用 Ollama 服务失败"

  // ---------------------------------------------------------------------
  // The events written to the response
  // ---------------------------------------------------------------------

  /** The `data:` events: a content chunk, the completion, an error. */
  datatype Event = Content(content: Json) | Done(fullContent: string) | Failure(message: string)

  /** The response as the stream writes it: headers go out with the first write. */
  class SseResponse {
    var headersSent: bool
    var events: seq<Event>
    var ended: bool

    constructor(headersSent: bool)
      ensures this.headersSent == headersSent && events == [] && !ended
    {
      this.headersSent := headersSent;
      events := [];
      ended := false;
    }

    /** `res.write(...)`. */
    method Write(e: Event)
      modifies this
      ensures events == old(events) + [e] && headersSent && ended == old(ended)
    {
      events := events + [e];
      headersSent := true;
    }

    /** `res.end()`. */
    method End()
      modifies this
      ensures ended && events == old(events) && headersSent == old(headersSent)
    {
      ended := true;
    }
  }

  /** The number of completion events among `events`. */
  function DoneCount(events: seq<Event>): nat
  {
    if |events| == 0 then 0
    else DoneCount(events[..|events| - 1]) + (if events[|events| - 1].Done? then 1 else 0)
  }

  /** `sendErrorResponse`: the error event and the end, unless the headers have gone out already. */
  method SendErrorResponse(res: SseResponse, message: string)
    modifies res
    ensures old(res.headersSent) ==> res.events == old(res.events) && res.ended == old(res.ended)
    ensures !old(res.headersSent) ==> res.events == old(res.events) + [Failure(message)] && res.ended
    ensures res.headersSent
  {
    if !res.headersSent {
      res.Write(Failure(message));
      res.End();
    }
  }

  // ---------------------------------------------------------------------
  // The request
  // ---------------------------------------------------------------------

  /**
   * `model_config` as the handler resolves it: falsy gives `{}`; a string
   * is parsed, `{}` when the parse throws; an object (or array) is used as
   * it is; anything else gives `{}`.
   */
  function ResolveConfig(v: Json, parse: RecService.Parser): (r: Json)
    ensures !Truthy(v) ==> r == JObj([])
    ensures v.JObj? || v.JArr? ==> r == v
    ensures r.JObj? || r.JArr? || (v.JStr? && parse(v.s) == Some(r))
  {
    if !Truthy(v) then JObj([])
    else if v.JStr? then (if parse(v.s).Some? then parse(v.s).value else JObj([]))
    else if v.JObj? || v.JArr? then v
    else JObj([])
  }

  /** A configuration that is neither parsed text nor a given object is empty. */
  lemma ConfigFallsBackToEmpty(v: Json, parse: RecService.Parser)
    ensures !(v.JStr? && v.s != "" && parse(v.s).Some?) && !v.JObj? && !v.JArr? ==>
      ResolveConfig(v, parse) == JObj([])
    ensures v.JObj? ==> ResolveConfig(v, parse) == v
  {
  }

  /** A history message, as `getSessionHistory` maps a row. */
  datatype HistoryEntry = HistoryEntry(role: Json, content: Json, timestamp: Json)

  /** An outgoing chat message. */
  datatype Message = Message(role: Json, content: Json)

  /**
   * `getSessionHistory`: the rows in query order, each mapped to its
   * role, content and creation time; `[]` when the query throws.
   */
  function SessionHistory(rows: Option<seq<seq<Field>>>): (r: seq<HistoryEntry>)
    ensures rows.None? ==> r == []
    ensures rows.Some? ==> |r| == |rows.value|
    ensures rows.Some? ==> forall i :: 0 <= i < |r| ==>
      r[i] == HistoryEntry(Lookup(rows.value[i], "role"), Lookup(rows.value[i], "content"),
                           Lookup(rows.value[i], "created_at"))
  {
    if rows.None? then []
    else
      var rs := rows.value;
      seq(|rs|, i requires 0 <= i < |rs| =>
        HistoryEntry(Lookup(rs[i], "role"), Lookup(rs[i], "content"), Lookup(rs[i], "created_at")))
  }

  /** The history's role and content, in order, then the user's message. */
  function Messages(history: seq<HistoryEntry>, message: Json): seq<Message>
  {
    seq(|history|, i requires 0 <= i < |history| => Message(history[i].role, history[i].content))
    + [Message(JStr("user"), message)]
  }

  /** The message list keeps the history in order and ends with the user's message. */
  lemma MessagesOrder(history: seq<HistoryEntry>, message: Json)
    ensures var m := Messages(history, message);
      |m| == |history| + 1 && m[|history|] == Message(JStr("user"), message)
      && forall i :: 0 <= i < |history| ==> m[i] == Message(history[i].role, history[i].content)
  {
  }

  /** The Ollama request: address, model, messages and options. */
  datatype ChatRequest = ChatRequest(url: Json, model: Json, messages: seq<Message>, options: seq<Field>)

  /**
   * The request `generateOllamaStreamResponse` builds; `None` is the
   * TypeError of reading `temperature` off a configuration that parsed
   * to `null`.
   */
  function BuildRequest(session: seq<Field>, message: Json, history: seq<HistoryEntry>, parse: RecService.Parser)
    : (r: Option<ChatRequest>)
    ensures r.None? <==> Nullish(ResolveConfig(Lookup(session, "model_config"), parse))
    ensures r.None? ==> Lookup(session, "model_config").JStr?
    ensures r.Some? ==>
      r.value.model == Lookup(session, "model_name")
      && r.value.url == (if Truthy(Lookup(session, "endpoint_url")) then Lookup(session, "endpoint_url") else JStr(DefaultOllamaUrl))
      && |r.value.messages| == |history| + 1 && r.value.messages[|history|] == Message(JStr("user"), message)
  {
    var config := ResolveConfig(Lookup(session, "model_config"), parse);
    if Nullish(config) then None
    else
      MessagesOrder(history, message);
      Some(ChatRequest(Or(Lookup(session, "endpoint_url"), JStr(DefaultOllamaUrl)), Lookup(session, "model_name"),
                       Messages(history, message), RequestOptions(config)))
  }

  /** The request's options for a configuration that is not nullish. */
  function RequestOptions(config: Json): (r: seq<Field>)
    requires !Nullish(config)
    ensures "temperature" !in Keys(Spread(Prop(config, "options").value)) ==>
      Lookup(r, "temperature") == Or(Prop(config, "temperature").value, JNum(DefaultTemperature))
    ensures "num_predict" !in Keys(Spread(Prop(config, "options").value)) ==>
      Lookup(r, "num_predict") == Or(Prop(config, "max_tokens").value, JNum(DefaultNumPredict))
  {
    OptionsOver(Or(Prop(config, "temperature").value, JNum(DefaultTemperature)),
                Or(Prop(config, "max_tokens").value, JNum(DefaultNumPredict)), Spread(Prop(config, "options").value));
    var defaults := [Field("temperature", Or(Prop(config, "temperature").value, JNum(DefaultTemperature))),
                     Field("num_predict", Or(Prop(config, "max_tokens").value, JNum(DefaultNumPredict)))];
    Assign(defaults, Spread(Prop(config, "options").value))
  }

  /**
   * The options: `temperature` and `num_predict` come from the
   * configuration's `temperature` and `max_tokens` or default to 0.7 and
   * 2048, unless the configuration's own `options` set them: those win.
   */
  lemma OptionsDefaults(config: Json)
    requires !Nullish(config)
    ensures var extra := Spread(Prop(config, "options").value);
      ("temperature" !in Keys(extra) ==>
         Lookup(RequestOptions(config), "temperature") == Or(Prop(config, "temperature").value, JNum(DefaultTemperature)))
      && ("num_predict" !in Keys(extra) ==>
         Lookup(RequestOptions(config), "num_predict") == Or(Prop(config, "max_tokens").value, JNum(DefaultNumPredict)))
      && (DistinctKeys(extra) ==> forall k :: k in Keys(extra) ==> Lookup(RequestOptions(config), k) == Lookup(extra, k))
  {
    OptionsOver(Or(Prop(config, "temperature").value, JNum(DefaultTemperature)),
                Or(Prop(config, "max_tokens").value, JNum(DefaultNumPredict)), Spread(Prop(config, "options").value));
  }

  /** Two defaults overridden by the assigned fields: a default survives unless assigned. */
  lemma OptionsOver(temperature: Json, numPredict: Json, extra: seq<Field>)
    ensures var opts := Assign([Field("temperature", temperature), Field("num_predict", numPredict)], extra);
      ("temperature" !in Keys(extra) ==> Lookup(opts, "temperature") == temperature)
      && ("num_predict" !in Keys(extra) ==> Lookup(opts, "num_predict") == numPredict)
      && (DistinctKeys(extra) ==> forall k :: k in Keys(extra) ==> Lookup(opts, k) == Lookup(extra, k))
  {
    var defaults := [Field("temperature", temperature), Field("num_predict", numPredict)];
    var opts := Assign(defaults, extra);
    AssignLookup(defaults, extra);
    assert Lookup(defaults, "num_predict") == numPredict by {
      assert "temperature"[0] != "num_predict"[0];
      assert defaults[1..] == [Field("num_predict", numPredict)];
    }
    if "num_predict" !in Keys(extra) {
      assert Lookup(opts, "num_predict") == Lookup(defaults, "num_predict");
    }
    if "temperature" !in Keys(extra) {
      assert Lookup(opts, "temperature") == Lookup(defaults, "temperature");
    }
  }

  /** Without a configuration the options are exactly the defaults. */
  lemma DefaultOptions(session: seq<Field>, message: Json, history: seq<HistoryEntry>, parse: RecService.Parser)
    requires !Truthy(Lookup(session, "model_config"))
    ensures BuildRequest(session, message, history, parse).Some?
    ensures BuildRequest(session, message, history, parse).value.options
         == [Field("temperature", JNum(DefaultTemperature)), Field("num_predict", JNum(DefaultNumPredict))]
  {
  }

  // ---------------------------------------------------------------------
  // The stream handler
  // ---------------------------------------------------------------------

  /** What the handler's writes have done: its locals and the response. */
  datatype Stream = Stream(fullContent: string, isCompleted: bool, events: seq<Event>, headersSent: bool, ended: bool)

  /** `sendErrorResponse` on a snapshot. */
  function ErrorTo(st: Stream, message: string): Stream
  {
    if st.headersSent then st
    else st.(events := st.events + [Failure(message)], headersSent := true, ended := true)
  }

  /**
   * The completion, marked before it is sent: the completion event with
   * the whole content and the end, or the error event when saving the
   * answer fails.
   */
  function Complete(st: Stream, saveFails: bool): Stream
  {
    var marked := st.(isCompleted := true);
    if saveFails then ErrorTo(marked, SaveFailed)
    else marked.(events := marked.events + [Done(st.fullContent)], headersSent := true, ended := true)
  }

  /**
   * One line of a chunk, and whether the handler returns after it. Blank
   * lines, lines that do not parse and parsed `null`s are skipped; a
   * truthy `message.content` is appended and forwarded; a truthy `done`
   * completes the stream, unless it already completed, and returns.
   */
  function LineEffect(st: Stream, line: string, parse: RecService.Parser, saveFails: bool): (Stream, bool)
  {
    if Trim(line) == "" || parse(line).None? || Nullish(parse(line).value) then (st, false)
    else
      var data := parse(line).value;
      var message := Prop(data, "message").value;
      var st1 :=
        if Truthy(message) && Truthy(Prop(message, "content").value) then
          var c := Prop(message, "content").value;
          st.(fullContent := st.fullContent + JsString(c), events := st.events + [Content(c)], headersSent := true)
        else st;
      if Truthy(Prop(data, "done").value) then
        (if st1.isCompleted then st1 else Complete(st1, saveFails), true)
      else (st1, false)
  }

  /**
   * The lines of one chunk, up to and including a `done` line, and
   * whether such a line made the handler return.
   */
  function LinesEffect(st: Stream, lines: seq<string>, parse: RecService.Parser, saveFails: bool): (Stream, bool)
    decreases |lines|
  {
    if |lines| == 0 then (st, false)
    else
      var (st1, stop) := LineEffect(st, lines[0], parse, saveFails);
      if stop then (st1, true) else LinesEffect(st1, lines[1..], parse, saveFails)
  }

  /** The end of the stream: complete if there is content, else the error event, unless completed. */
  function EndEffect(st: Stream, saveFails: bool): Stream
  {
    if st.fullContent != "" && !st.isCompleted then Complete(st, saveFails)
    else if st.fullContent == "" && !st.isCompleted then ErrorTo(st, NoFullResponse)
    else st
  }

  /** At most one completion event, and none before the handler completes. */
  predicate CompletesOnce(st: Stream)
  {
    DoneCount(st.events) <= (if st.isCompleted then 1 else 0)
  }

  lemma DoneCountAppend(events: seq<Event>, e: Event)
    ensures DoneCount(events + [e]) == DoneCount(events) + (if e.Done? then 1 else 0)
  {
    assert (events + [e])[..|events|] == events;
  }

  lemma {:induction false} DoneCountConcat(a: seq<Event>, b: seq<Event>)
    ensures DoneCount(a + b) == DoneCount(a) + DoneCount(b)
    decreases |b|
  {
    if |b| > 0 {
      var init := b[..|b| - 1];
      DoneCountConcat(a, init);
      assert a + b == (a + init) + [b[|b| - 1]];
      DoneCountAppend(a + init, b[|b| - 1]);
      assert b == init + [b[|b| - 1]];
      DoneCountAppend(init, b[|b| - 1]);
    } else {
      assert a + b == a;
    }
  }

  lemma CompleteOnce(st: Stream, saveFails: bool)
    requires CompletesOnce(st) && !st.isCompleted
    ensures CompletesOnce(Complete(st, saveFails)) && Complete(st, saveFails).isCompleted
  {
    DoneCountAppend(st.events, Done(st.fullContent));
    DoneCountAppend(st.events, Failure(SaveFailed));
  }

  lemma ErrorKeeps(st: Stream, message: string)
    requires CompletesOnce(st)
    ensures CompletesOnce(ErrorTo(st, message)) && ErrorTo(st, message).isCompleted == st.isCompleted
  {
    DoneCountAppend(st.events, Failure(message));
  }

  /** A line keeps the completion count, and a completed stream stays completed. */
  lemma LineKeeps(st: Stream, line: string, parse: RecService.Parser, saveFails: bool)
    requires CompletesOnce(st)
    ensures CompletesOnce(LineEffect(st, line, parse, saveFails).0)
    ensures st.isCompleted ==> LineEffect(st, line, parse, saveFails).0.isCompleted
  {
    if !(Trim(line) == "" || parse(line).None? || Nullish(parse(line).value)) {
      var data := parse(line).value;
      var message := Prop(data, "message").value;
      if Truthy(message) && Truthy(Prop(message, "content").value) {
        DoneCountAppend(st.events, Content(Prop(message, "content").value));
      }
      var st1 := LineEffect(st, line, parse, saveFails).0;
      if Truthy(Prop(data, "done").value) && !st.isCompleted {
        var mid :=
          if Truthy(message) && Truthy(Prop(message, "content").value) then
            st.(fullContent := st.fullContent + JsString(Prop(message, "content").value),
                events := st.events + [Content(Prop(message, "content").value)], headersSent := true)
          else st;
        CompleteOnce(mid, saveFails);
      }
    }
  }

  lemma {:induction false} LinesKeep(st: Stream, lines: seq<string>, parse: RecService.Parser, saveFails: bool)
    requires CompletesOnce(st)
    ensures CompletesOnce(LinesEffect(st, lines, parse, saveFails).0)
    ensures st.isCompleted ==> LinesEffect(st, lines, parse, saveFails).0.isCompleted
    decreases |lines|
  {
    if |lines| > 0 {
      LineKeeps(st, lines[0], parse, saveFails);
      var (st1, stop) := LineEffect(st, lines[0], parse, saveFails);
      if !stop {
        LinesKeep(st1, lines[1..], parse, saveFails);
      }
    }
  }

  /**
   * Once a `done` line has made the handler return, the lines after it in
   * the same chunk change nothing.
   */
  lemma {:induction false} StopsAtDone(st: Stream, lines: seq<string>, more: seq<string>, parse: RecService.Parser, saveFails: bool)
    requires LinesEffect(st, lines, parse, saveFails).1
    ensures LinesEffect(st, lines + more, parse, saveFails) == LinesEffect(st, lines, parse, saveFails)
    decreases |lines|
  {
    var all := lines + more;
    assert all[0] == lines[0] && all[1..] == lines[1..] + more;
    var (st1, stop) := LineEffect(st, lines[0], parse, saveFails);
    if !stop {
      StopsAtDone(st1, lines[1..], more, parse, saveFails);
    }
  }

  /** A chunk with no `done` line is handled line by line to its end. */
  lemma {:induction false} LinesAppend(st: Stream, lines: seq<string>, line: string, parse: RecService.Parser, saveFails: bool)
    requires !LinesEffect(st, lines, parse, saveFails).1
    ensures LinesEffect(st, lines + [line], parse, saveFails)
         == LineEffect(LinesEffect(st, lines, parse, saveFails).0, line, parse, saveFails)
    decreases |lines|
  {
    var all := lines + [line];
    if |lines| > 0 {
      assert all[0] == lines[0] && all[1..] == lines[1..] + [line];
      var (st1, stop) := LineEffect(st, lines[0], parse, saveFails);
      LinesAppend(st1, lines[1..], line, parse, saveFails);
    }
  }

  /** `LinesAppend` for the first `i + 1` lines of a chunk. */
  lemma LinesStep(st: Stream, lines: seq<string>, i: nat, parse: RecService.Parser, saveFails: bool)
    requires i < |lines| && !LinesEffect(st, lines[..i], parse, saveFails).1
    ensures LinesEffect(st, lines[..i + 1], parse, saveFails)
         == LineEffect(LinesEffect(st, lines[..i], parse, saveFails).0, lines[i], parse, saveFails)
  {
    assert lines[..i + 1] == lines[..i] + [lines[i]];
    LinesAppend(st, lines[..i], lines[i], parse, saveFails);
  }

  /** `StopsAtDone` for a chunk whose first `k` lines end at a `done` line. */
  lemma LinesStopAt(st: Stream, lines: seq<string>, k: nat, parse: RecService.Parser, saveFails: bool)
    requires k <= |lines| && LinesEffect(st, lines[..k], parse, saveFails).1
    ensures LinesEffect(st, lines, parse, saveFails) == LinesEffect(st, lines[..k], parse, saveFails)
  {
    StopsAtDone(st, lines[..k], lines[k..], parse, saveFails);
    assert lines[..k] + lines[k..] == lines;
  }

  /**
   * `buffer.split("\n")` with the last piece popped: the complete lines
   * and the partial line kept for the next chunk. The lines, each followed
   * by a line break, and then the kept piece give back the text.
   */
  function SplitBuffer(s: string): (r: (seq<string>, string))
    ensures r.0 + [r.1] == Split(s, '\n')
    ensures '\n' !in r.1
    ensures |r.0| > 0 ==> Join(r.0, "\n") + "\n" + r.1 == s
    ensures |r.0| == 0 ==> r.1 == s
  {
    var parts := Split(s, '\n');
    JoinSplit(s, '\n');
    var r := (parts[..|parts| - 1], parts[|parts| - 1]);
    assert r.0 + [r.1] == parts;
    if |parts| >= 2 then
      JoinLast(parts, "\n");
      r
    else r
  }

  /**
   * The Ollama stream's handler: the partial line kept between chunks,
   * the content gathered so far and the completion flag, writing to
   * `res`. `saveFails` says whether saving the finished answer fails.
   */
  class OllamaStream {
    var buffer: string
    var fullContent: string
    var isCompleted: bool
    const res: SseResponse
    const parse: RecService.Parser
    const saveFails: bool

    function Snapshot(): Stream
      reads this, res
    {
      Stream(fullContent, isCompleted, res.events, res.headersSent, res.ended)
    }

    /** The buffer holds no line break, and the stream completes at most once. */
    predicate Valid()
      reads this, res
    {
      '\n' !in buffer && CompletesOnce(Snapshot())
    }

    constructor(res: SseResponse, parse: RecService.Parser, saveFails: bool)
      requires DoneCount(res.events) == 0
      ensures Valid() && this.res == res && this.parse == parse && this.saveFails == saveFails
      ensures buffer == "" && fullContent == "" && !isCompleted
    {
      buffer := "";
      fullContent := "";
      isCompleted := false;
      this.res := res;
      this.parse := parse;
      this.saveFails := saveFails;
    }

    /**
     * The `data` handler. The lines it handles, a line break, and the new
     * buffer make up the old buffer followed by the chunk; the new buffer
     * holds no line break.
     */
    method OnData(chunk: string) returns (lines: seq<string>)
      requires Valid()
      modifies this, res
      ensures Valid()
      ensures (lines, buffer) == SplitBuffer(old(buffer) + chunk)
      ensures lines + [buffer] == Split(old(buffer) + chunk, '\n')
      ensures |lines| > 0 ==> Join(lines, "\n") + "\n" + buffer == old(buffer) + chunk
      ensures |lines| == 0 ==> buffer == old(buffer) + chunk
      ensures Snapshot() == LinesEffect(old(Snapshot()), lines, parse, saveFails).0
    {
      var (complete, rest) := SplitBuffer(buffer + chunk);
      lines := complete;
      buffer := rest;
      HandleLines(lines);
    }

    /** The loop over a chunk's complete lines, left at the first `done` line. */
    method HandleLines(lines: seq<string>)
      requires CompletesOnce(Snapshot())
      modifies this, res
      ensures CompletesOnce(Snapshot()) && buffer == old(buffer)
      ensures Snapshot() == LinesEffect(old(Snapshot()), lines, parse, saveFails).0
    {
      ghost var start := Snapshot();
      var i := 0;
      while i < |lines|
        invariant 0 <= i <= |lines| && buffer == old(buffer)
        invariant CompletesOnce(Snapshot())
        invariant (Snapshot(), false) == LinesEffect(start, lines[..i], parse, saveFails)
      {
        LineKeeps(Snapshot(), lines[i], parse, saveFails);
        LinesStep(start, lines, i, parse, saveFails);
        var stop := HandleLine(lines[i]);
        if stop {
          LinesStopAt(start, lines, i + 1, parse, saveFails);
          return;
        }
        i := i + 1;
      }
      assert lines[..i] == lines;
    }

    /** One line, as `LineEffect` describes; the result says whether the handler returns. */
    method HandleLine(line: string) returns (stop: bool)
      modifies this, res
      ensures (Snapshot(), stop) == LineEffect(old(Snapshot()), line, parse, saveFails)
      ensures buffer == old(buffer)
    {
      if Trim(line) == "" {
        return false;
      }
      var parsed := parse(line);
      if parsed.None? || Nullish(parsed.value) {
        return false;
      }
      var data := parsed.value;
      var message := Prop(data, "message").value;
      if Truthy(message) && Truthy(Prop(message, "content").value) {
        var c := Prop(message, "content").value;
        fullContent := fullContent + JsString(c);
        res.Write(Content(c));
      }
      if Truthy(Prop(data, "done").value) {
        if !isCompleted {
          isCompleted := true;
          SendCompletion();
        }
        return true;
      }
      return false;
    }

    /** `sendCompletionResponse`: the completion event and the end, or the error event. */
    method SendCompletion()
      modifies res
      ensures Snapshot() == Complete(old(Snapshot()).(isCompleted := false), saveFails).(isCompleted := isCompleted)
      ensures isCompleted == old(isCompleted)
    {
      if saveFails {
        SendErrorResponse(res, SaveFailed);
      } else {
        res.Write(Done(fullContent));
        res.End();
      }
    }

    /** The `end` handler. */
    method OnEnd()
      requires Valid()
      modifies this, res
      ensures Valid()
      ensures Snapshot() == EndEffect(old(Snapshot()), saveFails)
    {
      ghost var start := Snapshot();
      if fullContent != "" && !isCompleted {
        CompleteOnce(start, saveFails);
        isCompleted := true;
        SendCompletion();
      } else if fullContent == "" && !isCompleted {
        ErrorKeeps(start, NoFullResponse);
        SendErrorResponse(res, NoFullResponse);
      }
    }

    /** The `error` handler. */
    method OnError()
      requires Valid()
      modifies res
      ensures Valid()
      ensures Snapshot() == ErrorTo(old(Snapshot()), OllamaStreamError)
    {
      ErrorKeeps(Snapshot(), OllamaStreamError);
      SendErrorResponse(res, OllamaStreamError);
    }
  }

  /** A stream that ends with no content and no completion sends the error event, if it still can. */
  lemma EmptyStreamErrors(st: Stream, saveFails: bool)
    requires st.fullContent == "" && !st.isCompleted
    ensures !st.headersSent ==> EndEffect(st, saveFails).events == st.events + [Failure(NoFullResponse)]
    ensures st.headersSent ==> EndEffect(st, saveFails).events == st.events
  {
  }

  /** The handler's state and buffer after each chunk in turn. */
  function StreamChunks(st: Stream, buffer: string, chunks: seq<string>, parse: RecService.Parser, saveFails: bool)
    : (Stream, string)
    decreases |chunks|
  {
    if |chunks| == 0 then (st, buffer)
    else
      var (st1, buffer1) := StreamChunks(st, buffer, chunks[..|chunks| - 1], parse, saveFails);
      var (lines, rest) := SplitBuffer(buffer1 + chunks[|chunks| - 1]);
      (LinesEffect(st1, lines, parse, saveFails).0, rest)
  }

  /** The stream's `error` or `end` event. */
  function Finish(st: Stream, streamError: bool, saveFails: bool): Stream
  {
    if streamError then ErrorTo(st, OllamaStreamError) else EndEffect(st, saveFails)
  }

  /** The whole stream: every chunk, then its end or its error. */
  function StreamRun(st: Stream, chunks: seq<string>, streamError: bool, parse: RecService.Parser, saveFails: bool): Stream
  {
    Finish(StreamChunks(st, "", chunks, parse, saveFails).0, streamError, saveFails)
  }

  /**
   * However the chunks fall and whether the stream ends or fails, a
   * stream that starts without a completion event writes at most one.
   */
  lemma CompletesAtMostOnce(st: Stream, chunks: seq<string>, streamError: bool, parse: RecService.Parser, saveFails: bool)
    requires CompletesOnce(st)
    ensures DoneCount(StreamRun(st, chunks, streamError, parse, saveFails).events) <= 1
  {
    ChunksKeep(st, "", chunks, parse, saveFails);
    var mid := StreamChunks(st, "", chunks, parse, saveFails).0;
    if streamError {
      ErrorKeeps(mid, OllamaStreamError);
    } else if mid.fullContent != "" && !mid.isCompleted {
      CompleteOnce(mid, saveFails);
    } else if mid.fullContent == "" && !mid.isCompleted {
      ErrorKeeps(mid, NoFullResponse);
    }
  }

  lemma {:induction false} ChunksKeep(st: Stream, buffer: string, chunks: seq<string>, parse: RecService.Parser, saveFails: bool)
    requires CompletesOnce(st)
    ensures CompletesOnce(StreamChunks(st, buffer, chunks, parse, saveFails).0)
    decreases |chunks|
  {
    if |chunks| > 0 {
      ChunksKeep(st, buffer, chunks[..|chunks| - 1], parse, saveFails);
      var (st1, buffer1) := StreamChunks(st, buffer, chunks[..|chunks| - 1], parse, saveFails);
      LinesKeep(st1, SplitBuffer(buffer1 + chunks[|chunks| - 1]).0, parse, saveFails);
    }
  }

  /** How the POST to Ollama went. */
  datatype Connection = Connected | Refused | Unreachable

  /** The error event's text when the request cannot be built or sent. */
  function RequestError(built: bool, connection: Connection): string
  {
    if built && connection == Refused then OllamaUnreachable else OllamaCallFailed
  }

  /**
   * `generateOllamaStreamResponse`: the request, then the chunks as they
   * arrive and the stream's end (or its error). A request that cannot be
   * built or sent gets an error event, unless the headers have gone out.
   */
  method OllamaStreamResponse(res: SseResponse, session: seq<Field>, message: Json,
                              historyRows: Option<seq<seq<Field>>>, parse: RecService.Parser,
                              connection: Connection, chunks: seq<string>, streamError: bool, saveFails: bool)
    returns (request: Option<ChatRequest>)
    requires DoneCount(res.events) == 0
    modifies res
    ensures request == BuildRequest(session, message, SessionHistory(historyRows), parse)
    ensures request.None? || connection != Connected ==>
      res.events == old(res.events) + (if old(res.headersSent) then [] else [Failure(RequestError(request.Some?, connection))])
    ensures request.Some? && connection == Connected ==>
      var fin := StreamRun(Stream("", false, old(res.events), old(res.headersSent), old(res.ended)),
                           chunks, streamError, parse, saveFails);
      res.events == fin.events && res.headersSent == fin.headersSent && res.ended == fin.ended
  {
    var history := SessionHistory(historyRows);
    request := BuildRequest(session, message, history, parse);
    if request.None? || connection != Connected {
      SendErrorResponse(res, RequestError(request.Some?, connection));
      return;
    }
    RunStream(res, chunks, streamError, parse, saveFails);
  }

  /** The stream's life once the request went through: each chunk in turn, then its end or its error. */
  method RunStream(res: SseResponse, chunks: seq<string>, streamError: bool, parse: RecService.Parser, saveFails: bool)
    requires DoneCount(res.events) == 0
    modifies res
    ensures var fin := StreamRun(Stream("", false, old(res.events), old(res.headersSent), old(res.ended)),
                                 chunks, streamError, parse, saveFails);
      res.events == fin.events && res.headersSent == fin.headersSent && res.ended == fin.ended
  {
    ghost var start := Stream("", false, res.events, res.headersSent, res.ended);
    var handler := new OllamaStream(res, parse, saveFails);
    for c := 0 to |chunks|
      invariant handler.res == res && handler.parse == parse && handler.saveFails == saveFails
      invariant handler.Valid()
      invariant (handler.Snapshot(), handler.buffer) == StreamChunks(start, "", chunks[..c], parse, saveFails)
    {
      assert chunks[..c + 1][..c] == chunks[..c];
      var lines := handler.OnData(chunks[c]);
    }
    assert chunks[..|chunks|] == chunks;
    if streamError {
      handler.OnError();
    } else {
      handler.OnEnd();
    }
  }

  // ---------------------------------------------------------------------
  // The mock answer and the dispatch
  // ---------------------------------------------------------------------

  /** The mock answer's text: it quotes the user's message and names the model. */
  function MockText(message: Json, modelName: Json): (r: string)
    ensures Contains(r, JsString(message)) && Contains(r, JsString(modelName))
    ensures StartsWith(r, "这是对您的问题 \"")
  {
    RecService.Embeds("这是对您的问题 \"", JsString(message), "\" 的模拟回复。我是 ", JsString(modelName),
                      " 模型，正在为您提供帮助。这是一个流式响应的演示，内容会逐步显示。");
    "这是对您的问题 \"" + JsString(message) + "\" 的模拟回复。我是 " + JsString(modelName)
    + " 模型，正在为您提供帮助。这是一个流式响应的演示，内容会逐步显示。"
  }

  /** One content event per character of `text`. */
  function CharEvents(text: string): (r: seq<Event>)
    ensures |r| == |text|
    ensures forall i :: 0 <= i < |text| ==> r[i] == Content(JStr([text[i]]))
  {
    if |text| == 0 then [] else CharEvents(text[..|text| - 1]) + [Content(JStr([text[|text| - 1]]))]
  }

  /** The mock's typing loop: one content event per character, gathering the text. */
  method StreamChars(res: SseResponse, words: string) returns (fullContent: string)
    modifies res
    ensures fullContent == words
    ensures res.events == old(res.events) + CharEvents(words) && res.ended == old(res.ended)
    ensures res.headersSent == (old(res.headersSent) || |words| > 0)
  {
    fullContent := "";
    ghost var start := res.events;
    for i := 0 to |words|
      invariant fullContent == words[..i]
      invariant res.events == start + CharEvents(words[..i])
      invariant res.ended == old(res.ended)
      invariant res.headersSent == (old(res.headersSent) || i > 0)
    {
      assert words[..i + 1] == words[..i] + [words[i]];
      fullContent := fullContent + [words[i]];
      res.Write(Content(JStr([words[i]])));
    }
    assert words[..|words|] == words;
  }

  /**
   * `generateMockStreamResponse`: the text character by character, then
   * the completion with the whole text. When saving fails the headers have
   * gone out with the first character, so no error event follows and the
   * response is left open.
   */
  method MockStreamResponse(res: SseResponse, message: Json, modelName: Json, saveFails: bool)
    modifies res
    ensures var text := MockText(message, modelName);
      !saveFails ==> res.events == old(res.events) + CharEvents(text) + [Done(text)] && res.ended
    ensures var text := MockText(message, modelName);
      saveFails ==> res.events == old(res.events) + CharEvents(text) && res.ended == old(res.ended)
  {
    var words := MockText(message, modelName);
    var fullContent := StreamChars(res, words);
    if saveFails {
      SendErrorResponse(res, SaveFailed);
    } else {
      res.Write(Done(fullContent));
      res.End();
    }
  }

  datatype Backend = OllamaBackend | MockBackend

  /** `model_type` `"ollama"` goes to Ollama; `"openai"`, which falls through to the mock, and every other type get the mock. */
  function Dispatch(modelType: Json): Backend
  {
    if modelType == JStr("ollama") then OllamaBackend else MockBackend
  }

  lemma DispatchCases(modelType: Json)
    ensures Dispatch(modelType) == OllamaBackend <==> modelType == JStr("ollama")
    ensures modelType == JStr("openai") ==> Dispatch(modelType) == MockBackend
  {
  }

  /**
   * `generateStreamResponse`: Ollama sessions stream from Ollama, every
   * other session gets the mock answer; the events are those of the chosen
   * branch. Either way at most one completion event is written.
   */
  method GenerateStreamResponse(res: SseResponse, session: seq<Field>, message: Json,
                                historyRows: Option<seq<seq<Field>>>, parse: RecService.Parser,
                                connection: Connection, chunks: seq<string>, streamError: bool, saveFails: bool)
    requires DoneCount(res.events) == 0
    modifies res
    ensures DoneCount(res.events) <= 1
    ensures Dispatch(Lookup(session, "model_type")) == MockBackend ==>
      var text := MockText(message, Lookup(session, "model_name"));
      res.events == old(res.events) + CharEvents(text) + (if saveFails then [] else [Done(text)])
    ensures Dispatch(Lookup(session, "model_type")) == OllamaBackend ==>
      res.events == OllamaEvents(Stream("", false, old(res.events), old(res.headersSent), old(res.ended)),
                                 BuildRequest(session, message, SessionHistory(historyRows), parse),
                                 connection, chunks, streamError, parse, saveFails)
  {
    if Dispatch(Lookup(session, "model_type")) == OllamaBackend {
      StreamFromOllama(res, session, message, historyRows, parse, connection, chunks, streamError, saveFails);
    } else {
      StreamFromMock(res, message, Lookup(session, "model_name"), saveFails);
    }
  }

  /**
   * The events the Ollama branch leaves, from the response as it was: an
   * error event (unless the headers have gone out) when the request cannot
   * be built or sent, otherwise the stream's run.
   */
  function OllamaEvents(start: Stream, request: Option<ChatRequest>, connection: Connection, chunks: seq<string>,
                        streamError: bool, parse: RecService.Parser, saveFails: bool): seq<Event>
  {
    if request.None? || connection != Connected then
      start.events + (if start.headersSent then [] else [Failure(RequestError(request.Some?, connection))])
    else StreamRun(start, chunks, streamError, parse, saveFails).events
  }

  /** The Ollama branch of the dispatch: the events of the built request's run, with one completion event at most. */
  method StreamFromOllama(res: SseResponse, session: seq<Field>, message: Json,
                          historyRows: Option<seq<seq<Field>>>, parse: RecService.Parser,
                          connection: Connection, chunks: seq<string>, streamError: bool, saveFails: bool)
    requires DoneCount(res.events) == 0
    modifies res
    ensures res.events == OllamaEvents(Stream("", false, old(res.events), old(res.headersSent), old(res.ended)),
                                       BuildRequest(session, message, SessionHistory(historyRows), parse),
                                       connection, chunks, streamError, parse, saveFails)
    ensures DoneCount(res.events) <= 1
  {
    ghost var start := Stream("", false, res.events, res.headersSent, res.ended);
    var request := OllamaStreamResponse(res, session, message, historyRows, parse, connection, chunks, streamError, saveFails);
    if request.Some? && connection == Connected {
      CompletesAtMostOnce(start, chunks, streamError, parse, saveFails);
    } else if start.headersSent {
      assert res.events == start.events;
    } else {
      DoneCountAppend(start.events, Failure(RequestError(request.Some?, connection)));
    }
  }

  /** The mock branch of the dispatch: the answer character by character, then its completion. */
  method StreamFromMock(res: SseResponse, message: Json, modelName: Json, saveFails: bool)
    requires DoneCount(res.events) == 0
    modifies res
    ensures var text := MockText(message, modelName);
      res.events == old(res.events) + CharEvents(text) + (if saveFails then [] else [Done(text)])
    ensures DoneCount(res.events) <= 1
  {
    MockStreamResponse(res, message, modelName, saveFails);
    var text := MockText(message, modelName);
    MockCompletesOnce(text, saveFails);
    DoneCountConcat(old(res.events), CharEvents(text) + (if saveFails then [] else [Done(text)]));
    assert res.events == old(res.events) + (CharEvents(text) + (if saveFails then [] else [Done(text)]));
  }

  /** The mock answer holds one completion event at most: none when saving fails. */
  lemma MockCompletesOnce(text: string, saveFails: bool)
    ensures DoneCount(CharEvents(text) + (if saveFails then [] else [Done(text)])) == (if saveFails then 0 else 1)
  {
    NoDoneInChars(text);
    if !saveFails {
      DoneCountAppend(CharEvents(text), Done(text));
    } else {
      assert CharEvents(text) + [] == CharEvents(text);
    }
  }

  lemma {:induction false} NoDoneInChars(text: string)
    ensures DoneCount(CharEvents(text)) == 0
    decreases |text|
  {
    if |text| > 0 {
      NoDoneInChars(text[..|text| - 1]);
      DoneCountAppend(CharEvents(text[..|text| - 1]), Content(JStr([text[|text| - 1]])));
    }
  }
}
