/**
 * The HTTP middlewares (http.go): a response-writer wrapper that counts
 * the status and the bytes written; the logging interceptor, which emits
 * one record per request; the panic barrier, which turns a panic into two
 * log records and a 500 response; and the propagation interceptor, which
 * hands the next handler a context carrying the trace identifier.
 *
 * The wrapped handler `next` is given by what it does: the sequence of calls
 * it makes on the response writer, or the value it panics with. The wrapped
 * http.ResponseWriter is given by what its Write reports.
 */
module Http {
  import opened Wrappers
  import Slog
  import Text
  import opened NetHttp
  import Trace

  const StatusOK := 200
  const StatusInternalServerError := 500

  const HTTPRequestKey := "req"
  const HTTPPathKey := "path"
  const HTTPMethodKey := "method"
  const HTTPRemoteAddrKey := "remote_addr"
  const HTTPQueryKey := "query"
  const HTTPResponseKey := "resp"
  const HTTPStatusKey := "status"
  const HTTPSizeKey := "size"
  const PanicKey := "panic"

  /** An error value, known by the text its Error method returns. */
  datatype Error = Error(text: string)

  /** logHTTPRequest: the group "req" holding path, method, remote address and query, in that order. */
  function LogHTTPRequest(r: Request): (a: Slog.Attr)
    ensures a.key == HTTPRequestKey && a.value.GroupValue?
    ensures Slog.Keys(a.value.attrs) == [HTTPPathKey, HTTPMethodKey, HTTPRemoteAddrKey, HTTPQueryKey]
    ensures a.value.attrs[0].value == Slog.StringValue(r.path)
    ensures a.value.attrs[1].value == Slog.StringValue(r.verb)
    ensures a.value.attrs[2].value == Slog.StringValue(r.remoteAddr)
    ensures a.value.attrs[3].value == Slog.StringValue(r.rawQuery)
  {
    Slog.Group(HTTPRequestKey, [
      Slog.String(HTTPPathKey, r.path),
      Slog.String(HTTPMethodKey, r.verb),
      Slog.String(HTTPRemoteAddrKey, r.remoteAddr),
      Slog.String(HTTPQueryKey, r.rawQuery)])
  }

  /** A call passed on to the wrapped http.ResponseWriter. */
  datatype WriterCall = WriteCall(data: string) | WriteHeaderCall(code: int)

  /** httpResponseWriter: passes every call on, remembering the status and counting the bytes. */
  class ResponseWriter {
    var size: int
    var statusCode: int
    /** The calls passed on to the wrapped writer, in order. */
    var forwarded: seq<WriterCall>

    /** newHTTPResponseWriter: status 200 until a handler says otherwise, nothing written. */
    constructor ()
      ensures statusCode == StatusOK && size == 0 && forwarded == []
    {
      size := 0;
      statusCode := StatusOK;
      forwarded := [];
    }

    /**
     * Write: passes data on and adds to size the count the wrapped writer
     * reports (written), even when it also reports an error; the status is
     * untouched.
     */
    method Write(data: string, written: int, failure: Option<Error>) returns (n: int, err: Option<Error>)
      modifies this`size, this`forwarded
      ensures n == written && err == failure
      ensures size == old(size) + written
      ensures forwarded == old(forwarded) + [WriteCall(data)]
    {
      forwarded := forwarded + [WriteCall(data)];
      n, err := written, failure;
      size := size + n;
    }

    /** WriteHeader: the status becomes code (so the last call wins); size is untouched. */
    method WriteHeader(code: int)
      modifies this`statusCode, this`forwarded
      ensures statusCode == code
      ensures forwarded == old(forwarded) + [WriteHeaderCall(code)]
    {
      statusCode := code;
      forwarded := forwarded + [WriteHeaderCall(code)];
    }
  }

  /** logHTTPResponse: the group "resp" holding the status and the size. */
  function LogHTTPResponse(w: ResponseWriter): (a: Slog.Attr)
    reads w
    ensures a.key == HTTPResponseKey && a.value.GroupValue?
    ensures Slog.Keys(a.value.attrs) == [HTTPStatusKey, HTTPSizeKey]
    ensures a.value.attrs[0].value == Slog.Int64Value(w.statusCode)
    ensures a.value.attrs[1].value == Slog.Int64Value(w.size)
  {
    Slog.Group(HTTPResponseKey, [Slog.Int64(HTTPStatusKey, w.statusCode), Slog.Int64(HTTPSizeKey, w.size)])
  }

  /** One call a handler makes on its response writer, with what the wrapped writer reports for a Write. */
  datatype Action =
    | WriteBody(data: string, written: int, failure: Option<Error>)
    | SetStatus(code: int)

  /** The status after the actions, starting from status. */
  function StatusAfter(status: int, actions: seq<Action>): int
    decreases |actions|
  {
    if actions == [] then status
    else
      var before := StatusAfter(status, actions[..|actions| - 1]);
      match actions[|actions| - 1]
      case SetStatus(code) => code
      case WriteBody(_, _, _) => before
  }

  /** The bytes the wrapped writer reports written over the actions. */
  function Written(actions: seq<Action>): int
    decreases |actions|
  {
    if actions == [] then 0
    else
      Written(actions[..|actions| - 1]) +
      match actions[|actions| - 1]
      case WriteBody(_, n, _) => n
      case SetStatus(_) => 0
  }

  /** The calls the wrapper passes on for the actions. */
  function Calls(actions: seq<Action>): seq<WriterCall>
    decreases |actions|
  {
    if actions == [] then []
    else
      Calls(actions[..|actions| - 1]) +
      match actions[|actions| - 1]
      case WriteBody(data, _, _) => [WriteCall(data)]
      case SetStatus(code) => [WriteHeaderCall(code)]
  }

  /** The last WriteHeader wins; when there is none the initial status stands. */
  lemma {:induction false} LastWriteHeaderWins(status: int, actions: seq<Action>)
    ensures (forall i :: 0 <= i < |actions| ==> !actions[i].SetStatus?) ==> StatusAfter(status, actions) == status
    ensures forall i :: 0 <= i < |actions| && actions[i].SetStatus? &&
                        (forall j :: i < j < |actions| ==> !actions[j].SetStatus?)
                    ==> StatusAfter(status, actions) == actions[i].code
    decreases |actions|
  {
    if actions != [] {
      var init := actions[..|actions| - 1];
      LastWriteHeaderWins(status, init);
      forall i | 0 <= i < |init| ensures init[i] == actions[i] { }
    }
  }

  /** next.ServeHTTP on the wrapper: the handler's calls, one after the other. */
  method ServeHTTP(w: ResponseWriter, actions: seq<Action>)
    modifies w
    ensures w.statusCode == StatusAfter(old(w.statusCode), actions)
    ensures w.size == old(w.size) + Written(actions)
    ensures w.forwarded == old(w.forwarded) + Calls(actions)
  {
    for i := 0 to |actions|
      invariant w.statusCode == StatusAfter(old(w.statusCode), actions[..i])
      invariant w.size == old(w.size) + Written(actions[..i])
      invariant w.forwarded == old(w.forwarded) + Calls(actions[..i])
    {
      assert actions[..i + 1][..i] == actions[..i];
      match actions[i]
      case WriteBody(data, written, failure) =>
        var _, _ := w.Write(data, written, failure);
      case SetStatus(code) =>
        w.WriteHeader(code);
    }
    assert actions[..|actions|] == actions;
  }

  /** The message of the logging interceptor: "<status> <method> <path>", the status in decimal. */
  function Message(status: int, verb: string, path: string): string
  {
    Text.FormatInt(status) + " " + verb + " " + path
  }

  /** The status can be read back from the message: the digits before its first space. */
  lemma MessageStartsWithStatus(status: nat, verb: string, path: string)
    ensures var m := Message(status, verb, path);
      var i := Text.IndexOf(m, ' ');
      && 0 < i
      && Text.IsDigits(m[..i])
      && Text.ParseDecimal(m[..i]) == status
      && m[i + 1..] == verb + " " + path
  {
    var d := Text.NatToDecimal(status);
    var rest := verb + " " + path;
    var m := Message(status, verb, path);
    assert m == d + [' '] + rest;
    Text.IndexAfterPrefix(d, ' ', rest);
    assert m[..|d|] == d && m[|d| + 1..] == rest;
    Text.ParseNatToDecimal(status);
  }

  /**
   * LogHandler: derives the trace from the X-Trace-Id header and starts it,
   * serves the request through the wrapper, ends the trace, and emits one
   * Info record with the request, response and trace groups.
   * startNow and endNow are the clock before and after the handler ran.
   */
  method LogHandler(r: Request, next: seq<Action>, uuid: string, startNow: int, endNow: int)
    returns (rec: Slog.LogRecord, wh: ResponseWriter)
    ensures wh.statusCode == StatusAfter(StatusOK, next)
    ensures wh.size == Written(next)
    ensures wh.forwarded == Calls(next)
    ensures rec.level == Slog.LevelInfo
    ensures rec.message == Message(wh.statusCode, r.verb, r.path)
    ensures var ids := Trace.SpanIds(HeaderGet(r.header, Trace.TraceIDHTTPHeader), uuid);
      rec.attrs == [
        LogHTTPRequest(r),
        LogHTTPResponse(wh),
        Slog.Group(Trace.TraceKey, Trace.TraceAttrs(ids.id, ids.spanID, startNow,
                                                    Trace.Milliseconds(Trace.Sub(endNow, startNow))))]
  {
    var t := Trace.NewTraceFromHTTPRequest(r, uuid);
    t.Start(startNow);
    wh := new ResponseWriter();
    ServeHTTP(wh, next);
    t.End(endNow);
    var traceAttr := t.LogAttr();
    rec := Slog.LogRecord(Slog.LevelInfo, Message(wh.statusCode, r.verb, r.path),
                          [LogHTTPRequest(r), LogHTTPResponse(wh), traceAttr]);
  }

  /** The value recover returns after a panic, by its dynamic type. */
  datatype PanicValue =
    | PanicString(s: string)
    | PanicError(err: Error)
    | PanicOther(goSyntax: string)   // any other value, as the %#v verb renders it

  /**
   * The type switch of RecoverHandler; the contract is the switch itself,
   * one case per clause.
   */
  function Classify(p: PanicValue): (err: Error)
    ensures p.PanicString? ==> err.text == p.s
    ensures p.PanicError? ==> err == p.err
    ensures p.PanicOther? ==> err.text == "unsupported panic type: " + p.goSyntax
  {
    match p
    case PanicString(s) => Error(s)
    case PanicError(e) => e
    case PanicOther(v) => Error("unsupported panic type: " + v)
  }

  /** What the panic barrier does, in order. */
  datatype Effect =
    | Emit(record: Slog.LogRecord)
    | Respond(status: int, body: string)

  /**
   * RecoverHandler's deferred barrier. recovered is what recover returns
   * once next has run (None when it returned normally), stack the text of
   * debug.Stack. After a panic: an Error record with the error text, a
   * Debug record with the stack, both carrying a freshly minted trace under
   * "panic" and the request group, then http.Error's 500 response with msg.
   */
  method RecoverHandler(msg: string, r: Request, recovered: Option<PanicValue>, stack: string, uuid: string)
    returns (effects: seq<Effect>)
    ensures recovered.None? ==> effects == []
    ensures recovered.Some? ==>
      var attrs := [Slog.Attr(PanicKey, Slog.GroupValue(Trace.TraceAttrs(uuid, "", Trace.ZeroTime, 0))),
                    LogHTTPRequest(r)];
      effects == [
        Emit(Slog.LogRecord(Slog.LevelError, Classify(recovered.value).text, attrs)),
        Emit(Slog.LogRecord(Slog.LevelDebug, stack, attrs)),
        Respond(StatusInternalServerError, msg + "\n")]
  {
    effects := [];
    if recovered.Some? {
      var err := Classify(recovered.value);
      var t := Trace.NewTrace(uuid);
      var traceValue := t.LogValue();
      var attrs := [Slog.Attr(PanicKey, traceValue), LogHTTPRequest(r)];
      effects := effects + [Emit(Slog.LogRecord(Slog.LevelError, err.text, attrs))];
      effects := effects + [Emit(Slog.LogRecord(Slog.LevelDebug, stack, attrs))];
      effects := effects + [Respond(StatusInternalServerError, msg + "\n")];
    }
  }

  /**
   * TraceHandler: the request next receives carries, under ctxTraceID, the
   * X-Trace-Id header when it is non-empty and a fresh identifier otherwise;
   * nothing else about the request changes, its header included.
   */
  method TraceHandler(r: Request, uuid: string) returns (inner: Request)
    ensures inner == WithContext(r, inner.ctx)
    ensures var h := HeaderGet(r.header, Trace.TraceIDHTTPHeader);
      Trace.ContextValue(inner.ctx, Trace.CtxTraceID) == if h != "" then h else uuid
    ensures forall k :: k != Trace.CtxTraceID ==> (k in inner.ctx.values <==> k in r.ctx.values)
    ensures forall k :: k != Trace.CtxTraceID && k in r.ctx.values ==> inner.ctx.values[k] == r.ctx.values[k]
  {
    var t := Trace.NewTraceFromHTTPRequest(r, uuid);
    inner := WithContext(r, t.NewContext(r.ctx));
  }

  /** Behind TraceHandler, a trace derived from the context continues the header's trace. */
  method TraceHandlerContinuesHeader(r: Request, uuid: string, uuid2: string) returns (seen: Trace.Trace)
    requires HeaderGet(r.header, Trace.TraceIDHTTPHeader) != ""
    ensures seen.ID == HeaderGet(r.header, Trace.TraceIDHTTPHeader)
    ensures seen.SpanID == uuid2
  {
    var inner := TraceHandler(r, uuid);
    seen := Trace.NewTraceFromContext(inner.ctx, uuid2);
  }

  /** A GET of "/" without a trace header. */
  const ScenarioRequest := Request("GET", "/", "", "192.0.2.1:1234", map[], Background)

  /**
   * The logging interceptor on a handler that writes 200 and a 5-byte body
   * at "/", taking 2 ms: the record is "200 GET /" with path "/", status 200,
   * size 5, and a new trace named by the drawn identifier with its elapsed time.
   */
  method LogHandlerScenario(body: string, uuid: string) returns (rec: Slog.LogRecord)
    requires |body| == 5 && uuid != ""
    ensures rec.level == Slog.LevelInfo
    ensures rec.message == "200 GET /"
    ensures rec.attrs == [
      LogHTTPRequest(ScenarioRequest),
      Slog.Group(HTTPResponseKey, [Slog.Int64(HTTPStatusKey, 200), Slog.Int64(HTTPSizeKey, 5)]),
      Slog.Group(Trace.TraceKey, [Slog.String(Trace.TraceIDKey, uuid), Slog.Int64(Trace.TraceTimeElapsedKey, 2)])]
    ensures LogHTTPRequest(ScenarioRequest).value.attrs[0] == Slog.String(HTTPPathKey, "/")
  {
    var next := [SetStatus(StatusOK), WriteBody(body, 5, None)];
    assert next[..1] == [SetStatus(StatusOK)] && next[..1][..0] == [];
    assert Written(next[..1]) == 0;
    assert StatusAfter(StatusOK, next) == 200 && Written(next) == 5;
    assert Text.NatToDecimal(2) == "2";
    assert Text.NatToDecimal(20) == "20";
    assert Text.NatToDecimal(200) == "200";
    assert HeaderGet(ScenarioRequest.header, Trace.TraceIDHTTPHeader) == "";
    assert Trace.Milliseconds(Trace.Sub(1_002_000_000, 1_000_000_000)) == 2;
    var wh;
    rec, wh := LogHandler(ScenarioRequest, next, uuid, 1_000_000_000, 1_002_000_000);
    assert LogHTTPResponse(wh)
        == Slog.Group(HTTPResponseKey, [Slog.Int64(HTTPStatusKey, 200), Slog.Int64(HTTPSizeKey, 5)]);
    assert Trace.SpanIds("", uuid) == Trace.Ids(uuid, "");
    assert Trace.TraceAttrs(uuid, "", 1_000_000_000, 2)
        == [Slog.String(Trace.TraceIDKey, uuid), Slog.Int64(Trace.TraceTimeElapsedKey, 2)];
  }
}
