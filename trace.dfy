/**
 * The trace context (trace.go): a trace identifier, an optional span
 * identifier, and start/elapsed timing; how a trace is minted or derived
 * from a parent identifier found in a context or an HTTP header; how its
 * root identifier is put back into a context; and the log fields it emits.
 *
 * Identifier generation is an oracle: each operation that draws a fresh
 * UUID takes the drawn value as a parameter `uuid`, which is "" when the
 * generator failed. The clock is an integer count of nanoseconds; ZeroTime
 * stands for Go's zero time.Time, the only instant IsZero accepts.
 */
module Trace {
  import Slog
  import opened NetHttp

  /** Name of the HTTP header that carries a trace identifier. */
  const TraceIDHTTPHeader := "X-Trace-Id"

  const TraceKey := "trace"
  const TraceIDKey := "id"
  const TraceSpanIDKey := "span_id"
  const TraceTimeElapsedKey := "time_elapsed_ms"

  /** ctxTraceID: the value "traceID" of the package's private key type contextual. */
  const CtxTraceID := Key("logm.contextual", "traceID")

  const ZeroTime := 0
  const MinInt64 := -0x8000_0000_0000_0000
  const MaxInt64 := 0x7fff_ffff_ffff_ffff
  const NanosPerMilli := 1_000_000

  /**
   * Time.Sub, and so time.Since: t - u as a Duration, saturated to the int64
   * range. The contract is the definition: Sub is one conditional.
   */
  function Sub(t: int, u: int): (d: int)
    ensures MinInt64 <= d <= MaxInt64
    ensures MinInt64 <= t - u <= MaxInt64 ==> d == t - u
    ensures t - u > MaxInt64 ==> d == MaxInt64
    ensures t - u < MinInt64 ==> d == MinInt64
  {
    if t - u > MaxInt64 then MaxInt64 else if t - u < MinInt64 then MinInt64 else t - u
  }

  /** Duration.Milliseconds: whole milliseconds, truncated toward zero. */
  function Milliseconds(d: int): (ms: int)
    ensures d >= 0 ==> 0 <= ms && ms * NanosPerMilli <= d < (ms + 1) * NanosPerMilli
    ensures d < 0 ==> ms <= 0 && (ms - 1) * NanosPerMilli < d <= ms * NanosPerMilli
  {
    if d >= 0 then d / NanosPerMilli else -((-d) / NanosPerMilli)
  }

  /** The identifiers of a trace. */
  datatype Ids = Ids(id: string, spanID: string)

  /**
   * The identifiers NewTraceSpan gives: for an empty parent a new root
   * (the drawn identifier, no span); otherwise the parent's identifier
   * with the drawn identifier as span. The contract is the definition
   * (NewTraceSpan is one conditional); SpanIffParent states what it gives.
   */
  function SpanIds(parentID: string, uuid: string): (r: Ids)
    ensures parentID == "" ==> r == Ids(uuid, "")
    ensures parentID != "" ==> r.id == parentID && r.spanID == uuid
  {
    if parentID == "" then Ids(uuid, "") else Ids(parentID, uuid)
  }

  /**
   * With a working generator a derived trace always has an identifier, and
   * it has a span identifier exactly when it extends a non-empty parent.
   */
  lemma SpanIffParent(parentID: string, uuid: string)
    requires uuid != ""
    ensures SpanIds(parentID, uuid).id != ""
    ensures SpanIds(parentID, uuid).spanID != "" <==> parentID != ""
  {
  }

  /**
   * contextValue: the string bound to key, or "" when it is absent or not a
   * string. The contract is the definition: contextValue is one type assertion.
   */
  function ContextValue(ctx: Context, key: Key): (v: string)
    ensures key in ctx.values && ctx.values[key].StringValue? ==> v == ctx.values[key].s
    ensures key !in ctx.values || !ctx.values[key].StringValue? ==> v == ""
  {
    if key in ctx.values && ctx.values[key].StringValue? then ctx.values[key].s else ""
  }

  /**
   * logAttrs' list: the identifier first, then the span identifier only when
   * there is one, then the stored elapsed time only when the trace was started.
   */
  function TraceAttrs(id: string, spanID: string, start: int, elapsedMs: int): (r: seq<Slog.Attr>)
    ensures |r| == 1 + (if spanID != "" then 1 else 0) + (if start != ZeroTime then 1 else 0)
    ensures r[0] == Slog.String(TraceIDKey, id)
    ensures spanID != "" ==> r[1] == Slog.String(TraceSpanIDKey, spanID)
    ensures start != ZeroTime ==> r[|r| - 1] == Slog.Int64(TraceTimeElapsedKey, elapsedMs)
    ensures TraceSpanIDKey in Slog.Keys(r) <==> spanID != ""
    ensures TraceTimeElapsedKey in Slog.Keys(r) <==> start != ZeroTime
  {
    [Slog.String(TraceIDKey, id)]
    + (if spanID != "" then [Slog.String(TraceSpanIDKey, spanID)] else [])
    + (if start != ZeroTime then [Slog.Int64(TraceTimeElapsedKey, elapsedMs)] else [])
  }

  /** A trace context; Start and End update its timing in place. */
  class Trace {
    var TimeElapsedMs: int
    var StartTime: int
    var ID: string
    var SpanID: string

    /** The composite literal Trace{ID: id, SpanID: spanID}: not started, nothing elapsed. */
    constructor (id: string, spanID: string)
      ensures ID == id && SpanID == spanID
      ensures StartTime == ZeroTime && TimeElapsedMs == 0
    {
      TimeElapsedMs := 0;
      StartTime := ZeroTime;
      ID := id;
      SpanID := spanID;
    }

    /** Start: records now as the start time; nothing else changes. */
    method Start(now: int)
      modifies this`StartTime
      ensures StartTime == now
    {
      StartTime := now;
    }

    /** End: the whole milliseconds since the start time; nothing else changes. */
    method End(now: int)
      modifies this`TimeElapsedMs
      ensures TimeElapsedMs == Milliseconds(Sub(now, StartTime))
    {
      TimeElapsedMs := Milliseconds(Sub(now, StartTime));
    }

    /** logAttrs, built by conditional appends. */
    method LogAttrs() returns (res: seq<Slog.Attr>)
      ensures res == TraceAttrs(ID, SpanID, StartTime, TimeElapsedMs)
    {
      res := [Slog.String(TraceIDKey, ID)];
      if SpanID != "" {
        res := res + [Slog.String(TraceSpanIDKey, SpanID)];
      }
      if StartTime != ZeroTime {
        res := res + [Slog.Int64(TraceTimeElapsedKey, TimeElapsedMs)];
      }
    }

    /** LogAttr: the group "trace" over the list logAttrs builds. */
    method LogAttr() returns (a: Slog.Attr)
      ensures a == Slog.Group(TraceKey, TraceAttrs(ID, SpanID, StartTime, TimeElapsedMs))
    {
      var attrs := LogAttrs();
      a := Slog.Group(TraceKey, attrs);
    }

    /** LogValue (slog.LogValuer): a group value over the same list. */
    method LogValue() returns (v: Slog.Value)
      ensures v == Slog.GroupValue(TraceAttrs(ID, SpanID, StartTime, TimeElapsedMs))
    {
      var attrs := LogAttrs();
      v := Slog.GroupValue(attrs);
    }

    /** NewContext: a child context carrying the trace identifier, and only it, under ctxTraceID. */
    function NewContext(ctx: Context): (r: Context)
      reads this
      ensures ContextValue(r, CtxTraceID) == ID
      ensures forall k :: k != CtxTraceID ==> (k in r.values <==> k in ctx.values)
      ensures forall k :: k != CtxTraceID && k in ctx.values ==> r.values[k] == ctx.values[k]
    {
      WithValue(ctx, CtxTraceID, StringValue(ID))
    }
  }

  /** NewTrace: a new root trace named by the drawn identifier. */
  method NewTrace(uuid: string) returns (t: Trace)
    ensures fresh(t)
    ensures t.ID == uuid && t.SpanID == ""
    ensures t.StartTime == ZeroTime && t.TimeElapsedMs == 0
  {
    t := new Trace(uuid, "");
  }

  /** NewTraceSpan: a root for an empty parent, otherwise a span of the parent. */
  method NewTraceSpan(parentID: string, uuid: string) returns (t: Trace)
    ensures fresh(t)
    ensures Ids(t.ID, t.SpanID) == SpanIds(parentID, uuid)
    ensures t.StartTime == ZeroTime && t.TimeElapsedMs == 0
  {
    if parentID == "" {
      t := NewTrace(uuid);
    } else {
      t := new Trace(parentID, uuid);
    }
  }

  /** NewTraceFromContext: NewTraceSpan of the identifier the context carries. */
  method NewTraceFromContext(ctx: Context, uuid: string) returns (t: Trace)
    ensures fresh(t)
    ensures Ids(t.ID, t.SpanID) == SpanIds(ContextValue(ctx, CtxTraceID), uuid)
    ensures t.StartTime == ZeroTime && t.TimeElapsedMs == 0
  {
    t := NewTraceSpan(ContextValue(ctx, CtxTraceID), uuid);
  }

  /** NewTraceFromHTTPRequest: NewTraceSpan of the X-Trace-Id header, "" when it is absent. */
  method NewTraceFromHTTPRequest(r: Request, uuid: string) returns (t: Trace)
    ensures fresh(t)
    ensures Ids(t.ID, t.SpanID) == SpanIds(HeaderGet(r.header, TraceIDHTTPHeader), uuid)
    ensures t.StartTime == ZeroTime && t.TimeElapsedMs == 0
  {
    t := NewTraceSpan(HeaderGet(r.header, TraceIDHTTPHeader), uuid);
  }

  /**
   * Round trip: a trace re-derived from the context another trace made
   * carries that trace's identifier, and never its span identifier.
   */
  lemma NewContextRoundTrip(t: Trace, ctx: Context, uuid: string)
    requires t.ID != ""
    ensures SpanIds(ContextValue(t.NewContext(ctx), CtxTraceID), uuid) == Ids(t.ID, uuid)
  {
  }

  /** A trace re-derived from a fresh context round trips too (NewContext on Background). */
  method ContextRoundTrip(id: string, spanID: string, uuid: string) returns (t2: Trace)
    requires id != ""
    ensures t2.ID == id && t2.SpanID == uuid
  {
    var t1 := new Trace(id, spanID);
    var ctx := t1.NewContext(Background);
    t2 := NewTraceFromContext(ctx, uuid);
  }

  /** Start then End at least a millisecond later reports at least one millisecond. */
  lemma ElapsedAtLeastOneMs(start: int, now: int)
    requires NanosPerMilli <= now - start <= MaxInt64
    ensures Milliseconds(Sub(now, start)) >= 1
  {
  }

  /** A trace started one second before End reports 1000 ms. */
  lemma EndOneSecondLater(now: int)
    ensures Milliseconds(Sub(now, now - 1_000_000_000)) == 1000
  {
  }

  /**
   * Ending a trace that was never started measures from the zero time, and
   * on any realistic clock that saturates; logAttrs does not emit it.
   */
  lemma EndWithoutStartNeverEmitted(id: string, spanID: string, now: int)
    requires now - ZeroTime > MaxInt64
    ensures Milliseconds(Sub(now, ZeroTime)) == MaxInt64 / NanosPerMilli
    ensures TraceTimeElapsedKey !in Slog.Keys(TraceAttrs(id, spanID, ZeroTime, Milliseconds(Sub(now, ZeroTime))))
  {
  }
}
