/**
 * The standard-library carriers the trace model reads and writes, reduced to
 * their values: a request-scoped context (context.Context) and an inbound
 * HTTP request (net/http.Request) with its header map.
 */
module NetHttp {

  /** A context key: Go compares keys by dynamic type and value. */
  datatype Key = Key(typeName: string, name: string)

  /** A context value: a string, or a value of some other dynamic type. */
  datatype CtxValue = StringValue(s: string) | OtherValue(typeName: string)

  /** A context's visible key-value bindings (the innermost binding of each key). */
  datatype Context = Context(values: map<Key, CtxValue>)

  /** context.Background: no bindings. */
  const Background := Context(map[])

  /** context.WithValue: a child context in which key is bound to v. */
  function WithValue(ctx: Context, key: Key, v: CtxValue): (r: Context)
    ensures key in r.values && r.values[key] == v
    ensures forall k :: k != key ==> (k in r.values <==> k in ctx.values)
    ensures forall k :: k != key && k in ctx.values ==> r.values[k] == ctx.values[k]
  {
    Context(ctx.values[key := v])
  }

  /** http.Header, keyed by canonical header name. */
  type Header = map<string, seq<string>>

  /**
   * Header.Get on a canonical name: the first value, or "" when there is
   * none. The contract is the definition: Get is one conditional.
   */
  function HeaderGet(h: Header, name: string): (v: string)
    ensures name in h && |h[name]| > 0 ==> v == h[name][0]
    ensures !(name in h && |h[name]| > 0) ==> v == ""
  {
    if name in h && |h[name]| > 0 then h[name][0] else ""
  }

  /** The parts of an inbound request that the instrumentation reads. */
  datatype Request = Request(
    verb: string,        // Method
    path: string,        // URL.Path
    rawQuery: string,    // URL.RawQuery
    remoteAddr: string,
    header: Header,
    ctx: Context)

  /** Request.WithContext: the same request carrying another context. */
  function WithContext(r: Request, ctx: Context): (r': Request)
    ensures r'.ctx == ctx
    ensures r'.verb == r.verb && r'.path == r.path && r'.rawQuery == r.rawQuery
    ensures r'.remoteAddr == r.remoteAddr && r'.header == r.header
  {
    r.(ctx := ctx)
  }
}
