/**
 * The part of the structured-log record shape (golang.org/x/exp/slog) that
 * the instrumentation builds: leveled records carrying a message and a list
 * of key-value attributes, where a value may itself be a group of attributes.
 * Rendering and handlers are not part of this model.
 */
module Slog {

  datatype Level = LevelDebug | LevelInfo | LevelWarn | LevelError

  datatype Value =
    | StringValue(s: string)
    | Int64Value(i: int)
    | GroupValue(attrs: seq<Attr>)

  datatype Attr = Attr(key: string, value: Value)

  /** One call of Logger.Debug/Info/Error: level, message, attributes in argument order. */
  datatype LogRecord = LogRecord(level: Level, message: string, attrs: seq<Attr>)

  /** slog.String */
  function String(key: string, v: string): Attr
  {
    Attr(key, StringValue(v))
  }

  /** slog.Int and slog.Int64 */
  function Int64(key: string, v: int): Attr
  {
    Attr(key, Int64Value(v))
  }

  /** slog.Group */
  function Group(key: string, attrs: seq<Attr>): Attr
  {
    Attr(key, GroupValue(attrs))
  }

  /** The keys of a list of attributes, in order. */
  function Keys(attrs: seq<Attr>): (ks: seq<string>)
    ensures |ks| == |attrs|
    ensures forall i :: 0 <= i < |attrs| ==> ks[i] == attrs[i].key
  {
    if attrs == [] then [] else [attrs[0].key] + Keys(attrs[1..])
  }
}
