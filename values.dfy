/** The shapes of data that flow between the research engine's stages: the
    values held in its dictionaries, the outcome of a call that may raise,
    and a chat-history entry. */
module Values {

  /** A value held in one of the source's dictionaries (the provider's
      record, the financial-data record): `None`, a string, or a number. */
  datatype Value = Nil | Str(s: string) | Num(x: real)

  /** Python truthiness: `None`, `""` and `0` are false, everything else true. */
  predicate Truthy(v: Value) {
    match v
    case Nil => false
    case Str(s) => s != []
    case Num(x) => x != 0.0
  }

  /** The format specifications the source applies to numbers: `/1e9` then
      `:.1f`, `:.2f`, `:.1f`, `*100` then `:.1f`, `:,`, and plain `str()`. */
  datatype NumberFormat = Billions1 | Fixed2 | Fixed1 | Percent1 | Grouped | Plain

  /** How a number is written under a format specification. Binary floating
      point and its rounding are not modelled, so the digits are a parameter. */
  type Figures = (NumberFormat, real) -> string

  /** `str(v)`, which is also what an f-string writes for `{v}`. */
  function Show(v: Value, figure: Figures): string {
    match v
    case Nil => "None"
    case Str(s) => s
    case Num(x) => figure(Plain, x)
  }

  /** `d.get(key, default)` */
  function Get(d: map<string, Value>, key: string, default: Value): Value {
    if key in d then d[key] else default
  }

  datatype Option<T> = None | Some(value: T)

  /** The outcome of a call that may raise: its value, or the text of the
      exception (`str(e)`). */
  datatype Outcome<T> = Ok(value: T) | Raised(reason: string)

  /** One entry of the chat history, `{"role": ..., "content": ...}`. */
  datatype Message = Message(role: string, content: string)
}
