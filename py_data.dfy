/** The values a practice record holds once parsed from JSON, with the pieces
    of Python behaviour the analyzers apply to them: `str()` as used inside
    f-strings, truthiness, `dict.get` and `len`. */
module PyData {
  import opened Wrappers
  import opened PyText

  /** Python's None, bool, int, float, str, list and dict. A float carries the
      decimal text that `str()` prints for it. */
  datatype Value =
    | Null
    | Bool(b: bool)
    | Int(i: int)
    | Float(x: real, text: string)
    | Str(s: string)
    | List(items: seq<Value>)
    | Dict(entries: seq<Entry>)

  /** One key/value pair of a dict, in insertion order. */
  datatype Entry = Entry(key: string, val: Value)

  /** A practice record: a dict from field name to value. */
  type Record = map<string, Value>

  /** `data.get(key, default)`. */
  function Get(data: Record, key: string, default: Value): Value {
    if key in data then data[key] else default
  }

  /** `f"{data.get(key, '')}"`: the text a field contributes to an f-string. */
  function FieldText(data: Record, key: string): string {
    Render(Get(data, key, Str("")))
  }

  /** `bool(v)`. */
  predicate Truthy(v: Value) {
    match v
    case Null => false
    case Bool(b) => b
    case Int(i) => i != 0
    case Float(x, _) => x != 0.0
    case Str(s) => s != ""
    case List(items) => items != []
    case Dict(entries) => entries != []
  }

  /** `len(v)` for a str, list or dict. */
  function Size(v: Value): nat
    requires v.Str? || v.List? || v.Dict?
  {
    match v
    case Str(s) => |s|
    case List(items) => |items|
    case Dict(entries) => |entries|
  }

  /** The keys of a dict, in insertion order. */
  function Keys<V>(entries: seq<(string, V)>): (r: seq<string>)
    ensures |r| == |entries|
    ensures forall k :: 0 <= k < |r| ==> r[k] == entries[k].0
  {
    seq(|entries|, k requires 0 <= k < |entries| => entries[k].0)
  }

  lemma KeysConcat<V>(a: seq<(string, V)>, b: seq<(string, V)>)
    ensures Keys(a + b) == Keys(a) + Keys(b)
  {
  }

  /** `key in d` and `d[key]` on a dict's entries. */
  function Lookup(entries: seq<Entry>, key: string): Option<Value> {
    if entries == [] then None
    else if entries[0].key == key then Some(entries[0].val)
    else Lookup(entries[1..], key)
  }

  /** `repr(s)` for a string: single quotes, or double quotes when the text
      holds a single quote and no double quote. */
  function QuoteText(s: string): string {
    if '\'' in s && '"' !in s then "\"" + s + "\"" else "'" + s + "'"
  }

  /** `str(v)`. Inside a list or dict, strings are shown by `repr`. */
  function Render(v: Value): string {
    match v
    case Null => "None"
    case Bool(b) => if b then "True" else "False"
    case Int(i) => IntToString(i)
    case Float(_, text) => text
    case Str(s) => s
    case List(items) => "[" + RenderItems(items) + "]"
    case Dict(entries) => "{" + RenderEntries(entries) + "}"
  }

  function RenderItems(items: seq<Value>): string {
    if items == [] then ""
    else
      (if items[0].Str? then QuoteText(items[0].s) else Render(items[0])) +
      (if |items| > 1 then ", " + RenderItems(items[1..]) else "")
  }

  function RenderEntries(entries: seq<Entry>): string {
    if entries == [] then ""
    else
      QuoteText(entries[0].key) + ": " +
      (if entries[0].val.Str? then QuoteText(entries[0].val.s) else Render(entries[0].val)) +
      (if |entries| > 1 then ", " + RenderEntries(entries[1..]) else "")
  }
}
