/**
 * The dynamic Python values the core passes around: keyword arguments,
 * JSON objects, plugin payloads and configuration trees.
 */
module Values {
  import opened Wrappers
  import Text
  import Dicts

  datatype Value =
    | Null
    | Bool(b: bool)
    | Int(i: int)
      /** A float, carried as its Python repr ("0.0", "0.95"); the core does no float arithmetic. */
    | Float(text: string)
    | Str(s: string)
    | List(items: seq<Value>)
    | Tuple(items: seq<Value>)
      /** A dict with string keys, in insertion order. */
    | Dict(entries: seq<(string, Value)>)

  /** The keyword arguments of a call, in the order they were passed. */
  type Kwargs = seq<(string, Value)>

  /** The values Python's truth testing treats as false: None, False, zeros and empty containers. */
  const Falsy := [Null, Bool(false), Int(0), Float("0.0"), Float("-0.0"), Str(""), List([]), Tuple([]), Dict([])]

  /** Python truth testing (`if v:`). */
  function Truthy(v: Value): (r: bool)
    ensures !r <==> v in Falsy
  {
    match v
    case Null => false
    case Bool(b) => b
    case Int(i) => i != 0
    case Float(t) => t != "0.0" && t != "-0.0"
    case Str(s) => s != []
    case List(xs) => xs != []
    case Tuple(xs) => xs != []
    case Dict(es) => es != []
  }

  /** kwargs.get(k): None when the key is absent. */
  function Get(d: Kwargs, k: string): (r: Value)
    ensures k !in Dicts.Keys(d) ==> r == Null
    ensures k in Dicts.Keys(d) ==> Dicts.Lookup(d, k) == Some(r)
  {
    Dicts.Lookup(d, k).GetOr(Null)
  }

  function TypeName(v: Value): string {
    match v
    case Null => "NoneType"
    case Bool(_) => "bool"
    case Int(_) => "int"
    case Float(_) => "float"
    case Str(_) => "str"
    case List(_) => "list"
    case Tuple(_) => "tuple"
    case Dict(_) => "dict"
  }

  /** v[k] for a string key: the KeyError or TypeError message when Python raises. */
  function Index(v: Value, k: string): (r: Result<Value>)
    ensures r.Ok? <==> v.Dict? && k in Dicts.Keys(v.entries)
    ensures r.Ok? ==> Dicts.Lookup(v.entries, k) == Some(r.value)
    ensures v.Dict? && r.Err? ==> r.error == ReprStr(k)
  {
    match v
    case Dict(es) =>
      (match Dicts.Lookup(es, k)
       case Some(x) => Ok(x)
       case None => Err(ReprStr(k)))
    case List(_) => Err("list indices must be integers or slices, not str")
    case Tuple(_) => Err("tuple indices must be integers or slices, not str")
    case Str(_) => Err("string indices must be integers, not 'str'")
    case _ => Err("'" + TypeName(v) + "' object is not subscriptable")
  }

  /** The quote repr() puts around a string: double quotes only when the text has a ' and no ". */
  function QuoteFor(s: string): char {
    if '\'' in s && '"' !in s then '"' else '\''
  }

  function EscapeChar(c: char, q: char): string {
    if c == '\\' then "\\\\"
    else if c == q then ['\\', q]
    else if c == '\n' then "\\n"
    else if c == '\r' then "\\r"
    else if c == '\t' then "\\t"
    else [c]
  }

  function Escape(s: string, q: char): string {
    if s == [] then [] else EscapeChar(s[0], q) + Escape(s[1..], q)
  }

  /** repr() of a str. */
  function ReprStr(s: string): string {
    var q := QuoteFor(s);
    [q] + Escape(s, q) + [q]
  }

  /** repr() of a value: a float's own text, anything else non-empty, each container between its own brackets. */
  function Repr(v: Value): (r: string)
    ensures v.Float? ==> r == v.text
    ensures !v.Float? ==> |r| >= 1
    ensures v.Str? ==> |r| >= 2 && r[0] == r[|r| - 1] && (r[0] == '\'' || r[0] == '"')
    ensures v.List? ==> |r| >= 2 && r[0] == '[' && r[|r| - 1] == ']'
    ensures v.Tuple? ==> |r| >= 2 && r[0] == '(' && r[|r| - 1] == ')'
    ensures v.Dict? ==> |r| >= 2 && r[0] == '{' && r[|r| - 1] == '}'
    decreases v, 1
  {
    match v
    case Null => "None"
    case Bool(b) => if b then "True" else "False"
    case Int(i) => Text.IntText(i)
    case Float(t) => t
    case Str(s) => ReprStr(s)
    case List(xs) =>
      "[" + Text.Join(seq(|xs|, i requires 0 <= i < |xs| => Repr(xs[i])), ", ") + "]"
    case Tuple(xs) =>
      "(" + Text.Join(seq(|xs|, i requires 0 <= i < |xs| => Repr(xs[i])), ", ")
      + (if |xs| == 1 then ",)" else ")")
    case Dict(es) =>
      "{" + Text.Join(seq(|es|, i requires 0 <= i < |es| => ReprEntry(es[i].0, es[i].1)), ", ") + "}"
  }

  function ReprEntry(k: string, v: Value): string
    decreases v, 2
  {
    ReprStr(k) + ": " + Repr(v)
  }

  /** str() of a value: a str is itself, everything else is its repr; only "" prints as nothing (a float's text is never empty). */
  function StrOf(v: Value): (r: string)
    ensures v.Str? ==> r == v.s
    ensures v != Float([]) ==> (r == [] <==> v == Str([]))
  {
    if v.Str? then v.s else Repr(v)
  }
}
