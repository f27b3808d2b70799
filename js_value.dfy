/** The dynamic JavaScript values the application passes around untyped: what
    `JSON.parse` produces, plus `undefined` for a missing property. The module gives
    JavaScript's truthiness and `||`, property access (which throws on `null` and
    `undefined`), optional chaining, template-literal conversion and `JSON.stringify`. */
module JsValue {

  import opened Wrappers
  import opened Text

  /** An object is a list of (key, value) pairs in insertion order; lookups take the
      first binding of a key (`JSON.parse` never produces a key twice). */
  datatype Value =
    | Undefined
    | Null
    | Bool(b: bool)
    | Num(n: int)
    | Str(s: string)
    | Arr(items: seq<Value>)
    | Obj(props: seq<(string, Value)>)

  /** JavaScript truthiness: `undefined`, `null`, `false`, `0` and `""` are falsy;
      everything else, the empty array and the empty object included, is truthy. */
  predicate Truthy(v: Value) {
    match v
    case Undefined => false
    case Null => false
    case Bool(b) => b
    case Num(n) => n != 0
    case Str(s) => s != ""
    case Arr(_) => true
    case Obj(_) => true
  }

  /** `a || b`: the left operand when it is truthy, otherwise the right one. */
  function Or(a: Value, b: Value): (r: Value)
    ensures Truthy(r) <==> Truthy(a) || Truthy(b)
    ensures r == a || r == b
  {
    if Truthy(a) then a else b
  }

  function Lookup(props: seq<(string, Value)>, key: string): Value {
    if |props| == 0 then Undefined
    else if props[0].0 == key then props[0].1
    else Lookup(props[1..], key)
  }

  /** `v.key`: a TypeError (None) on `null` and `undefined`; `undefined` for a key an
      object lacks and for every key of the other primitives and of arrays (none of the
      keys the application reads is an inherited property). */
  function Get(v: Value, key: string): (r: Option<Value>)
    ensures r.None? <==> v.Null? || v.Undefined?
  {
    match v
    case Undefined => None
    case Null => None
    case Obj(props) => Some(Lookup(props, key))
    case _ => Some(Undefined)
  }

  /** `v?.key`: like `v.key`, but `undefined` instead of a TypeError. */
  function GetOpt(v: Value, key: string): (r: Value)
    ensures Get(v, key).Some? ==> r == Get(v, key).value
    ensures Get(v, key).None? ==> r == Undefined
  {
    match v
    case Obj(props) => Lookup(props, key)
    case _ => Undefined
  }

  /** The value a key is bound to in an object built from a literal with distinct keys. */
  lemma LookupFirst(props: seq<(string, Value)>, i: nat)
    requires i < |props|
    requires forall j :: 0 <= j < i ==> props[j].0 != props[i].0
    ensures Lookup(props, props[i].0) == props[i].1
  {
    if i > 0 {
      LookupFirst(props[1..], i - 1);
    }
  }

  /** A key no binding carries reads as `undefined`. */
  lemma LookupAbsent(props: seq<(string, Value)>, key: string)
    requires forall j :: 0 <= j < |props| ==> props[j].0 != key
    ensures Lookup(props, key) == Undefined
  {
    if |props| > 0 {
      LookupAbsent(props[1..], key);
    }
  }

  // ---------------------------------------------------------------- String(v)

  /** `String(v)`, as a template literal `${v}` converts its operand. Arrays are
      joined with "," after converting `null`/`undefined` elements to "". */
  function ToJsString(v: Value): (r: string)
    decreases v, 1
  {
    match v
    case Undefined => "undefined"
    case Null => "null"
    case Bool(b) => if b then "true" else "false"
    case Num(n) => IntToString(n)
    case Str(s) => s
    case Arr(items) => Join(",", ElementTexts(v, 0))
    case Obj(_) => "[object Object]"
  }

  function ElementTexts(v: Value, k: nat): (r: seq<string>)
    requires v.Arr? && k <= |v.items|
    ensures |r| == |v.items| - k
    decreases v, 0, |v.items| - k
  {
    if k == |v.items| then []
    else
      var x := v.items[k];
      [if x.Null? || x.Undefined? then "" else ToJsString(x)] + ElementTexts(v, k + 1)
  }

  // ---------------------------------------------------------------- JSON.stringify

  function HexDigit(d: nat): char
    requires d < 16
  {
    "0123456789abcdef"[d]
  }

  /** How `JSON.stringify` writes one character of a string. */
  function EscapeChar(c: char): (r: string)
    ensures |r| > 0
    ensures c != '\n' ==> Free(r, '\n')
  {
    if c == '"' then "\\\""
    else if c == '\\' then "\\\\"
    else if c == '\n' then "\\n"
    else if c == '\r' then "\\r"
    else if c == '\t' then "\\t"
    else if c == '\U{0008}' then "\\b"
    else if c == '\U{000C}' then "\\f"
    else if c < ' ' then "\\u00" + [HexDigit(c as int / 16), HexDigit(c as int % 16)]
    else [c]
  }

  function Escape(s: string): (r: string)
    ensures Free(r, '\n')
  {
    if |s| == 0 then "" else EscapeChar(s[0]) + Escape(s[1..])
  }

  /** A string as a JSON string literal. */
  function Quote(s: string): (r: string)
    ensures |r| >= 2 && r[0] == '"' && r[|r| - 1] == '"'
    ensures Free(r, '\n')
  {
    "\"" + Escape(s) + "\""
  }

  /** `JSON.stringify(v)` without indentation. Object members whose value is
      `undefined` are left out; an `undefined` array element is written `null`, which
      is also what this function gives for a bare `undefined` (it is never called on one
      at the top level). */
  function Stringify(v: Value): (r: string)
    decreases v, 1
  {
    match v
    case Undefined => "null"
    case Null => "null"
    case Bool(b) => if b then "true" else "false"
    case Num(n) => IntToString(n)
    case Str(s) => Quote(s)
    case Arr(_) => "[" + Join(",", StringifyElements(v, 0)) + "]"
    case Obj(_) => "{" + Join(",", StringifyMembers(v, 0)) + "}"
  }

  function StringifyElements(v: Value, k: nat): seq<string>
    requires v.Arr? && k <= |v.items|
    decreases v, 0, |v.items| - k
  {
    if k == |v.items| then [] else [Stringify(v.items[k])] + StringifyElements(v, k + 1)
  }

  function StringifyMembers(v: Value, k: nat): seq<string>
    requires v.Obj? && k <= |v.props|
    decreases v, 0, |v.props| - k
  {
    if k == |v.props| then []
    else
      var p := v.props[k];
      (if p.1.Undefined? then [] else [Quote(p.0) + ":" + Stringify(p.1)])
      + StringifyMembers(v, k + 1)
  }

  lemma DigitsFree(s: string)
    requires AllDigits(s)
    ensures Free(s, '\n')
  {
  }

  lemma IntToStringFree(i: int)
    ensures Free(IntToString(i), '\n')
  {
    if i < 0 {
      DigitsFree(NatToString(-i));
    } else {
      DigitsFree(NatToString(i));
    }
  }

  lemma FreeConcat(a: string, b: string)
    requires Free(a, '\n') && Free(b, '\n')
    ensures Free(a + b, '\n')
  {
  }

  /** `JSON.stringify` never emits a raw line break: the ones inside strings are
      escaped, and nothing else writes one. */
  lemma {:induction false} StringifyHasNoNewline(v: Value)
    ensures Free(Stringify(v), '\n')
    decreases v, 1
  {
    match v
    case Num(n) => IntToStringFree(n);
    case Arr(_) =>
      ElementsHaveNoNewline(v, 0);
      JoinFree(",", StringifyElements(v, 0), '\n');
    case Obj(_) =>
      MembersHaveNoNewline(v, 0);
      JoinFree(",", StringifyMembers(v, 0), '\n');
    case _ =>
  }

  lemma {:induction false} ElementsHaveNoNewline(v: Value, k: nat)
    requires v.Arr? && k <= |v.items|
    ensures forall i :: 0 <= i < |StringifyElements(v, k)| ==> Free(StringifyElements(v, k)[i], '\n')
    decreases v, 0, |v.items| - k
  {
    if k < |v.items| {
      StringifyHasNoNewline(v.items[k]);
      ElementsHaveNoNewline(v, k + 1);
    }
  }

  lemma {:induction false} MembersHaveNoNewline(v: Value, k: nat)
    requires v.Obj? && k <= |v.props|
    ensures forall i :: 0 <= i < |StringifyMembers(v, k)| ==> Free(StringifyMembers(v, k)[i], '\n')
    decreases v, 0, |v.props| - k
  {
    if k < |v.props| {
      var p := v.props[k];
      if !p.1.Undefined? {
        StringifyHasNoNewline(p.1);
        FreeConcat(Quote(p.0) + ":", Stringify(p.1));
      }
      MembersHaveNoNewline(v, k + 1);
    }
  }
}
