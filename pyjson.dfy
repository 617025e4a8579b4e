/**
 * JSON values as Python's `json` module hands them to the handler, and the few
 * pieces of Python semantics the handler relies on when it inspects them:
 * truthiness (`not data`), membership (`'jsonrpc' in data`), `dict.get`,
 * `str()` as used by f-strings, and the text of the exceptions these raise.
 */
module PyJson {
  import opened Wrappers

  /**
   * A decoded JSON value: None, bool, int, str, list or dict. A dict is kept as
   * its items in insertion order (Python dicts are ordered); a decoded dict
   * never holds the same key twice.
   */
  datatype Json =
    | JNull
    | JBool(b: bool)
    | JInt(n: int)
    | JStr(s: string)
    | JArr(items: seq<Json>)
    | JObj(members: seq<(string, Json)>)

  /** Python truthiness: None, False, 0, "", [] and {} are false. */
  predicate Truthy(j: Json) {
    match j
    case JNull => false
    case JBool(b) => b
    case JInt(n) => n != 0
    case JStr(s) => s != []
    case JArr(items) => items != []
    case JObj(members) => members != []
  }

  /** `type(j).__name__`, the name Python's error messages quote. */
  function TypeName(j: Json): string {
    match j
    case JNull => "NoneType"
    case JBool(_) => "bool"
    case JInt(_) => "int"
    case JStr(_) => "str"
    case JArr(_) => "list"
    case JObj(_) => "dict"
  }

  /** The exceptions the handler can meet, each with what `str(e)` renders. */
  datatype PyError =
    | NoAttributeGet(typeName: string)  // AttributeError: `x.get(...)` on a non-dict
    | NotIterable(typeName: string)     // TypeError: `key in x` on a scalar
    | Raised(text: string)              // any other exception, by its str()

  function Message(e: PyError): string {
    match e
    case NoAttributeGet(t) => "'" + t + "' object has no attribute 'get'"
    case NotIterable(t) => "argument of type '" + t + "' is not iterable"
    case Raised(text) => text
  }

  /** The outcome of evaluating a Python expression: a value or a raised exception. */
  datatype Eval<+T> = Value(value: T) | Threw(error: PyError)

  /** The keys of a dict. */
  ghost function Keys(members: seq<(string, Json)>): set<string> {
    set i | 0 <= i < |members| :: members[i].0
  }

  /** No key occurs twice: every dict `json.loads` produces is of this kind. */
  ghost predicate DistinctKeys(members: seq<(string, Json)>) {
    forall i, j | 0 <= i < j < |members| :: members[i].0 != members[j].0
  }

  /** The value a dict holds under `key`, if any. */
  function Find(members: seq<(string, Json)>, key: string): (r: Option<Json>)
    ensures r.Some? <==> key in Keys(members)
    ensures r.Some? ==> (key, r.value) in members
  {
    if members == [] then None
    else if members[0].0 == key then Some(members[0].1)
    else
      var rest := Find(members[1..], key);
      assert Keys(members) == {members[0].0} + Keys(members[1..]) by {
        forall k | k in Keys(members) ensures k == members[0].0 || k in Keys(members[1..]) {
          var i :| 0 <= i < |members| && members[i].0 == k;
          if i > 0 { assert members[1..][i - 1].0 == k; }
        }
        forall k | k in Keys(members[1..]) ensures k in Keys(members) {
          var i :| 0 <= i < |members[1..]| && members[1..][i].0 == k;
          assert members[i + 1].0 == k;
        }
      }
      rest
  }

  /** In a dict with distinct keys, the value stored under a key is the one `Find` gives. */
  lemma {:induction false} FindUnique(members: seq<(string, Json)>, key: string, v: Json)
    requires DistinctKeys(members)
    requires (key, v) in members
    ensures Find(members, key) == Some(v)
  {
    if members[0] != (key, v) {
      var k :| 0 <= k < |members| && members[k] == (key, v);
      assert members[0].0 != key;
      assert members[1..][k - 1] == (key, v);
      FindUnique(members[1..], key, v);
    }
  }

  /** `d.get(key, default)`: only a dict has `get`; anything else raises AttributeError. */
  function DictGet(d: Json, key: string, default: Json): (r: Eval<Json>)
    ensures r.Threw? <==> !d.JObj?
    ensures r.Threw? ==> r.error == NoAttributeGet(TypeName(d))
    ensures d.JObj? && key in Keys(d.members) ==> r.Value? && (key, r.value) in d.members
    ensures d.JObj? && key !in Keys(d.members) ==> r == Value(default)
  {
    if d.JObj? then Value(Find(d.members, key).GetOr(default))
    else Threw(NoAttributeGet(TypeName(d)))
  }

  /** `needle` occurs in `hay` as a contiguous run: Python's `needle in hay` on strings. */
  function Occurs(needle: string, hay: string): (r: bool)
    ensures r <==> exists i :: 0 <= i <= |hay| && needle <= hay[i..]
  {
    if needle <= hay then
      assert hay[0..] == hay;
      true
    else if hay == [] then
      false
    else
      var r := Occurs(needle, hay[1..]);
      if r then
        var i :| 0 <= i <= |hay[1..]| && needle <= hay[1..][i..];
        assert hay[1..][i..] == hay[i + 1..];
        r
      else
        assert forall i :: 1 <= i <= |hay| ==> hay[i..] == hay[1..][i - 1..];
        r
  }

  /**
   * `key in container`: key lookup on a dict, element test on a list,
   * substring test on a str; None, bool and int raise TypeError.
   */
  function Contains(container: Json, key: string): (r: Eval<bool>)
    ensures r.Threw? <==> container.JNull? || container.JBool? || container.JInt?
    ensures r.Threw? ==> r.error == NotIterable(TypeName(container))
    ensures r == Value(true) <==>
      || (container.JObj? && key in Keys(container.members))
      || (container.JArr? && JStr(key) in container.items)
      || (container.JStr? && exists i :: 0 <= i <= |container.s| && key <= container.s[i..])
  {
    match container
    case JObj(members) => Value(Find(members, key).Some?)
    case JArr(items) => Value(JStr(key) in items)
    case JStr(s) => Value(Occurs(key, s))
    case _ => Threw(NotIterable(TypeName(container)))
  }

  /** `str(j)`: a str is itself, anything else is its repr. */
  function PyStr(j: Json): (r: string)
    ensures j.JStr? ==> r == j.s
    ensures j.JNull? ==> r == "None"
    ensures j.JBool? ==> r == (if j.b then "True" else "False")
    ensures j.JInt? ==> r == Decimal(j.n) && (j.n >= 0 ==> DigitsValue(r) == j.n)
  {
    match j
    case JStr(s) => s
    case _ => Repr(j)
  }

  /** `repr(j)` as Python prints a decoded JSON value. */
  function Repr(j: Json): string
    decreases j
  {
    match j
    case JNull => "None"
    case JBool(b) => if b then "True" else "False"
    case JInt(n) => Decimal(n)
    case JStr(s) => Quoted(s)
    case JArr(items) =>
      "[" + Join(seq(|items|, i requires 0 <= i < |items| => Repr(items[i]))) + "]"
    case JObj(members) =>
      "{" + Join(seq(|members|, i requires 0 <= i < |members| =>
                     Quoted(members[i].0) + ": " + Repr(members[i].1))) + "}"
  }

  /** The parts separated by ", ". */
  function Join(parts: seq<string>): string {
    if parts == [] then ""
    else if |parts| == 1 then parts[0]
    else parts[0] + ", " + Join(parts[1..])
  }

  /**
   * `repr(s)` for a str: single quotes unless the text holds a single quote
   * and no double quote; backslash, the chosen quote, tab, newline, carriage
   * return and the other ASCII control characters are escaped.
   */
  function Quoted(s: string): string {
    var q := if '\'' in s && '"' !in s then '"' else '\'';
    [q] + Escaped(s, q) + [q]
  }

  function Escaped(s: string, q: char): string {
    if s == [] then "" else EscapedChar(s[0], q) + Escaped(s[1..], q)
  }

  function EscapedChar(c: char, q: char): string {
    if c == '\\' then "\\\\"
    else if c == q then ['\\', q]
    else if c == '\t' then "\\t"
    else if c == '\n' then "\\n"
    else if c == '\r' then "\\r"
    else if c < ' ' || c == '\U{7F}' then "\\x" + [HexDigit(c as int / 16), HexDigit(c as int % 16)]
    else [c]
  }

  function HexDigit(d: int): char
    requires 0 <= d < 16
  {
    "0123456789abcdef"[d]
  }

  /** `str(n)` for an int: optional minus sign, then decimal digits without leading zeros. */
  function Decimal(n: int): (r: string)
    ensures r != []
    ensures n >= 0 ==> DigitsValue(r) == n
    ensures n < 0 ==> r[0] == '-' && DigitsValue(r[1..]) == -n
  {
    if n < 0 then "-" + Digits(-n) else Digits(n)
  }

  function Digits(n: nat): (r: string)
    ensures r != [] && forall i :: 0 <= i < |r| ==> '0' <= r[i] <= '9'
    ensures DigitsValue(r) == n
    ensures |r| > 1 ==> r[0] != '0'
  {
    if n < 10 then ["0123456789"[n]]
    else
      var init := Digits(n / 10);
      var r := init + ["0123456789"[n % 10]];
      assert r[..|r| - 1] == init;
      r
  }

  /** The number a run of decimal digits denotes (its reference reading). */
  function DigitsValue(s: string): int {
    if s == [] then 0 else 10 * DigitsValue(s[..|s| - 1]) + (s[|s| - 1] as int - '0' as int)
  }
}
