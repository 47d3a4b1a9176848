/** The JavaScript values the screens exchange with the backend and with
    AsyncStorage, and the few language rules they depend on: property access
    (which throws on `null` and `undefined`), truthiness and `||`. */
module Js {
  import opened Text

  datatype Option<+T> = None | Some(value: T)

  /** A JSON value. Objects keep their keys in insertion order, as JavaScript
      objects do. Numbers are integers. */
  datatype Json =
    | Null
    | Bool(b: bool)
    | Num(n: int)
    | Str(s: string)
    | Arr(items: seq<Json>)
    | Obj(fields: seq<Field>)

  datatype Field = Field(key: string, value: Json)

  /** A JavaScript value that may be `undefined` (`None`). */
  type Value = Option<Json>

  /** The value of the first field named `k`, or `undefined`. */
  function Lookup(fs: seq<Field>, k: string): (v: Value)
    ensures v.Some? <==> exists i :: 0 <= i < |fs| && fs[i].key == k
  {
    if fs == [] then None
    else if fs[0].key == k then Some(fs[0].value)
    else Lookup(fs[1..], k)
  }

  /** The field found is the first with that key. */
  lemma {:induction false} LookupHit(fs: seq<Field>, i: nat, k: string)
    requires i < |fs| && fs[i].key == k
    requires forall j :: 0 <= j < i ==> fs[j].key != k
    ensures Lookup(fs, k) == Some(fs[i].value)
  {
    if i > 0 {
      LookupHit(fs[1..], i - 1, k);
    }
  }

  /** Fields appended after the first hit do not change what is found. */
  lemma {:induction false} LookupPrefix(a: seq<Field>, b: seq<Field>, k: string)
    requires Lookup(a, k).Some?
    ensures Lookup(a + b, k) == Lookup(a, k)
  {
    if a[0].key != k {
      assert (a + b)[1..] == a[1..] + b;
      LookupPrefix(a[1..], b, k);
    }
  }

  /** `o[k] = v`: replaces the first field named `k` in place, or appends one. */
  function Assign(fs: seq<Field>, k: string, v: Json): (r: seq<Field>)
    ensures Lookup(r, k) == Some(v)
    ensures forall k' :: k' != k ==> Lookup(r, k') == Lookup(fs, k')
  {
    if fs == [] then [Field(k, v)]
    else if fs[0].key == k then [Field(k, v)] + fs[1..]
    else [fs[0]] + Assign(fs[1..], k, v)
  }

  /** The outcome of evaluating an expression that may throw a TypeError. */
  datatype Eval = Throws | Gives(v: Value)

  /** `v.k`: throws on `null` and `undefined`; on an object gives its field; on
      any other value gives `undefined` (none of the keys the screens read is a
      built-in property of strings, numbers, booleans or arrays). */
  function Prop(v: Value, k: string): (e: Eval)
    ensures e == Throws <==> v == None || v == Some(Null)
  {
    match v
    case None => Throws
    case Some(Null) => Throws
    case Some(Obj(fs)) => Gives(Lookup(fs, k))
    case Some(_) => Gives(None)
  }

  /** `v?.k`: optional chaining never throws. */
  function OptProp(v: Value, k: string): (r: Value)
    ensures Prop(v, k).Gives? ==> r == Prop(v, k).v
    ensures Prop(v, k).Throws? ==> r == None
  {
    match v
    case Some(Obj(fs)) => Lookup(fs, k)
    case _ => None
  }

  /** JavaScript truthiness: `undefined`, `null`, `false`, `0` and `""` are falsy;
      so a truthy value is always there and never `null`, and every array and
      object is truthy, the empty ones included. */
  predicate Truthy(v: Value)
    ensures Truthy(v) ==> v.Some? && v.value != Null
    ensures v.Some? && (v.value.Arr? || v.value.Obj?) ==> Truthy(v)
  {
    match v
    case None => false
    case Some(Null) => false
    case Some(Bool(b)) => b
    case Some(Num(n)) => n != 0
    case Some(Str(s)) => s != ""
    case Some(_) => true
  }

  /** `a || b`: one of the operands, truthy exactly when either is; the left
      one when it is truthy, and the right one otherwise. */
  function Or(a: Value, b: Value): (r: Value)
    ensures r == a || r == b
    ensures Truthy(r) <==> Truthy(a) || Truthy(b)
    ensures Truthy(a) ==> r == a
    ensures !Truthy(a) ==> r == b
  {
    if Truthy(a) then a else b
  }

  /** A string field read as `s || fallback`: one of the two, empty only when
      both are, and `s` itself whenever it is not empty. */
  function OrText(s: string, fallback: string): (r: string)
    ensures r == s || r == fallback
    ensures r == "" <==> s == "" && fallback == ""
    ensures s != "" ==> r == s
  {
    if s != "" then s else fallback
  }

  function Quote(s: string): string {
    if s == [] then []
    else Escape(s[0]) + Quote(s[1..])
  }

  function HexDigit(d: nat): char
    requires d < 16
  {
    "0123456789abcdef"[d]
  }

  /** One character as `JSON.stringify` writes it inside a string literal. */
  function Escape(c: char): string {
    if c == '"' then "\\\""
    else if c == '\\' then "\\\\"
    else if c == '\U{0008}' then "\\b"
    else if c == '\U{000C}' then "\\f"
    else if c == '\n' then "\\n"
    else if c == '\r' then "\\r"
    else if c == '\t' then "\\t"
    else if c < ' ' then "\\u00" + [HexDigit(c as int / 16), HexDigit(c as int % 16)]
    else [c]
  }

  /** `JSON.stringify(j)`: the text AsyncStorage holds for a stored document. */
  function Stringify(j: Json): (t: string)
    ensures |t| > 0
  {
    match j
    case Null => "null"
    case Bool(b) => if b then "true" else "false"
    case Num(n) => if n < 0 then "-" + Decimal(-n) else Decimal(n)
    case Str(s) => "\"" + Quote(s) + "\""
    case Arr(items) => "[" + Items(items) + "]"
    case Obj(fs) => "{" + Members(fs) + "}"
  }

  function Items(items: seq<Json>): string
    decreases items, 0
  {
    if items == [] then ""
    else
      var first := Stringify(items[0]);
      if |items| == 1 then first else first + "," + Items(items[1..])
  }

  function Members(fs: seq<Field>): string
    decreases fs, 0
  {
    if fs == [] then ""
    else
      var first := "\"" + Quote(fs[0].key) + "\":" + Stringify(fs[0].value);
      if |fs| == 1 then first else first + "," + Members(fs[1..])
  }

  /** What AsyncStorage holds under a key: text written with `setItem(key, s)`,
      or a document written with `setItem(key, JSON.stringify(j))`. `JSON.parse`
      gives a document back as it was; parsing plain text is modelled as
      failing. */
  datatype Stored = Text(s: string) | Doc(j: Json)

  type Storage = map<string, Stored>

  const TokenKey := "token"
  const UsuarioKey := "usuario"
  const RegistroKey := "registro_usuario"

  /** `await AsyncStorage.getItem(key)` as a string, `None` for `null`. */
  function GetItem(st: Storage, key: string): (r: Option<string>)
    ensures key !in st <==> r == None
    ensures key in st && st[key].Text? ==> r == Some(st[key].s)
  {
    if key !in st then None
    else match st[key]
      case Text(s) => Some(s)
      case Doc(j) => Some(Stringify(j))
  }

  /** A string-or-null read from storage used as a condition (`if (!token)`). */
  predicate Present(r: Option<string>) {
    r.Some? && r.value != ""
  }

  /** The answer to one `fetch`: either the call could not be completed, or a
      status code with a body that `res.json()` parses (`None` when it rejects). */
  datatype Reply = Unreachable | Answered(status: int, body: Option<Json>)

  /** `res.ok`. */
  predicate Ok(status: int) {
    200 <= status <= 299
  }

  /** One request a handler issues: method, path below BASE_URL, the bearer
      token of the `Authorization` header, and the JSON body. */
  datatype Request = Request(verb: string, path: string, bearer: Option<string>, body: Option<Json>)
}
