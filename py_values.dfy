/**
 * Python values and the built-in behaviours the agents and scripts rely on:
 * JSON-shaped values, truthiness, subscripting, `dict.get`, `dict.items()`,
 * iteration, `in`, dict assignment, `str()`/`repr()`, `int()`, and the string
 * methods `strip`, `lower`, `split`, `startswith`, `endswith` and `join`.
 * Every operation that can raise returns a `Result` carrying `str(e)`.
 */
module Py {

  datatype Option<T> = None | Some(value: T) {
    function GetOr(default: T): T {
      if Some? then value else default
    }
  }

  /** The outcome of a Python expression: a value, or an exception whose `str` is `msg`. */
  datatype Result<T> = Ok(value: T) | Raised(msg: string)

  /** A JSON-shaped Python value. A dict is an association list in insertion order. */
  datatype Json =
    | JNull
    | JBool(b: bool)
    | JInt(i: int)
    | JStr(s: string)
    | JList(items: seq<Json>)
    | JDict(fields: seq<(string, Json)>)

  type Fields = seq<(string, Json)>

  /** What one call to the language model gives back: its text, or the text of the exception it raised. */
  datatype Reply = Answer(content: string) | Failed(message: string)

  /** What `json.loads` makes of a text: a value, or a JSONDecodeError with its message. */
  datatype Decoded = Parsed(value: Json) | DecodeError(message: string)

  /** `json.loads`, left abstract. */
  type Decoder = string -> Decoded

  /** `json.loads(text)`, raising with the decoder's message. */
  function Loads(decode: Decoder, text: string): Result<Json> {
    match decode(text)
    case Parsed(v) => Ok(v)
    case DecodeError(m) => Raised(m)
  }

  /** `state.get(k, default)` on a workflow state dict, whose key order plays no part. */
  function MapGet(st: map<string, Json>, k: string, default: Json): Json {
    if k in st then st[k] else default
  }

  // ---------------------------------------------------------------------------
  // Truthiness and type names

  predicate Truthy(v: Json) {
    match v
    case JNull => false
    case JBool(b) => b
    case JInt(i) => i != 0
    case JStr(s) => s != ""
    case JList(xs) => xs != []
    case JDict(fs) => fs != []
  }

  function TypeName(v: Json): string {
    match v
    case JNull => "NoneType"
    case JBool(_) => "bool"
    case JInt(_) => "int"
    case JStr(_) => "str"
    case JList(_) => "list"
    case JDict(_) => "dict"
  }

  /** `str(type(v))`, as an f-string renders it. */
  function ClassText(v: Json): string {
    "<class '" + TypeName(v) + "'>"
  }

  function NoAttribute(v: Json, name: string): string {
    "'" + TypeName(v) + "' object has no attribute '" + name + "'"
  }

  // ---------------------------------------------------------------------------
  // Dicts as association lists

  function Keys(fs: Fields): (ks: seq<string>)
    ensures |ks| == |fs|
    ensures forall i :: 0 <= i < |fs| ==> ks[i] == fs[i].0
  {
    seq(|fs|, i requires 0 <= i < |fs| => fs[i].0)
  }

  ghost predicate DistinctKeys(fs: Fields) {
    forall i, j :: 0 <= i < j < |fs| ==> fs[i].0 != fs[j].0
  }

  /** `d[k]` on a dict, taking the first entry with key `k`. */
  function Lookup(fs: Fields, k: string): (r: Option<Json>)
    ensures r.None? <==> k !in Keys(fs)
    ensures r.Some? ==> (k, r.value) in fs
  {
    if fs == [] then None
    else if fs[0].0 == k then Some(fs[0].1)
    else Lookup(fs[1..], k)
  }

  /** `d[k] = v`: an existing key keeps its place and takes the new value; a new key goes last. */
  function DictSet(fs: Fields, k: string, v: Json): (r: Fields)
  {
    if fs == [] then [(k, v)]
    else if fs[0].0 == k then [(k, v)] + fs[1..]
    else [fs[0]] + DictSet(fs[1..], k, v)
  }

  lemma {:induction false} DictSetNewKey(fs: Fields, k: string, v: Json)
    requires k !in Keys(fs)
    ensures DictSet(fs, k, v) == fs + [(k, v)]
  {
    if fs != [] {
      assert Keys(fs[1..]) == Keys(fs)[1..];
      DictSetNewKey(fs[1..], k, v);
    }
  }

  // ---------------------------------------------------------------------------
  // Filtering comprehensions

  /** The values of a comprehension whose condition held, in order. */
  function Somes<T>(xs: seq<Option<T>>): (r: seq<T>)
    ensures |r| <= |xs|
  {
    if xs == [] then []
    else if xs[0].None? then Somes(xs[1..])
    else [xs[0].value] + Somes(xs[1..])
  }

  /** When the condition holds everywhere, every value is kept, in order. */
  lemma {:induction false} SomesAll<T>(xs: seq<Option<T>>, ys: seq<T>)
    requires |ys| == |xs|
    requires forall i :: 0 <= i < |xs| ==> xs[i] == Some(ys[i])
    ensures Somes(xs) == ys
    decreases |xs|
  {
    if xs != [] {
      SomesAll(xs[1..], ys[1..]);
      assert ys == [ys[0]] + ys[1..];
    }
  }

  /** Adding an element at the end adds its value, if any, at the end. */
  lemma SomesSnoc<T>(xs: seq<Option<T>>, x: Option<T>)
    ensures Somes(xs + [x]) == Somes(xs) + (if x.Some? then [x.value] else [])
    decreases |xs|
  {
    if xs != [] {
      assert (xs + [x])[1..] == xs[1..] + [x];
      SomesSnoc(xs[1..], x);
    }
  }

  /** Every kept value came from some element. */
  lemma {:induction false} SomesFrom<T>(xs: seq<Option<T>>)
    ensures forall y :: y in Somes(xs) ==> Some(y) in xs
    decreases |xs|
  {
    if xs != [] {
      SomesFrom(xs[1..]);
      assert forall x :: x in xs[1..] ==> x in xs;
    }
  }

  // ---------------------------------------------------------------------------
  // Subscripting, .get, .items(), iteration and `in`

  /** `v[k]` with a string key. */
  function Subscript(v: Json, k: string): (r: Result<Json>)
    ensures r.Ok? <==> v.JDict? && k in Keys(v.fields)
  {
    match v
    case JDict(fs) =>
      (match Lookup(fs, k)
       case Some(x) => Ok(x)
       case None => Raised(StrRepr(k)))
    case JList(_) => Raised("list indices must be integers or slices, not str")
    case JStr(_) => Raised("string indices must be integers, not 'str'")
    case _ => Raised("'" + TypeName(v) + "' object is not subscriptable")
  }

  /** `v.get(k, default)`. */
  function Get(v: Json, k: string, default: Json): (r: Result<Json>)
    ensures r.Ok? <==> v.JDict?
    ensures v.JDict? && k !in Keys(v.fields) ==> r == Ok(default)
  {
    match v
    case JDict(fs) => Ok(Lookup(fs, k).GetOr(default))
    case _ => Raised(NoAttribute(v, "get"))
  }

  /** `v.items()`. */
  function Items(v: Json): (r: Result<Fields>)
    ensures r.Ok? <==> v.JDict?
  {
    match v
    case JDict(fs) => Ok(fs)
    case _ => Raised(NoAttribute(v, "items"))
  }

  /** What `for x in v` walks over: list elements, dict keys, or one-character strings. */
  function Iterate(v: Json): (r: Result<seq<Json>>)
    ensures r.Ok? <==> (v.JList? || v.JDict? || v.JStr?)
    ensures v.JList? ==> r == Ok(v.items)
  {
    match v
    case JList(xs) => Ok(xs)
    case JDict(fs) => Ok(seq(|fs|, i requires 0 <= i < |fs| => JStr(fs[i].0)))
    case JStr(s) => Ok(seq(|s|, i requires 0 <= i < |s| => JStr([s[i]])))
    case _ => Raised("'" + TypeName(v) + "' object is not iterable")
  }

  /** `k in v` for a string `k`. */
  function In(k: string, v: Json): (r: Result<bool>)
    ensures v.JDict? ==> r == Ok(k in Keys(v.fields))
  {
    match v
    case JDict(fs) => Ok(k in Keys(fs))
    case JList(xs) => Ok(JStr(k) in xs)
    case JStr(s) => Ok(IsSubstring(k, s))
    case _ => Raised("argument of type '" + TypeName(v) + "' is not iterable")
  }

  // ---------------------------------------------------------------------------
  // Strings

  /** The characters `str.isspace()`, `str.strip()` and the regex class `\s` treat as whitespace. */
  predicate IsSpace(c: char) {
    ('\t' <= c <= '\r') || ('\U{001C}' <= c <= ' ') || c == '\U{0085}' || c == '\U{00A0}'
    || c == '\U{1680}' || ('\U{2000}' <= c <= '\U{200A}') || c == '\U{2028}' || c == '\U{2029}'
    || c == '\U{202F}' || c == '\U{205F}' || c == '\U{3000}'
  }

  predicate AllSpace(s: string) {
    forall i :: 0 <= i < |s| ==> IsSpace(s[i])
  }

  function StripLeft(s: string): (r: string)
    ensures |r| <= |s| && r == s[|s| - |r|..]
    ensures AllSpace(s[..|s| - |r|])
    ensures r == [] || !IsSpace(r[0])
  {
    if s != [] && IsSpace(s[0]) then
      var t := StripLeft(s[1..]);
      assert t == s[1..][|s| - 1 - |t|..] == s[|s| - |t|..];
      assert forall i :: 1 <= i < |s| - |t| ==> s[i] == s[1..][..|s| - 1 - |t|][i - 1];
      t
    else s
  }

  function StripRight(s: string): (r: string)
    ensures |r| <= |s| && r == s[..|r|]
    ensures AllSpace(s[|r|..])
    ensures r == [] || !IsSpace(r[|r| - 1])
  {
    if s != [] && IsSpace(s[|s| - 1]) then
      var t := StripRight(s[..|s| - 1]);
      assert t == s[..|s| - 1][..|t|] == s[..|t|];
      assert forall i :: |t| <= i < |s| - 1 ==> s[i] == s[..|s| - 1][i];
      t
    else s
  }

  /** `s.strip()`. */
  function Strip(s: string): (r: string)
    ensures r == [] || (!IsSpace(r[0]) && !IsSpace(r[|r| - 1]))
    ensures r == [] <==> AllSpace(s)
  {
    var l := StripLeft(s);
    var r := StripRight(l);
    assert r == [] ==> l[|r|..] == l;
    assert AllSpace(s) ==> AllSpace(l);
    assert l == [] ==> AllSpace(s) by {
      if l == [] { assert s[..|s| - |l|] == s; }
    }
    r
  }

  lemma StripLeftFixed(s: string)
    requires s == [] || !IsSpace(s[0])
    ensures StripLeft(s) == s
  {
  }

  lemma StripRightFixed(s: string)
    requires s == [] || !IsSpace(s[|s| - 1])
    ensures StripRight(s) == s
  {
  }

  /** Stripping a stripped string changes nothing. */
  lemma StripIdempotent(s: string)
    ensures Strip(Strip(s)) == Strip(s)
  {
    var t := Strip(s);
    StripLeftFixed(t);
    StripRightFixed(t);
  }

  /** A leading whitespace character makes no difference to `strip()`. */
  lemma StripLeadingSpace(c: char, s: string)
    requires IsSpace(c)
    ensures Strip([c] + s) == Strip(s)
  {
    assert ([c] + s)[1..] == s;
  }

  /** `s.lower()` on the ASCII letters. */
  function Lower(s: string): (r: string)
    ensures |r| == |s|
  {
    seq(|s|, i requires 0 <= i < |s| => if 'A' <= s[i] <= 'Z' then (s[i] as int + 32) as char else s[i])
  }

  predicate StartsWith(s: string, p: string) {
    |p| <= |s| && s[..|p|] == p
  }

  predicate EndsWith(s: string, p: string) {
    |p| <= |s| && s[|s| - |p|..] == p
  }

  /** `p in s` for strings. */
  predicate IsSubstring(p: string, s: string)
    decreases |s|
  {
    StartsWith(s, p) || (s != [] && IsSubstring(p, s[1..]))
  }

  /** `s.split(sep)` for a one-character separator; never empty. */
  function Split(s: string, sep: char): (r: seq<string>)
    ensures |r| >= 1
  {
    if s == [] then [""]
    else
      var rest := Split(s[1..], sep);
      if s[0] == sep then [""] + rest else [[s[0]] + rest[0]] + rest[1..]
  }

  /** `sep.join(parts)`. */
  function Join(sep: string, parts: seq<string>): string
  {
    if parts == [] then ""
    else if |parts| == 1 then parts[0]
    else parts[0] + sep + Join(sep, parts[1..])
  }

  lemma {:induction false} SplitPrefix(a: string, t: string, sep: char)
    requires sep !in a
    ensures Split(a + t, sep) == [a + Split(t, sep)[0]] + Split(t, sep)[1..]
  {
    var st := Split(t, sep);
    if a == [] {
      assert a + t == t;
      assert a + st[0] == st[0];
      assert [st[0]] + st[1..] == st;
    } else {
      assert (a + t)[0] == a[0];
      assert (a + t)[1..] == a[1..] + t;
      SplitPrefix(a[1..], t, sep);
      assert [a[0]] + (a[1..] + st[0]) == a + st[0];
    }
  }

  /** Splitting a join on a separator no part contains gives the parts back. */
  lemma {:induction false} SplitJoin(parts: seq<string>, sep: char)
    requires |parts| >= 1
    requires forall i :: 0 <= i < |parts| ==> sep !in parts[i]
    ensures Split(Join([sep], parts), sep) == parts
  {
    if |parts| == 1 {
      SplitPrefix(parts[0], "", sep);
      assert parts[0] + "" == parts[0];
    } else {
      var rest := Join([sep], parts[1..]);
      SplitJoin(parts[1..], sep);
      assert Join([sep], parts) == parts[0] + ([sep] + rest);
      SplitPrefix(parts[0], [sep] + rest, sep);
      assert ([sep] + rest)[1..] == rest;
      assert Split([sep] + rest, sep) == [""] + parts[1..];
      assert parts[0] + "" == parts[0];
      assert [parts[0]] + parts[1..] == parts;
    }
  }

  /** `s.split(sep, 1)` when it yields two parts; `None` when `sep` does not occur. */
  function SplitOnce(s: string, sep: char): (r: Option<(string, string)>)
    ensures r.None? <==> sep !in s
    ensures r.Some? ==> s == r.value.0 + [sep] + r.value.1 && sep !in r.value.0
  {
    if s == [] then None
    else if s[0] == sep then Some(("", s[1..]))
    else match SplitOnce(s[1..], sep)
      case None => None
      case Some((a, b)) => Some(([s[0]] + a, b))
  }

  /** `(a + sep + b).split(sep, 1)` is `[a, b]` when `a` holds no `sep`. */
  lemma {:induction false} SplitOnceAt(a: string, b: string, sep: char)
    requires sep !in a
    ensures SplitOnce(a + [sep] + b, sep) == Some((a, b))
  {
    var s := a + [sep] + b;
    if a == [] {
      assert s[1..] == b;
    } else {
      assert s[1..] == a[1..] + [sep] + b;
      SplitOnceAt(a[1..], b, sep);
      assert [a[0]] + a[1..] == a;
    }
  }

  /** A first line without the separator splits off as the first part. */
  lemma SplitAfterLine(a: string, t: string, sep: char)
    requires sep !in a
    ensures Split(a + ([sep] + t), sep) == [a] + Split(t, sep)
  {
    SplitPrefix(a, [sep] + t, sep);
    assert ([sep] + t)[1..] == t;
    assert a + "" == a;
  }

  /** A leading separator splits off an empty first part. */
  lemma SplitLeadingSep(t: string, sep: char)
    ensures Split([sep] + t, sep) == [""] + Split(t, sep)
  {
    assert ([sep] + t)[1..] == t;
  }

  /** Splitting a join followed by a separator and more text. */
  lemma {:induction false} SplitJoinThen(parts: seq<string>, t: string, sep: char)
    requires forall i :: 0 <= i < |parts| ==> sep !in parts[i]
    ensures Split(Join([sep], parts) + [sep] + t, sep) ==
              (if parts == [] then [""] else parts) + Split(t, sep)
  {
    if parts == [] {
      assert Join([sep], parts) + [sep] + t == [sep] + t;
      SplitLeadingSep(t, sep);
    } else if |parts| == 1 {
      assert parts[0] + [sep] + t == parts[0] + ([sep] + t);
      SplitAfterLine(parts[0], t, sep);
    } else {
      var rest := Join([sep], parts[1..]) + [sep] + t;
      SplitJoinThen(parts[1..], t, sep);
      JoinThenCons(parts, t, sep);
      SplitAfterLine(parts[0], rest, sep);
      assert [parts[0]] + (parts[1..] + Split(t, sep)) == parts + Split(t, sep);
    }
  }

  /** A join of two or more parts followed by more text is the first part, a separator and the rest. */
  lemma JoinThenCons(parts: seq<string>, t: string, sep: char)
    requires |parts| >= 2
    ensures Join([sep], parts) + [sep] + t == parts[0] + ([sep] + (Join([sep], parts[1..]) + [sep] + t))
  {
    var j := Join([sep], parts[1..]);
    assert Join([sep], parts) == parts[0] + [sep] + j;
    Regroup(parts[0], [sep], j, [sep], t);
  }

  lemma Regroup<T>(a: seq<T>, b: seq<T>, c: seq<T>, d: seq<T>, e: seq<T>)
    ensures a + b + c + d + e == a + (b + (c + d + e))
  {
  }

  // ---------------------------------------------------------------------------
  // Numbers as text

  function DigitChar(d: nat): char
    requires d < 10
  {
    ('0' as int + d) as char
  }

  function NatToStr(n: nat): (s: string)
    ensures |s| >= 1
    ensures forall i :: 0 <= i < |s| ==> '0' <= s[i] <= '9'
  {
    if n < 10 then [DigitChar(n)] else NatToStr(n / 10) + [DigitChar(n % 10)]
  }

  /** `str(n)` for an int. */
  function IntToStr(n: int): string {
    if n < 0 then "-" + NatToStr(-n) else NatToStr(n)
  }

  /** `f"{n:04d}"` for a non-negative n. */
  function ZeroPad4(n: nat): (s: string)
    ensures |s| >= 4
    ensures forall i :: 0 <= i < |s| ==> '0' <= s[i] <= '9'
  {
    var d := NatToStr(n);
    if |d| >= 4 then d else seq(4 - |d|, _ => '0') + d
  }

  predicate IsDigit(c: char) {
    '0' <= c <= '9'
  }

  function DigitsValue(s: string): nat
    requires forall i :: 0 <= i < |s| ==> IsDigit(s[i])
  {
    if s == [] then 0
    else
      var d := s[|s| - 1] as int - '0' as int;
      assert IsDigit(s[|s| - 1]);
      10 * DigitsValue(s[..|s| - 1]) + d
  }

  /** Reading back the digits `str(n)` writes gives `n`. */
  lemma {:induction false} NatToStrValue(n: nat)
    ensures DigitsValue(NatToStr(n)) == n
  {
    var s := NatToStr(n);
    if n >= 10 {
      var h := NatToStr(n / 10);
      NatToStrValue(n / 10);
      assert s[..|s| - 1] == h;
    }
  }

  predicate AllDigits(s: string) {
    |s| >= 1 && forall i :: 0 <= i < |s| ==> IsDigit(s[i])
  }

  /** `int(s)` for a string: surrounding whitespace, an optional sign and ASCII digits. */
  function ParseInt(s: string): (r: Result<int>)
  {
    var t := Strip(s);
    if AllDigits(t) then Ok(DigitsValue(t))
    else if |t| >= 2 && t[0] == '+' && AllDigits(t[1..]) then Ok(DigitsValue(t[1..]))
    else if |t| >= 2 && t[0] == '-' && AllDigits(t[1..]) then Ok(0 - DigitsValue(t[1..]))
    else Raised("invalid literal for int() with base 10: " + StrRepr(s))
  }

  const IntArgumentType: string := "int() argument must be a string, a bytes-like object or a real number, not '"

  /** `int(v)`. */
  function ToInt(v: Json): (r: Result<int>)
    ensures v.JInt? ==> r == Ok(v.i)
  {
    match v
    case JInt(i) => Ok(i)
    case JBool(b) => Ok(if b then 1 else 0)
    case JStr(s) => ParseInt(s)
    case _ => Raised(IntArgumentType + TypeName(v) + "'")
  }

  // ---------------------------------------------------------------------------
  // Rendering

  /** The quote `repr` puts around a string: `"` when it holds a `'` and no `"`, otherwise `'`. */
  function ReprQuote(s: string): (q: char)
    ensures q == '\'' || q == '"'
    ensures q == '"' <==> '\'' in s && '"' !in s
  {
    if '\'' in s && '"' !in s then '"' else '\''
  }

  function HexDigit(d: nat): char
    requires d < 16
  {
    if d < 10 then ('0' as int + d) as char else ('a' as int + (d - 10)) as char
  }

  function HexValue(c: char): (r: Option<nat>)
    ensures r.Some? ==> r.value < 16
  {
    if '0' <= c <= '9' then Some(c as int - '0' as int)
    else if 'a' <= c <= 'f' then Some(c as int - 'a' as int + 10)
    else None
  }

  /**
   * How `repr` writes one character between quotes `q`: the quote and the
   * backslash get a backslash, tab, newline and carriage return their short
   * escapes, other ASCII control characters `\\xhh`. Characters from U+0080
   * on are written as they are.
   */
  function EscapeChar(c: char, q: char): string {
    if c == q || c == '\\' then ['\\', c]
    else if c == '\t' then ['\\', 't']
    else if c == '\n' then ['\\', 'n']
    else if c == '\r' then ['\\', 'r']
    else if c < ' ' || c as int == 0x7f then ['\\', 'x', HexDigit(c as int / 16), HexDigit(c as int % 16)]
    else [c]
  }

  function Concat(xs: seq<string>): string {
    if xs == [] then [] else xs[0] + Concat(xs[1..])
  }

  /** The characters of `s` as `repr` writes them between quotes `q`. */
  function Escape(s: string, q: char): string {
    Concat(seq(|s|, i requires 0 <= i < |s| => EscapeChar(s[i], q)))
  }

  lemma EscapeCons(s: string, q: char)
    requires s != []
    ensures Escape(s, q) == EscapeChar(s[0], q) + Escape(s[1..], q)
  {
    var xs := seq(|s|, i requires 0 <= i < |s| => EscapeChar(s[i], q));
    assert xs[1..] == seq(|s| - 1, i requires 0 <= i < |s| - 1 => EscapeChar(s[1..][i], q));
  }

  /** `repr(s)` for a string, which is also `str()` of a KeyError on key `s`. */
  function StrRepr(s: string): (r: string)
    ensures |r| >= 2 && r[0] == r[|r| - 1] == ReprQuote(s)
  {
    var q := ReprQuote(s);
    [q] + Escape(s, q) + [q]
  }

  function Prepend(c: char, u: Option<string>): Option<string> {
    if u.Some? then Some([c] + u.value) else None
  }

  /**
   * Reads back the text between quotes `q` of a string literal: None on a bare
   * quote or on an escape the writer does not produce.
   */
  function Unescape(t: string, q: char): Option<string>
    decreases |t|
  {
    if t == [] then Some([])
    else if t[0] == q then None
    else if t[0] != '\\' then Prepend(t[0], Unescape(t[1..], q))
    else if |t| < 2 then None
    else if t[1] == '\\' || t[1] == q then Prepend(t[1], Unescape(t[2..], q))
    else if t[1] == 't' then Prepend('\t', Unescape(t[2..], q))
    else if t[1] == 'n' then Prepend('\n', Unescape(t[2..], q))
    else if t[1] == 'r' then Prepend('\r', Unescape(t[2..], q))
    else if t[1] == 'x' && |t| >= 4 && HexValue(t[2]).Some? && HexValue(t[3]).Some? then
      Prepend((16 * HexValue(t[2]).value + HexValue(t[3]).value) as char, Unescape(t[4..], q))
    else None
  }

  lemma HexRoundTrip(d: nat)
    requires d < 16
    ensures HexValue(HexDigit(d)) == Some(d)
  {
  }

  /** One written character reads back as itself, whatever follows it. */
  lemma UnescapeChar(c: char, q: char, rest: string)
    requires q == '\'' || q == '"'
    ensures Unescape(EscapeChar(c, q) + rest, q) == Prepend(c, Unescape(rest, q))
  {
    var t := EscapeChar(c, q) + rest;
    if c == q || c == '\\' || c == '\t' || c == '\n' || c == '\r' {
      assert t[2..] == rest;
    } else if c < ' ' || c as int == 0x7f {
      var n := c as int;
      HexRoundTrip(n / 16);
      HexRoundTrip(n % 16);
      assert t[4..] == rest;
      assert (16 * (n / 16) + n % 16) as char == c;
    } else {
      assert t[1..] == rest;
    }
  }

  lemma {:induction false} UnescapeEscape(s: string, q: char)
    requires q == '\'' || q == '"'
    ensures Unescape(Escape(s, q), q) == Some(s)
  {
    if s != [] {
      EscapeCons(s, q);
      UnescapeEscape(s[1..], q);
      UnescapeChar(s[0], q, Escape(s[1..], q));
      assert [s[0]] + s[1..] == s;
    }
  }

  /** `repr` of a string reads back as that string, between the quotes it chose. */
  lemma ReprRoundTrip(s: string)
    ensures var r := StrRepr(s);
            Unescape(r[1..|r| - 1], r[0]) == Some(s)
  {
    var q := ReprQuote(s);
    var r := StrRepr(s);
    assert r[1..|r| - 1] == Escape(s, q);
    UnescapeEscape(s, q);
  }

  /** A character `repr` writes as it is between single quotes. */
  predicate Plain(c: char) {
    c != '\'' && c != '\\' && ' ' <= c && c as int != 0x7f
  }

  lemma {:induction false} EscapePlain(s: string)
    requires forall i :: 0 <= i < |s| ==> Plain(s[i])
    ensures Escape(s, '\'') == s
  {
    if s != [] {
      EscapeCons(s, '\'');
      EscapePlain(s[1..]);
      assert [s[0]] + s[1..] == s;
    }
  }

  /** A string of plain characters is written between single quotes as it is. */
  lemma PlainRepr(s: string)
    requires forall i :: 0 <= i < |s| ==> Plain(s[i])
    ensures StrRepr(s) == "'" + s + "'"
  {
    forall i | 0 <= i < |s|
      ensures s[i] != '\''
    {
      assert Plain(s[i]);
    }
    EscapePlain(s);
  }

  /** `repr(v)`. Dict keys are strings, written as `repr` writes them. */
  function Repr(v: Json): string {
    match v
    case JNull => "None"
    case JBool(b) => if b then "True" else "False"
    case JInt(i) => IntToStr(i)
    case JStr(s) => StrRepr(s)
    case JList(xs) => "[" + Join(", ", seq(|xs|, i requires 0 <= i < |xs| => Repr(xs[i]))) + "]"
    case JDict(fs) =>
      "{" + Join(", ", seq(|fs|, i requires 0 <= i < |fs| =>
                             assert fs[i] in fs; StrRepr(fs[i].0) + ": " + Repr(fs[i].1))) + "}"
  }

  /** `str(v)`, which is what an f-string inserts. */
  function Str(v: Json): (r: string)
    ensures v.JStr? ==> r == v.s
  {
    if v.JStr? then v.s else Repr(v)
  }
}
