/**
 * The JSON text format as far as the messenger uses it: `JSON.stringify` builds
 * the contact-card payload and `JSON.parse` reads a scanned code back.
 *
 * `Parse` follows the JSON grammar that `JSON.parse` accepts (whitespace is
 * space, tab, LF and CR only; no trailing commas, no leading zeros, strings
 * may not hold raw control characters). `Stringify` follows `JSON.stringify`'s
 * quoting of strings. `Truthy` is JavaScript's ToBoolean on parsed values and
 * `Property` is property access `v.key` on a parsed value.
 */
module Json {
  import opened Wrappers
  import opened Text

  /** A parsed JSON value. A number keeps its source text (see `Truthy`). */
  datatype Json =
    | JNull
    | JBool(b: bool)
    | JNumber(lexeme: string)
    | JString(s: string)
    | JArray(items: seq<Json>)
    | JObject(members: seq<(string, Json)>)

  /** A value parsed from a prefix of the input, with the unread rest. */
  datatype Parsed<+T> = Parsed(value: T, rest: string)

  // ---------------------------------------------------------------------
  // Characters

  predicate IsWs(c: char) {
    c == ' ' || c == '\t' || c == '\n' || c == '\r'
  }

  function HexValue(c: char): (r: Option<nat>)
    ensures r.Some? ==> r.value < 16
  {
    if '0' <= c <= '9' then Some(c as int - '0' as int)
    else if 'a' <= c <= 'f' then Some(c as int - 'a' as int + 10)
    else if 'A' <= c <= 'F' then Some(c as int - 'A' as int + 10)
    else None
  }

  /** The lower-case hexadecimal digit `JSON.stringify` writes in `\u` escapes. */
  function HexDigit(n: nat): (c: char)
    requires n < 16
    ensures HexValue(c) == Some(n)
  {
    if n < 10 then ('0' as int + n) as char else ('a' as int + n - 10) as char
  }

  /** The code unit written by four hexadecimal digits. */
  function Hex4(s: string): (r: Option<nat>)
    requires |s| == 4
    ensures r.Some? ==> r.value < 0x1_0000
  {
    match (HexValue(s[0]), HexValue(s[1]), HexValue(s[2]), HexValue(s[3]))
    case (Some(a), Some(b), Some(c), Some(d)) => Some(((a * 16 + b) * 16 + c) * 16 + d)
    case _ => None
  }

  predicate IsScalar(n: int) {
    0 <= n < 0xD800 || 0xE000 <= n < 0x11_0000
  }

  // ---------------------------------------------------------------------
  // Parsing (the grammar of `JSON.parse`)

  function SkipWs(s: string): (r: string)
    ensures |r| <= |s|
    ensures r == [] || !IsWs(r[0])
  {
    if |s| > 0 && IsWs(s[0]) then SkipWs(s[1..]) else s
  }

  /**
   * The character written by an escape sequence; `s` is what follows the
   * backslash. A surrogate pair such as `\ud83d\ude00` gives one character. A lone
   * surrogate has no `char` and is refused.
   */
  function Unescape(s: string): (r: Option<Parsed<char>>)
    ensures r.Some? ==> |r.value.rest| < |s|
  {
    if |s| == 0 then None
    else if s[0] == '"' then Some(Parsed('"', s[1..]))
    else if s[0] == '\\' then Some(Parsed('\\', s[1..]))
    else if s[0] == '/' then Some(Parsed('/', s[1..]))
    else if s[0] == 'b' then Some(Parsed('\U{0008}', s[1..]))
    else if s[0] == 'f' then Some(Parsed('\U{000C}', s[1..]))
    else if s[0] == 'n' then Some(Parsed('\n', s[1..]))
    else if s[0] == 'r' then Some(Parsed('\r', s[1..]))
    else if s[0] == 't' then Some(Parsed('\t', s[1..]))
    else if s[0] == 'u' && |s| >= 5 then
      match Hex4(s[1..5])
      case None => None
      case Some(hi) =>
        if IsScalar(hi) then Some(Parsed(hi as char, s[5..]))
        else if hi < 0xDC00 && |s| >= 11 && s[5] == '\\' && s[6] == 'u' then
          match Hex4(s[7..11])
          case Some(lo) =>
            if 0xDC00 <= lo < 0xE000 then
              Some(Parsed((0x1_0000 + (hi - 0xD800) * 0x400 + (lo - 0xDC00)) as char, s[11..]))
            else None
          case None => None
        else None
    else None
  }

  /** The characters of a string literal up to and including its closing quote. */
  function ParseChars(s: string): (r: Option<Parsed<string>>)
    ensures r.Some? ==> |r.value.rest| < |s|
  {
    if |s| == 0 then None
    else if s[0] == '"' then Some(Parsed([], s[1..]))
    else if s[0] == '\\' then
      match Unescape(s[1..])
      case None => None
      case Some(Parsed(c, t)) => Cons(c, ParseChars(t))
    else if s[0] < ' ' then None
    else Cons(s[0], ParseChars(s[1..]))
  }

  function Cons(c: char, p: Option<Parsed<string>>): Option<Parsed<string>> {
    match p
    case None => None
    case Some(Parsed(cs, rest)) => Some(Parsed([c] + cs, rest))
  }

  function ParseString(s: string): (r: Option<Parsed<string>>)
    ensures r.Some? ==> |r.value.rest| < |s|
  {
    if |s| > 0 && s[0] == '"' then ParseChars(s[1..]) else None
  }

  function ParseLiteral(s: string, word: string, v: Json): (r: Option<Parsed<Json>>)
    requires |word| > 0
    ensures r.Some? ==> |r.value.rest| < |s|
  {
    if |word| <= |s| && s[..|word|] == word then Some(Parsed(v, s[|word|..])) else None
  }

  /** The number of decimal digits at the start of `s`. */
  function DigitRun(s: string): (n: nat)
    ensures n <= |s|
    ensures forall i :: 0 <= i < n ==> IsDecimalDigit(s[i])
    ensures n == |s| || !IsDecimalDigit(s[n])
  {
    if |s| > 0 && IsDecimalDigit(s[0]) then 1 + DigitRun(s[1..]) else 0
  }

  /** Where an optional fraction `.digits` starting at `i` ends. */
  function FractionEnd(s: string, i: nat): (r: Option<nat>)
    requires i <= |s|
    ensures r.Some? ==> i <= r.value <= |s|
  {
    if i < |s| && s[i] == '.' then
      var d := DigitRun(s[i + 1..]);
      if d == 0 then None else Some(i + 1 + d)
    else Some(i)
  }

  /** Where an optional exponent `e[+-]digits` starting at `j` ends. */
  function ExponentEnd(s: string, j: nat): (r: Option<nat>)
    requires j <= |s|
    ensures r.Some? ==> j <= r.value <= |s|
  {
    if j < |s| && (s[j] == 'e' || s[j] == 'E') then
      var k := if j + 1 < |s| && (s[j + 1] == '+' || s[j + 1] == '-') then j + 2 else j + 1;
      var d := DigitRun(s[k..]);
      if d == 0 then None else Some(k + d)
    else Some(j)
  }

  /** `-? (0 | [1-9][0-9]*) fraction? exponent?` */
  function ParseNumber(s: string): (r: Option<Parsed<Json>>)
    ensures r.Some? ==> |r.value.rest| < |s|
  {
    var a := if |s| > 0 && s[0] == '-' then 1 else 0;
    var d := DigitRun(s[a..]);
    if d == 0 then None
    else
      var i := if s[a] == '0' then a + 1 else a + d;
      match FractionEnd(s, i)
      case None => None
      case Some(j) =>
        match ExponentEnd(s, j)
        case None => None
        case Some(e) => Some(Parsed(JNumber(s[..e]), s[e..]))
  }

  /** One value starting at the first character of `s`. */
  function ParseValue(s: string): (r: Option<Parsed<Json>>)
    ensures r.Some? ==> |r.value.rest| < |s|
    decreases |s|, 0
  {
    if |s| == 0 then None
    else if s[0] == 'n' then ParseLiteral(s, "null", JNull)
    else if s[0] == 't' then ParseLiteral(s, "true", JBool(true))
    else if s[0] == 'f' then ParseLiteral(s, "false", JBool(false))
    else if s[0] == '"' then
      match ParseString(s)
      case None => None
      case Some(Parsed(str, rest)) => Some(Parsed(JString(str), rest))
    else if s[0] == '[' then ParseArray(s[1..])
    else if s[0] == '{' then ParseObject(s[1..])
    else if s[0] == '-' || IsDecimalDigit(s[0]) then ParseNumber(s)
    else None
  }

  /** An array after its `[`. */
  function ParseArray(s: string): (r: Option<Parsed<Json>>)
    ensures r.Some? ==> |r.value.rest| < |s|
    decreases |s|, 2
  {
    var t := SkipWs(s);
    if |t| > 0 && t[0] == ']' then Some(Parsed(JArray([]), t[1..]))
    else
      match ParseElements(t)
      case None => None
      case Some(Parsed(items, rest)) => Some(Parsed(JArray(items), rest))
  }

  /** The elements of a non-empty array and its closing `]`. */
  function ParseElements(s: string): (r: Option<Parsed<seq<Json>>>)
    ensures r.Some? ==> |r.value.rest| < |s|
    decreases |s|, 1
  {
    match ParseValue(SkipWs(s))
    case None => None
    case Some(Parsed(v, rest)) =>
      var u := SkipWs(rest);
      if |u| > 0 && u[0] == ',' then
        match ParseElements(u[1..])
        case None => None
        case Some(Parsed(vs, r)) => Some(Parsed([v] + vs, r))
      else if |u| > 0 && u[0] == ']' then Some(Parsed([v], u[1..]))
      else None
  }

  /** An object after its `{`. */
  function ParseObject(s: string): (r: Option<Parsed<Json>>)
    ensures r.Some? ==> |r.value.rest| < |s|
    decreases |s|, 2
  {
    var t := SkipWs(s);
    if |t| > 0 && t[0] == '}' then Some(Parsed(JObject([]), t[1..]))
    else
      match ParseMembers(t)
      case None => None
      case Some(Parsed(ms, rest)) => Some(Parsed(JObject(ms), rest))
  }

  /** The `"key": value` members of a non-empty object and its closing `}`. */
  function ParseMembers(s: string): (r: Option<Parsed<seq<(string, Json)>>>)
    ensures r.Some? ==> |r.value.rest| < |s|
    decreases |s|, 1
  {
    match ParseString(SkipWs(s))
    case None => None
    case Some(Parsed(k, r1)) =>
      var u := SkipWs(r1);
      if |u| == 0 || u[0] != ':' then None
      else
        match ParseValue(SkipWs(u[1..]))
        case None => None
        case Some(Parsed(v, r2)) =>
          var w := SkipWs(r2);
          if |w| > 0 && w[0] == ',' then
            match ParseMembers(w[1..])
            case None => None
            case Some(Parsed(ms, r3)) => Some(Parsed([(k, v)] + ms, r3))
          else if |w| > 0 && w[0] == '}' then Some(Parsed([(k, v)], w[1..]))
          else None
  }

  /** `JSON.parse(text)`: one value with optional whitespace around it; `None` is a SyntaxError. */
  function Parse(text: string): Option<Json> {
    match ParseValue(SkipWs(text))
    case None => None
    case Some(Parsed(v, rest)) => if SkipWs(rest) == [] then Some(v) else None
  }

  // ---------------------------------------------------------------------
  // Serialising (`JSON.stringify`)

  /** How `JSON.stringify` writes one character inside a string literal. */
  function QuoteChar(c: char): string {
    if c == '\U{0008}' then "\\b"
    else if c == '\t' then "\\t"
    else if c == '\n' then "\\n"
    else if c == '\U{000C}' then "\\f"
    else if c == '\r' then "\\r"
    else if c == '"' then "\\\""
    else if c == '\\' then "\\\\"
    else if c < ' ' then "\\u00" + [HexDigit(c as int / 16), HexDigit(c as int % 16)]
    else [c]
  }

  function Escape(s: string): string {
    if |s| == 0 then "" else QuoteChar(s[0]) + Escape(s[1..])
  }

  function Quote(s: string): string {
    "\"" + Escape(s) + "\""
  }

  /**
   * `JSON.stringify(v)`. A number is written as its lexeme; the messenger only
   * serialises objects whose fields are strings.
   */
  function Stringify(v: Json): string {
    match v
    case JNull => "null"
    case JBool(b) => if b then "true" else "false"
    case JNumber(lexeme) => lexeme
    case JString(s) => Quote(s)
    case JArray(items) => "[" + StringifyItems(items) + "]"
    case JObject(members) => "{" + StringifyMembers(members) + "}"
  }

  function StringifyItems(items: seq<Json>): string {
    if |items| == 0 then ""
    else if |items| == 1 then Stringify(items[0])
    else Stringify(items[0]) + "," + StringifyItems(items[1..])
  }

  function StringifyMembers(members: seq<(string, Json)>): string {
    if |members| == 0 then ""
    else
      assert members[0] in members && members[0].1 < members[0];
      var m := Quote(members[0].0) + ":" + Stringify(members[0].1);
      if |members| == 1 then m else m + "," + StringifyMembers(members[1..])
  }

  /** Values `Stringify` writes as `JSON.stringify` does: no number lexemes inside. */
  predicate NumberFree(v: Json) {
    match v
    case JNumber(_) => false
    case JArray(items) => forall i :: 0 <= i < |items| ==> NumberFree(items[i])
    case JObject(members) => forall i :: 0 <= i < |members| ==> NumberFree(members[i].1)
    case _ => true
  }

  // ---------------------------------------------------------------------
  // JavaScript semantics of a parsed value

  /** A decimal number `mantissa * 10^exponent`. */
  datatype Scaled = Scaled(mantissa: nat, exponent: int)

  function Pow(b: nat, n: nat): nat {
    if n == 0 then 1 else b * Pow(b, n - 1)
  }

  /** The leading digits of `s`. */
  function Digits(s: string): (d: string)
    ensures |d| <= |s| && d == s[..|d|]
    ensures forall i :: 0 <= i < |d| ==> IsDecimalDigit(d[i])
  {
    s[..DigitRun(s)]
  }

  /** The value of an optional exponent part `e[+-]digits` at the start of `r`. */
  function ExponentValue(r: string): int {
    if |r| > 0 && (r[0] == 'e' || r[0] == 'E') then
      var t := r[1..];
      var u := if |t| > 0 && (t[0] == '+' || t[0] == '-') then t[1..] else t;
      var d: int := DecimalValue(Digits(u));
      if |t| > 0 && t[0] == '-' then -d else d
    else 0
  }

  /**
   * The exact decimal value of a number lexeme `-?int(.frac)?(e[+-]?exp)?`:
   * the digits of `int` and `frac` form the mantissa, and the exponent is
   * `exp` less the number of fraction digits.
   */
  function LexemeValue(lexeme: string): Scaled {
    var s := if |lexeme| > 0 && lexeme[0] == '-' then lexeme[1..] else lexeme;
    var whole := Digits(s);
    var r := s[|whole|..];
    var frac := if |r| > 0 && r[0] == '.' then Digits(r[1..]) else "";
    var r2 := if |r| > 0 && r[0] == '.' then r[1 + |frac|..] else r;
    assert forall i :: 0 <= i < |whole + frac| ==> IsDecimalDigit((whole + frac)[i]);
    Scaled(DecimalValue(whole + frac), ExponentValue(r2) - |frac|)
  }

  /**
   * The number `JSON.parse` produces from this value is `0` or `-0`: the
   * value is zero, or at most 2^-1075, half the smallest subnormal double,
   * which rounds to zero (ties go to the even neighbour, zero).
   */
  predicate RoundsToZero(x: Scaled) {
    x.mantissa == 0 || (x.exponent < 0 && x.mantissa * Pow(2, 1075) <= Pow(10, -x.exponent))
  }

  /** The lexemes `0` and `-0` read as zero. */
  lemma ZeroLexemes()
    ensures RoundsToZero(LexemeValue("0")) && RoundsToZero(LexemeValue("-0"))
  {
    assert DigitRun("0") == 1 by { assert DigitRun("0"[1..]) == 0; }
    assert Digits("0") == "0";
    assert "-0"[1..] == "0";
    assert DecimalValue("0" + "") == 0 by { assert "0" + "" == "0"; assert "0"[..0] == ""; }
  }

  lemma {:induction false} PowMonotone(b: nat, m: nat, n: nat)
    requires b == 2 || b == 10
    requires m <= n
    ensures Pow(b, m) <= Pow(b, n)
    decreases n
  {
    if m < n {
      PowMonotone(b, m, n - 1);
      if b == 2 {
        assert Pow(2, n) == 2 * Pow(2, n - 1);
      } else {
        assert Pow(10, n) == 10 * Pow(10, n - 1);
      }
    }
  }

  /** 2^(3k) <= 10^k, since 8 <= 10. */
  lemma {:induction false} CubesOfTwo(k: nat)
    ensures Pow(2, 3 * k) <= Pow(10, k)
  {
    if k > 0 {
      CubesOfTwo(k - 1);
      var n := 3 * k;
      assert Pow(2, n) == 2 * Pow(2, n - 1);
      assert Pow(2, n - 1) == 2 * Pow(2, n - 2);
      assert Pow(2, n - 2) == 2 * Pow(2, n - 3);
      assert n - 3 == 3 * (k - 1);
      assert Pow(10, k) == 10 * Pow(10, k - 1);
    }
  }

  /** 2^1075 <= 10^400. */
  lemma UnderflowBound()
    ensures Pow(2, 1075) <= Pow(10, 400)
  {
    PowMonotone(2, 1075, 1077);
    CubesOfTwo(359);
    PowMonotone(10, 359, 400);
  }

  lemma TinyExponent()
    ensures ExponentValue("e-400") == -400
  {
    assert "e-400"[1..] == "-400" && "-400"[1..] == "400";
    assert Digits("400") == "400" by {
      assert DigitRun("") == 0;
      assert "400"[1..] == "00" && "00"[1..] == "0" && "0"[1..] == "";
    }
    assert DecimalValue("400") == 400 by {
      assert "400"[..2] == "40" && "40"[..1] == "4" && "4"[..0] == "";
    }
  }

  /** The lexeme `1e-400` denotes 1 * 10^-400. */
  lemma TinyLexemeValue()
    ensures LexemeValue("1e-400") == Scaled(1, -400)
  {
    assert Digits("1e-400") == "1" by { assert DigitRun("e-400") == 0; }
    assert "1e-400"[1..] == "e-400";
    TinyExponent();
    assert "1" + "" == "1" && DecimalValue("1") == 1 by { assert "1"[..0] == ""; }
  }

  /** `1e-400` is below half the smallest subnormal double, so it reads as zero and is falsy. */
  lemma TinyNumberIsFalsy()
    ensures !Truthy(JNumber("1e-400"))
  {
    TinyLexemeValue();
    UnderflowBound();
  }

  /**
   * ToBoolean: `null`, `false`, `""` and a number that reads as `0` or `-0`
   * (including one so small that it rounds to zero) are falsy, everything
   * else is truthy.
   */
  predicate Truthy(v: Json) {
    match v
    case JNull => false
    case JBool(b) => b
    case JNumber(lexeme) => !RoundsToZero(LexemeValue(lexeme))
    case JString(s) => s != ""
    case JArray(_) => true
    case JObject(_) => true
  }

  /** The position of the last member named `key`, or -1 when there is none. */
  function LastIndex(members: seq<(string, Json)>, key: string): (i: int)
    ensures -1 <= i < |members|
    ensures i >= 0 ==> members[i].0 == key
    ensures forall j :: i < j < |members| ==> members[j].0 != key
  {
    if |members| == 0 then -1
    else if members[|members| - 1].0 == key then |members| - 1
    else LastIndex(members[..|members| - 1], key)
  }

  /** The value of the last member named `key` (`JSON.parse` keeps the last duplicate). */
  function Lookup(members: seq<(string, Json)>, key: string): (r: Option<Json>)
    ensures r.Some? <==> exists i :: 0 <= i < |members| && members[i].0 == key
    ensures r.Some? ==> exists i :: 0 <= i < |members| && members[i].0 == key && r.value == members[i].1
                                    && forall j :: i < j < |members| ==> members[j].0 != key
  {
    var i := LastIndex(members, key);
    if i < 0 then None else Some(members[i].1)
  }

  /**
   * `v.key` on a parsed value other than `null` (which throws): an own member
   * of an object, or `undefined` (`None`) for every other value, since
   * arrays, strings, numbers and booleans have no property of the names read.
   */
  function Property(v: Json, key: string): Option<Json>
    requires v != JNull
  {
    if v.JObject? then Lookup(v.members, key) else None
  }

  /** `!!v.key`: the property is present and truthy. */
  predicate TruthyProperty(v: Json, key: string)
    requires v != JNull
  {
    match Property(v, key)
    case None => false
    case Some(p) => Truthy(p)
  }

  // ---------------------------------------------------------------------
  // Round trip: `JSON.parse(JSON.stringify(v))` gives `v` back

  /** A two-character escape `\e` read back. */
  lemma ShortEscapeParses(e: char, c: char, t: string)
    requires Unescape([e] + t) == Some(Parsed(c, t))
    ensures ParseChars(['\\', e] + t) == Cons(c, ParseChars(t))
  {
    assert (['\\', e] + t)[1..] == [e] + t;
  }

  /** A `\u00XX` escape of a control character read back. */
  lemma ControlEscapeParses(c: char, t: string)
    requires c < ' '
    ensures ParseChars(QuoteChar(c) + t) == Cons(c, ParseChars(t))
  {
    if c == '\U{0008}' || c == '\t' || c == '\n' || c == '\U{000C}' || c == '\r' {
      var e := QuoteChar(c)[1];
      assert QuoteChar(c) == ['\\', e];
      assert ([e] + t)[1..] == t;
      ShortEscapeParses(e, c, t);
    } else {
      var h1, h2 := HexDigit(c as int / 16), HexDigit(c as int % 16);
      var u := ['u', '0', '0', h1, h2] + t;
      assert QuoteChar(c) + t == ['\\'] + u;
      assert (['\\'] + u)[1..] == u;
      assert u[1..5] == ['0', '0', h1, h2];
      assert Hex4(u[1..5]) == Some(c as int);
      assert u[5..] == t;
      assert Unescape(u) == Some(Parsed(c, t));
    }
  }

  /** Reading back what `QuoteChar(c)` wrote yields `c` and continues after it. */
  lemma QuoteCharParses(c: char, t: string)
    ensures ParseChars(QuoteChar(c) + t) == Cons(c, ParseChars(t))
  {
    if c < ' ' {
      ControlEscapeParses(c, t);
    } else if c == '"' || c == '\\' {
      assert QuoteChar(c) == ['\\', c];
      assert ([c] + t)[1..] == t;
      ShortEscapeParses(c, c, t);
    } else {
      assert QuoteChar(c) == [c];
      assert ([c] + t)[1..] == t;
    }
  }

  lemma {:induction false} EscapeParses(s: string, rest: string)
    ensures ParseChars(Escape(s) + "\"" + rest) == Some(Parsed(s, rest))
  {
    if |s| == 0 {
      assert Escape(s) + "\"" + rest == "\"" + rest;
      assert ("\"" + rest)[1..] == rest;
    } else {
      var t := Escape(s[1..]) + "\"" + rest;
      assert Escape(s) + "\"" + rest == QuoteChar(s[0]) + t;
      QuoteCharParses(s[0], t);
      EscapeParses(s[1..], rest);
      assert [s[0]] + s[1..] == s;
    }
  }

  /** A quoted string reads back as the string it quotes, whatever follows it. */
  lemma QuoteParses(s: string, rest: string)
    ensures ParseString(Quote(s) + rest) == Some(Parsed(s, rest))
  {
    var q := Quote(s) + rest;
    assert q == "\"" + (Escape(s) + "\"" + rest);
    assert q[1..] == Escape(s) + "\"" + rest;
    EscapeParses(s, rest);
  }

  lemma SkipWsNoop(s: string)
    requires |s| > 0 && !IsWs(s[0])
    ensures SkipWs(s) == s
  {
  }

  // One parsing step per lemma, and the rearranging of concatenations in
  // lemmas over plain strings, so that each proof obligation stays small.

  /** The characters a number-free value can start with. */
  predicate Opener(c: char) {
    c == 'n' || c == 't' || c == 'f' || c == '"' || c == '[' || c == '{'
  }

  lemma FirstCharOfStringify(v: Json)
    requires NumberFree(v)
    ensures |Stringify(v)| > 0 && Opener(Stringify(v)[0])
  {
  }

  lemma FirstCharOfItems(items: seq<Json>)
    requires |items| > 0 && NumberFree(items[0])
    ensures |StringifyItems(items)| > 0 && Opener(StringifyItems(items)[0])
  {
    FirstCharOfStringify(items[0]);
  }

  lemma FirstCharOfMembers(members: seq<(string, Json)>)
    requires |members| > 0
    ensures |StringifyMembers(members)| > 0 && StringifyMembers(members)[0] == '"'
  {
  }

  lemma Enclosed(open: char, inner: string, close: char, rest: string)
    ensures [open] + inner + [close] + rest == [open] + (inner + [close] + rest)
    ensures ([open] + (inner + [close] + rest))[1..] == inner + [close] + rest
  {
  }

  lemma Single(whole: string, first: string, close: char, rest: string)
    requires whole == first
    ensures whole + [close] + rest == first + ([close] + rest)
  {
  }

  lemma Joined(whole: string, first: string, sep: string, tail: string, close: char, rest: string)
    requires whole == first + sep + tail
    ensures whole + [close] + rest == first + (sep + (tail + [close] + rest))
  {
  }

  lemma ShapeLast(sm: string, q: string, y: string, rest: string)
    requires sm == q + ":" + y
    ensures sm + "}" + rest == q + (":" + (y + ("}" + rest)))
  {
  }

  lemma ShapeCons(sm: string, q: string, y: string, tail: string, rest: string)
    requires sm == q + ":" + y + "," + tail
    ensures sm + "}" + rest == q + (":" + (y + ("," + (tail + "}" + rest))))
  {
  }

  lemma LiteralParses(v: Json, rest: string)
    requires v == JNull || v.JBool?
    ensures ParseValue(Stringify(v) + rest) == Some(Parsed(v, rest))
  {
    var word := Stringify(v);
    var s := word + rest;
    assert s[..|word|] == word && s[|word|..] == rest;
  }

  lemma EmptyArrayParses(rest: string)
    ensures ParseValue(Stringify(JArray([])) + rest) == Some(Parsed(JArray([]), rest))
  {
    var t := "]" + rest;
    assert Stringify(JArray([])) + rest == "[" + t;
    assert ("[" + t)[1..] == t && t[0] == ']' && SkipWs(t) == t && t[1..] == rest;
  }

  lemma EmptyObjectParses(rest: string)
    ensures ParseValue(Stringify(JObject([])) + rest) == Some(Parsed(JObject([]), rest))
  {
    var t := "}" + rest;
    assert Stringify(JObject([])) + rest == "{" + t;
    assert ("{" + t)[1..] == t && t[0] == '}' && SkipWs(t) == t && t[1..] == rest;
  }

  lemma ValueOfArray(t: string)
    ensures ParseValue("[" + t) == ParseArray(t)
  {
    assert ("[" + t)[0] == '[' && ("[" + t)[1..] == t;
  }

  lemma ValueOfObject(t: string)
    ensures ParseValue("{" + t) == ParseObject(t)
  {
    assert ("{" + t)[0] == '{' && ("{" + t)[1..] == t;
  }

  lemma ArrayStep(t: string, items: seq<Json>, rest: string)
    requires |t| > 0 && !IsWs(t[0]) && t[0] != ']'
    requires ParseElements(t) == Some(Parsed(items, rest))
    ensures ParseValue("[" + t) == Some(Parsed(JArray(items), rest))
  {
    ValueOfArray(t);
    assert SkipWs(t) == t;
  }

  lemma ObjectStep(t: string, members: seq<(string, Json)>, rest: string)
    requires |t| > 0 && t[0] == '"'
    requires ParseMembers(t) == Some(Parsed(members, rest))
    ensures ParseValue("{" + t) == Some(Parsed(JObject(members), rest))
  {
    ValueOfObject(t);
    assert SkipWs(t) == t;
  }

  lemma ElementsLast(s: string, v: Json, rest: string)
    requires |s| > 0 && Opener(s[0])
    requires ParseValue(s) == Some(Parsed(v, "]" + rest))
    ensures ParseElements(s) == Some(Parsed([v], rest))
  {
    SkipWsNoop(s);
    SkipWsNoop("]" + rest);
    assert ("]" + rest)[1..] == rest;
  }

  lemma ElementsCons(s: string, v: Json, tail: string, vs: seq<Json>, rest: string)
    requires |s| > 0 && Opener(s[0])
    requires ParseValue(s) == Some(Parsed(v, "," + tail))
    requires ParseElements(tail) == Some(Parsed(vs, rest))
    ensures ParseElements(s) == Some(Parsed([v] + vs, rest))
  {
    SkipWsNoop(s);
    SkipWsNoop("," + tail);
    assert ("," + tail)[1..] == tail;
  }

  /** The parse of `"k": x` up to the end of the value, for `x` without leading whitespace. */
  lemma MemberHead(s: string, k: string, x: string)
    requires |s| > 0 && s[0] == '"'
    requires ParseString(s) == Some(Parsed(k, ":" + x))
    requires |x| > 0 && Opener(x[0])
    ensures SkipWs(s) == s
    ensures SkipWs(":" + x) == ":" + x && (":" + x)[1..] == x && SkipWs(x) == x
  {
  }

  lemma MembersLast(s: string, k: string, x: string, v: Json, rest: string)
    requires |s| > 0 && s[0] == '"'
    requires ParseString(s) == Some(Parsed(k, ":" + x))
    requires |x| > 0 && Opener(x[0])
    requires ParseValue(x) == Some(Parsed(v, "}" + rest))
    ensures ParseMembers(s) == Some(Parsed([(k, v)], rest))
  {
    MemberHead(s, k, x);
    assert SkipWs("}" + rest) == "}" + rest;
    assert ("}" + rest)[1..] == rest;
  }

  lemma MembersCons(s: string, k: string, x: string, v: Json, tail: string, ms: seq<(string, Json)>, rest: string)
    requires |s| > 0 && s[0] == '"'
    requires ParseString(s) == Some(Parsed(k, ":" + x))
    requires |x| > 0 && Opener(x[0])
    requires ParseValue(x) == Some(Parsed(v, "," + tail))
    requires ParseMembers(tail) == Some(Parsed(ms, rest))
    ensures ParseMembers(s) == Some(Parsed([(k, v)] + ms, rest))
  {
    MemberHead(s, k, x);
    assert SkipWs("," + tail) == "," + tail;
    assert ("," + tail)[1..] == tail;
  }

  lemma {:induction false} StringifyParses(v: Json, rest: string)
    requires NumberFree(v)
    ensures ParseValue(Stringify(v) + rest) == Some(Parsed(v, rest))
    decreases v, 2
  {
    match v
    case JNull => LiteralParses(v, rest);
    case JBool(_) => LiteralParses(v, rest);
    case JString(str) => QuoteParses(str, rest);
    case JArray(items) =>
      if |items| == 0 { EmptyArrayParses(rest); } else { ArrayParses(items, rest); }
    case JObject(members) =>
      if |members| == 0 { EmptyObjectParses(rest); } else { ObjectParses(members, rest); }
  }

  lemma {:induction false} ArrayParses(items: seq<Json>, rest: string)
    requires |items| > 0
    requires forall i :: 0 <= i < |items| ==> NumberFree(items[i])
    ensures ParseValue(Stringify(JArray(items)) + rest) == Some(Parsed(JArray(items), rest))
    decreases items, 1
  {
    var inner := StringifyItems(items);
    Enclosed('[', inner, ']', rest);
    FirstCharOfItems(items);
    ItemsParse(items, rest);
    ArrayStep(inner + "]" + rest, items, rest);
  }

  lemma {:induction false} ObjectParses(members: seq<(string, Json)>, rest: string)
    requires |members| > 0
    requires forall i :: 0 <= i < |members| ==> NumberFree(members[i].1)
    ensures ParseValue(Stringify(JObject(members)) + rest) == Some(Parsed(JObject(members), rest))
    decreases members, 1
  {
    var inner := StringifyMembers(members);
    Enclosed('{', inner, '}', rest);
    FirstCharOfMembers(members);
    MembersParse(members, rest);
    ObjectStep(inner + "}" + rest, members, rest);
  }

  lemma {:induction false} ItemsParse(items: seq<Json>, rest: string)
    requires |items| > 0
    requires forall i :: 0 <= i < |items| ==> NumberFree(items[i])
    ensures ParseElements(StringifyItems(items) + "]" + rest) == Some(Parsed(items, rest))
    decreases items, 0
  {
    assert items[0] in items;
    var first := Stringify(items[0]);
    FirstCharOfStringify(items[0]);
    if |items| == 1 {
      Single(StringifyItems(items), first, ']', rest);
      StringifyParses(items[0], "]" + rest);
      ElementsLast(first + ("]" + rest), items[0], rest);
      assert [items[0]] == items;
    } else {
      var tail := StringifyItems(items[1..]);
      Joined(StringifyItems(items), first, ",", tail, ']', rest);
      StringifyParses(items[0], "," + (tail + "]" + rest));
      ItemsParse(items[1..], rest);
      ElementsCons(first + ("," + (tail + "]" + rest)), items[0], tail + "]" + rest, items[1..], rest);
      HeadTail(items);
    }
  }

  /** What follows the first member of a stringified non-empty member list. */
  function AfterFirstMember(members: seq<(string, Json)>, rest: string): string
    requires |members| > 0
  {
    if |members| == 1 then "}" + rest else "," + (StringifyMembers(members[1..]) + "}" + rest)
  }

  lemma MembersShape(members: seq<(string, Json)>, rest: string)
    requires |members| > 0
    ensures StringifyMembers(members) + "}" + rest
         == Quote(members[0].0) + (":" + (Stringify(members[0].1) + AfterFirstMember(members, rest)))
  {
    if |members| == 1 {
      ShapeLast(StringifyMembers(members), Quote(members[0].0), Stringify(members[0].1), rest);
    } else {
      ShapeCons(StringifyMembers(members), Quote(members[0].0), Stringify(members[0].1),
                StringifyMembers(members[1..]), rest);
    }
  }

  lemma HeadTail<T>(xs: seq<T>)
    requires |xs| > 0
    ensures [xs[0]] + xs[1..] == xs
  {
  }

  /** A stringified non-empty member list starts with the first key, quoted, and a colon. */
  lemma FirstMemberPrefix(members: seq<(string, Json)>, rest: string)
    requires |members| > 0 && NumberFree(members[0].1)
    ensures var s := StringifyMembers(members) + "}" + rest;
            var x := Stringify(members[0].1) + AfterFirstMember(members, rest);
            && |s| > 0 && s[0] == '"'
            && ParseString(s) == Some(Parsed(members[0].0, ":" + x))
            && |x| > 0 && Opener(x[0])
  {
    var k, v := members[0].0, members[0].1;
    var x := Stringify(v) + AfterFirstMember(members, rest);
    MembersShape(members, rest);
    QuoteParses(k, ":" + x);
    FirstCharOfStringify(v);
  }

  lemma {:induction false} MembersParse(members: seq<(string, Json)>, rest: string)
    requires |members| > 0
    requires forall i :: 0 <= i < |members| ==> NumberFree(members[i].1)
    ensures ParseMembers(StringifyMembers(members) + "}" + rest) == Some(Parsed(members, rest))
    decreases members, 0
  {
    var k, v := members[0].0, members[0].1;
    assert members[0] in members && v < members[0];
    var after := AfterFirstMember(members, rest);
    var s := StringifyMembers(members) + "}" + rest;
    var x := Stringify(v) + after;
    FirstMemberPrefix(members, rest);
    StringifyParses(v, after);
    if |members| == 1 {
      MembersLast(s, k, x, v, rest);
      assert members == [(k, v)];
    } else {
      var tail := StringifyMembers(members[1..]) + "}" + rest;
      MembersParse(members[1..], rest);
      MembersCons(s, k, x, v, tail, members[1..], rest);
      assert (k, v) == members[0];
      HeadTail(members);
    }
  }

  /** `JSON.parse(JSON.stringify(v))` equals `v` for every value without number lexemes. */
  lemma ParseStringify(v: Json)
    requires NumberFree(v)
    ensures Parse(Stringify(v)) == Some(v)
  {
    FirstCharOfStringify(v);
    assert Stringify(v) + [] == Stringify(v);
    StringifyParses(v, []);
  }
}
