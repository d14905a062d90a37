/**
 * The JavaScript values the handlers inspect: parsed JSON bodies, token payloads and
 * backend replies. The rules here are the language's own (truthiness, property access,
 * string conversion) and the header-value rules of the Fetch Standard's `Headers.set`,
 * which the session gate relies on when it attaches identity headers.
 */
module JsValues {
  import opened Wrappers

  /**
   * A JavaScript value. `Undefined` is what reading a missing property yields; `Num` stands
   * for a safe integer, at most 2^53 in magnitude, which `String` writes digit for digit.
   */
  datatype Json =
    | Undefined
    | Null
    | Bool(b: bool)
    | Num(n: int)
    | Str(s: string)
    | Arr(items: seq<Json>)
    | Obj(fields: map<string, Json>)

  /** JavaScript truthiness: `undefined`, `null`, `false`, `0` and `""` are the falsy values here. */
  predicate Truthy(v: Json) {
    match v
    case Undefined => false
    case Null => false
    case Bool(b) => b
    case Num(n) => n != 0
    case Str(s) => s != ""
    case Arr(_) => true
    case Obj(_) => true
  }

  /**
   * `v[key]` for a value that is neither null nor undefined. The keys this model reads
   * (`userID`, `username`, `error`, `data`, `short`) are own properties of objects only.
   */
  function Get(v: Json, key: string): (r: Json)
    ensures r != Undefined ==> v.Obj? && key in v.fields && r == v.fields[key]
    ensures v.Obj? && key in v.fields ==> r == v.fields[key]
  {
    if v.Obj? && key in v.fields then v.fields[key] else Undefined
  }

  /** `v.key` as an expression that may throw: reading a property of null or undefined is a TypeError (None). */
  function Member(v: Json, key: string): (r: Option<Json>)
    ensures r.None? <==> v == Null || v == Undefined
    ensures r.Some? ==> r.value == Get(v, key)
  {
    if v == Null || v == Undefined then None else Some(Get(v, key))
  }

  function DigitChar(d: nat): (c: char)
    requires d < 10
    ensures '0' <= c <= '9'
  {
    ['0', '1', '2', '3', '4', '5', '6', '7', '8', '9'][d]
  }

  /** Decimal digits of a natural number, most significant first, as `String(n)` writes them. */
  function Decimal(n: nat): (s: string)
    ensures |s| >= 1
    ensures forall i :: 0 <= i < |s| ==> '0' <= s[i] <= '9'
    decreases n
  {
    if n < 10 then [DigitChar(n)] else Decimal(n / 10) + [DigitChar(n % 10)]
  }

  lemma {:induction false} DecimalInjective(a: nat, b: nat)
    requires Decimal(a) == Decimal(b)
    ensures a == b
    decreases a
  {
    if a < 10 || b < 10 {
    } else {
      var sa, sb := Decimal(a), Decimal(b);
      assert sa[|sa| - 1] == DigitChar(a % 10) && sb[|sb| - 1] == DigitChar(b % 10);
      assert a % 10 == b % 10;
      assert sa[..|sa| - 1] == Decimal(a / 10) && sb[..|sb| - 1] == Decimal(b / 10);
      DecimalInjective(a / 10, b / 10);
    }
  }

  function Join(parts: seq<string>, sep: string): string {
    if |parts| == 0 then ""
    else if |parts| == 1 then parts[0]
    else parts[0] + sep + Join(parts[1..], sep)
  }

  /**
   * The string a template literal `${v}` or `String(v)` produces. An array joins its elements
   * with commas, writing null and undefined elements as the empty string.
   */
  function JsString(v: Json): string
    decreases v
  {
    match v
    case Undefined => "undefined"
    case Null => "null"
    case Bool(b) => if b then "true" else "false"
    case Num(n) => if n < 0 then "-" + Decimal(-n) else Decimal(n)
    case Str(s) => s
    case Arr(items) =>
      Join(seq(|items|, i requires 0 <= i < |items| =>
             if items[i] == Null || items[i] == Undefined then "" else JsString(items[i])), ",")
    case Obj(_) => "[object Object]"
  }

  /** HTTP tab or space, and the line-break characters the Fetch Standard also strips from header values. */
  predicate HttpWhitespace(c: char) {
    c == ' ' || c == '\t' || c == '\n' || c == '\r'
  }

  /** Removes leading and trailing HTTP whitespace (the Fetch Standard's header-value normalisation). */
  function Normalize(s: string): (t: string)
    ensures |t| <= |s|
    ensures |t| > 0 ==> !HttpWhitespace(t[0]) && !HttpWhitespace(t[|t| - 1])
    decreases |s|
  {
    if |s| > 0 && HttpWhitespace(s[0]) then Normalize(s[1..])
    else if |s| > 0 && HttpWhitespace(s[|s| - 1]) then Normalize(s[..|s| - 1])
    else s
  }

  /**
   * The value `headers.set(name, v)` stores, or None when it throws a TypeError: the value is
   * first converted to a string, which must consist of characters up to U+00FF (a WebIDL
   * ByteString), then normalised, and the result may not contain NUL, LF or CR.
   */
  function HeaderValue(v: Json): (r: Option<string>)
    ensures r.Some? ==> forall i :: 0 <= i < |r.value| ==> r.value[i] != '\0' && r.value[i] != '\n' && r.value[i] != '\r'
    ensures r.Some? ==> forall i :: 0 <= i < |r.value| ==> r.value[i] as int <= 0xFF
    ensures r.Some? && |r.value| > 0 ==> !HttpWhitespace(r.value[0]) && !HttpWhitespace(r.value[|r.value| - 1])
    ensures r.Some? ==> |r.value| <= |JsString(v)|
  {
    SetString(JsString(v))
  }

  /** `headers.set` on a value whose string form is `s`. */
  function SetString(s: string): (r: Option<string>)
    ensures r.Some? ==> forall i :: 0 <= i < |r.value| ==> r.value[i] != '\0' && r.value[i] != '\n' && r.value[i] != '\r'
    ensures r.Some? ==> forall i :: 0 <= i < |r.value| ==> r.value[i] as int <= 0xFF
    ensures r.Some? && |r.value| > 0 ==> !HttpWhitespace(r.value[0]) && !HttpWhitespace(r.value[|r.value| - 1])
    ensures r.Some? ==> |r.value| <= |s|
  {
    if exists i :: 0 <= i < |s| && s[i] as int > 0xFF then None
    else
      var t := Normalize(s);
      if exists i :: 0 <= i < |t| && (t[i] == '\0' || t[i] == '\n' || t[i] == '\r') then None
      else
        NormalizeSubsequence(s);
        Some(t)
  }

  lemma {:induction false} NormalizeSubsequence(s: string)
    ensures forall i :: 0 <= i < |Normalize(s)| ==> Normalize(s)[i] in s
    decreases |s|
  {
    if |s| > 0 && HttpWhitespace(s[0]) {
      NormalizeSubsequence(s[1..]);
    } else if |s| > 0 && HttpWhitespace(s[|s| - 1]) {
      NormalizeSubsequence(s[..|s| - 1]);
    }
  }

  /** Normalisation strips only whitespace at the ends: every other character survives it. */
  lemma {:induction false} NormalizeKeeps(s: string, c: char)
    requires c in s && !HttpWhitespace(c)
    ensures c in Normalize(s)
    decreases |s|
  {
    var i :| 0 <= i < |s| && s[i] == c;
    if |s| > 0 && HttpWhitespace(s[0]) {
      assert s[1..][i - 1] == c;
      NormalizeKeeps(s[1..], c);
    } else if |s| > 0 && HttpWhitespace(s[|s| - 1]) {
      assert s[..|s| - 1][i] == c;
      NormalizeKeeps(s[..|s| - 1], c);
    }
  }

  /** `headers.set` stores exactly the normalised string form of the value. */
  lemma HeaderValueStored(v: Json)
    ensures HeaderValue(v).Some? ==> HeaderValue(v).value == Normalize(JsString(v))
  {
  }

  /** A Latin-1 string form without NUL, LF or CR is always accepted. */
  lemma HeaderValueAccepted(v: Json)
    requires forall i :: 0 <= i < |JsString(v)| ==>
               JsString(v)[i] as int <= 0xFF && JsString(v)[i] != '\0' && JsString(v)[i] != '\n' && JsString(v)[i] != '\r'
    ensures HeaderValue(v).Some?
  {
    SetStringAccepted(JsString(v));
  }

  lemma SetStringAccepted(s: string)
    requires forall i :: 0 <= i < |s| ==> s[i] as int <= 0xFF && s[i] != '\0' && s[i] != '\n' && s[i] != '\r'
    ensures SetString(s).Some?
  {
    var t := Normalize(s);
    NormalizeSubsequence(s);
    forall i | 0 <= i < |t|
      ensures t[i] != '\0' && t[i] != '\n' && t[i] != '\r'
    {
      var j :| 0 <= j < |s| && s[j] == t[i];
    }
  }

  /** A NUL or a character above U+00FF anywhere in the string form always makes `headers.set` throw. */
  lemma HeaderValueRejected(v: Json)
    ensures var s := JsString(v);
            (exists i :: 0 <= i < |s| && (s[i] == '\0' || s[i] as int > 0xFF)) ==> HeaderValue(v).None?
  {
    var s := JsString(v);
    if i :| 0 <= i < |s| && s[i] == '\0' {
      NormalizeKeeps(s, '\0');
    }
  }

  /** A numeric claim, such as an integer user id, is stored as its decimal string (for safe integers, as `Num` stands for). */
  lemma IntegerHeaderValue(n: int)
    ensures HeaderValue(Num(n)) == Some(JsString(Num(n)))
  {
    var s := JsString(Num(n));
    var digits := Decimal(if n < 0 then -n else n);
    assert s == (if n < 0 then "-" + digits else digits);
    assert forall i :: 0 <= i < |s| ==> s[i] == '-' || '0' <= s[i] <= '9';
    SetStringAccepted(s);
    assert Normalize(s) == s;
    assert HeaderValue(Num(n)) == SetString(s);
  }

  /** A plain string header value is stored unchanged when it has no surrounding whitespace and only Latin-1 characters other than NUL, LF and CR. */
  lemma PlainHeaderValue(s: string)
    requires forall i :: 0 <= i < |s| ==> s[i] as int <= 0xFF && s[i] != '\0' && s[i] != '\n' && s[i] != '\r'
    requires |s| > 0 ==> s[0] != ' ' && s[0] != '\t' && s[|s| - 1] != ' ' && s[|s| - 1] != '\t'
    ensures HeaderValue(Str(s)) == Some(s)
  {
  }

  /** A line break at the end of a value is stripped, not refused: `"ann\n"` is stored as `"ann"`. */
  lemma EdgeLineBreakStripped()
    ensures HeaderValue(Str("ann\n")) == Some("ann")
  {
    assert Normalize("ann\n") == Normalize("ann");
    PlainHeaderValue("ann");
  }

  /** A line break inside a value (not at its ends) makes `headers.set` throw. */
  lemma InteriorLineBreakRejected(a: string, b: string)
    requires |a| > 0 && !HttpWhitespace(a[0])
    requires |b| > 0 && !HttpWhitespace(b[|b| - 1])
    ensures HeaderValue(Str(a + "\n" + b)) == None
  {
    var s := a + "\n" + b;
    assert Normalize(s) == s;
    assert s[|a|] == '\n';
  }

  /**
   * The own enumerable properties `{...v}` copies: an object's fields, an array's or a string's
   * elements under their decimal indices, nothing for other values.
   */
  function SpreadFields(v: Json): (m: map<string, Json>)
    ensures v.Obj? ==> m == v.fields
    ensures v.Undefined? || v.Null? || v.Bool? || v.Num? ==> m == map[]
  {
    match v
    case Obj(fields) => fields
    case Arr(items) => IndexMap(items)
    case Str(s) => IndexMap(seq(|s|, i requires 0 <= i < |s| => Str([s[i]])))
    case _ => map[]
  }

  function IndexMap(items: seq<Json>): (m: map<string, Json>)
    decreases |items|
  {
    if |items| == 0 then map[]
    else IndexMap(items[..|items| - 1])[Decimal(|items| - 1) := items[|items| - 1]]
  }

  /** Every element of an array is copied by a spread under its own decimal index. */
  lemma {:induction false} IndexMapAt(items: seq<Json>, i: nat)
    requires i < |items|
    ensures Decimal(i) in IndexMap(items) && IndexMap(items)[Decimal(i)] == items[i]
    decreases |items|
  {
    var n := |items| - 1;
    if i < n {
      IndexMapAt(items[..n], i);
      if Decimal(i) == Decimal(n) {
        DecimalInjective(i, n);
      }
    }
  }

  /** A spread of an array copies nothing but decimal indices below its length. */
  lemma {:induction false} IndexMapKeys(items: seq<Json>, k: string)
    requires k in IndexMap(items)
    ensures exists i :: 0 <= i < |items| && k == Decimal(i)
    decreases |items|
  {
    var n := |items| - 1;
    if k != Decimal(n) {
      IndexMapKeys(items[..n], k);
    }
  }
}
