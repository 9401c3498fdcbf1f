/**
 * The slice of JavaScript semantics the extension relies on: the values that
 * come out of JSON files, managed storage and the Chrome APIs, truthiness,
 * the `||` operator, property reads, `x[0]`, string conversion and the loose
 * `==` against a string literal.
 */
module Js {

  datatype Option<+T> = None | Some(value: T)

  datatype Result<+T, +E> = Success(value: T) | Failure(error: E)

  /** A JSON-like JavaScript value. Numbers are modelled as integers. */
  datatype JsValue =
    | Undefined
    | Null
    | Bool(b: bool)
    | Num(n: int)
    | Str(s: string)
    | Arr(items: seq<JsValue>)
    | Obj(fields: map<string, JsValue>)

  /** What a `throw` or a rejected promise carries. */
  datatype Thrown =
    | TypeError                 // e.g. reading a property of null
    | Error(message: string)    // `new Error(message)` thrown by the extension
    | Foreign(origin: string)   // an exception raised inside code that is not modelled

  /** The outcome of reading and parsing a JSON file bundled with the extension. */
  datatype FileRead = Parsed(json: JsValue) | Unreadable

  const EmptyObject: JsValue := Obj(map[])

  /** JavaScript truthiness: undefined, null, false, 0 and "" are falsy; every array and object is truthy. */
  predicate Truthy(v: JsValue) {
    match v
    case Undefined => false
    case Null => false
    case Bool(b) => b
    case Num(n) => n != 0
    case Str(s) => s != ""
    case Arr(_) => true
    case Obj(_) => true
  }

  /** Values whose properties cannot be read (doing so throws a TypeError). */
  predicate Nullish(v: JsValue) {
    v.Undefined? || v.Null?
  }

  /** `a || b`: the first operand when it is truthy, otherwise the second. */
  function Or(a: JsValue, b: JsValue): (r: JsValue)
    ensures r == a || r == b
    ensures Truthy(r) <==> Truthy(a) || Truthy(b)
  {
    if Truthy(a) then a else b
  }

  /**
   * `v.key` for a non-nullish `v`. Only objects have own data properties here;
   * the names the extension reads are not defined by any prototype, so on a
   * primitive or an array they read as undefined.
   */
  function Get(v: JsValue, key: string): JsValue
    requires !Nullish(v)
  {
    if v.Obj? && key in v.fields then v.fields[key] else Undefined
  }

  /** `v[0]` for a non-nullish `v`. */
  function Index0(v: JsValue): JsValue
    requires !Nullish(v)
  {
    match v
    case Arr(items) => if |items| > 0 then items[0] else Undefined
    case Str(s) => if |s| > 0 then Str([s[0]]) else Undefined
    case Obj(fields) => if "0" in fields then fields["0"] else Undefined
    case _ => Undefined
  }

  function DigitChar(d: nat): char
    requires d < 10
  {
    "0123456789"[d]
  }

  function NatToDecimal(n: nat): (r: string)
    ensures |r| > 0
    decreases n
  {
    if n < 10 then [DigitChar(n)] else NatToDecimal(n / 10) + [DigitChar(n % 10)]
  }

  function Join(parts: seq<string>, sep: string): string
  {
    if |parts| == 0 then ""
    else if |parts| == 1 then parts[0]
    else parts[0] + sep + Join(parts[1..], sep)
  }

  /** `String(v)`, as used by `"..." + v` and by loose equality with a string. */
  function ToJsString(v: JsValue): string
    decreases v
  {
    match v
    case Undefined => "undefined"
    case Null => "null"
    case Bool(b) => if b then "true" else "false"
    case Num(n) => if n < 0 then "-" + NatToDecimal(-n) else NatToDecimal(n)
    case Str(s) => s
    case Arr(items) =>
      // Array.prototype.join: null and undefined elements print as ""
      Join(seq(|items|, i requires 0 <= i < |items| =>
             if Nullish(items[i]) then "" else ToJsString(items[i])), ",")
    case Obj(_) => "[object Object]"
  }

  /** A non-empty string of ASCII letters; as a number it is NaN (or Infinity). */
  predicate IsWord(w: string) {
    |w| > 0 && forall i :: 0 <= i < |w| ==> ('a' <= w[i] <= 'z' || 'A' <= w[i] <= 'Z')
  }

  /**
   * `v == w` with JavaScript's loose equality, for a string literal `w` that
   * is a word: a string compares by content, an array or object by its string
   * conversion, a number or boolean numerically (never equal to a word) and
   * null or undefined only to each other.
   */
  function LooseEqualsWord(v: JsValue, w: string): (r: bool)
    requires IsWord(w)
    ensures v.Str? ==> (r <==> v.s == w)
    ensures Nullish(v) || v.Bool? || v.Num? ==> !r
  {
    match v
    case Str(s) => s == w
    case Arr(_) => ToJsString(v) == w
    case Obj(_) => ToJsString(v) == w
    case _ => false
  }

  /** ASCII lower-casing (`String.prototype.toLowerCase` on ASCII text). */
  function Lower(s: string): (r: string)
    ensures |r| == |s|
    ensures forall i :: 0 <= i < |s| ==> r[i] == (if 'A' <= s[i] <= 'Z' then (s[i] as int + 32) as char else s[i])
  {
    if |s| == 0 then ""
    else [if 'A' <= s[0] <= 'Z' then (s[0] as int + 32) as char else s[0]] + Lower(s[1..])
  }

  /** `s.includes(t)`. */
  predicate Contains(s: string, t: string)
    decreases |s|
  {
    if |t| > |s| then false
    else s[..|t|] == t || (|s| > 0 && Contains(s[1..], t))
  }

  /** `Contains` holds whenever `t` occurs at position `k` of `s`. */
  lemma {:induction false} ContainsAt(s: string, t: string, k: nat)
    requires k + |t| <= |s| && s[k..k + |t|] == t
    ensures Contains(s, t)
    decreases k
  {
    if k > 0 {
      assert s[1..][k - 1..k - 1 + |t|] == s[k..k + |t|];
      ContainsAt(s[1..], t, k - 1);
    }
  }

  /** `t` occurs in `s` at position `k`. */
  predicate OccursAt(s: string, t: string, k: nat) {
    k + |t| <= |s| && s[k..k + |t|] == t
  }

  /** `Contains` holds only when `t` occurs at some position of `s`. */
  lemma {:induction false} ContainsOccurrence(s: string, t: string)
    requires Contains(s, t)
    ensures exists k: nat :: OccursAt(s, t, k)
    decreases |s|
  {
    if s[..|t|] == t {
      assert OccursAt(s, t, 0);
    } else {
      var rest := s[1..];
      ContainsOccurrence(rest, t);
      var k: nat :| OccursAt(rest, t, k);
      assert rest[k..k + |t|] == s[k + 1..k + 1 + |t|];
      assert OccursAt(s, t, k + 1);
    }
  }

  /** A string that lacks the last character of `t` does not contain `t`. */
  lemma {:induction false} MissingLastChar(s: string, t: string)
    requires |t| > 0 && forall i :: 0 <= i < |s| ==> s[i] != t[|t| - 1]
    ensures !Contains(s, t)
    decreases |s|
  {
    if |t| <= |s| {
      assert s[..|t|][|t| - 1] != t[|t| - 1];
      if |s| > 0 {
        MissingLastChar(s[1..], t);
      }
    }
  }
}
