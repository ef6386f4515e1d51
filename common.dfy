/** Shared value types and string helpers used by every module of the model. */
module Common {

  datatype Option<T> = None | Some(value: T)

  /** The value of an optional field, or `d` when it is missing (Python `dict.get(key, d)`). */
  function GetOr<T>(o: Option<T>, d: T): T
  {
    if o.Some? then o.value else d
  }

  /** An optional string that Python would treat as true: present and non-empty. */
  predicate Truthy(o: Option<string>)
  {
    o.Some? && o.value != ""
  }

  /** An `HTTPException` raised by a FastAPI route: status code and detail text. */
  datatype HttpError = HttpError(code: int, detail: string)

  /** What the server answers when a route raises anything but an `HTTPException`. */
  const InternalServerError := HttpError(500, "Internal Server Error")

  /** The outcome of a route: its JSON payload or the exception it raises. */
  datatype Result<T> = Ok(value: T) | Err(error: HttpError)

  /** A JSON value, for the payloads the model stores and forwards without interpreting. */
  datatype Json =
    | JNull
    | JBool(b: bool)
    | JNum(n: real)
    | JStr(s: string)
    | JArr(items: seq<Json>)
    | JObj(fields: seq<(string, Json)>)

  // ---------------------------------------------------------------------------
  // Decimal rendering of numbers (Python `str(n)`, JavaScript template `${n}`)

  function DigitChar(d: nat): (c: char)
    requires d < 10
    ensures '0' <= c <= '9' && c as int - '0' as int == d
  {
    "0123456789"[d]
  }

  predicate IsDigit(c: char) { '0' <= c <= '9' }

  predicate AllDigits(s: string) { forall i :: 0 <= i < |s| ==> IsDigit(s[i]) }

  /** The decimal digits of `n`, most significant first, without leading zeros. */
  function NatToString(n: nat): (s: string)
    ensures |s| >= 1 && AllDigits(s)
    ensures n < 10 <==> |s| == 1
    ensures |s| > 1 ==> s[0] != '0'
    decreases n
  {
    if n < 10 then [DigitChar(n)] else NatToString(n / 10) + [DigitChar(n % 10)]
  }

  /** The number written by a string of decimal digits. */
  function ParseNat(s: string): nat
    requires AllDigits(s)
  {
    if s == [] then 0 else ParseNat(s[..|s| - 1]) * 10 + (s[|s| - 1] as int - '0' as int)
  }

  /** Reading back the decimal rendering of a number gives the number. */
  lemma {:induction false} ParseNatToString(n: nat)
    ensures ParseNat(NatToString(n)) == n
    decreases n
  {
    if n >= 10 {
      var s := NatToString(n);
      assert s[..|s| - 1] == NatToString(n / 10);
      ParseNatToString(n / 10);
    }
  }

  /** The decimal rendering of an integer, with a leading '-' when negative. */
  function IntToString(i: int): (s: string)
    ensures |s| >= 1
    ensures i >= 0 <==> s[0] != '-'
  {
    if i < 0 then "-" + NatToString(-i) else NatToString(i)
  }

  /** JavaScript `Math.round`: the nearest integer, halves rounded up. */
  function JsRound(x: real): (r: int)
    ensures r as real - 0.5 <= x < r as real + 0.5
  {
    (x + 0.5).Floor
  }

  // ---------------------------------------------------------------------------
  // Sequences of strings

  /** `sep.join(parts)` in Python, `parts.join(sep)` in JavaScript. */
  function Join(sep: string, parts: seq<string>): (r: string)
    ensures parts == [] ==> r == ""
    ensures |parts| == 1 ==> r == parts[0]
  {
    if parts == [] then ""
    else if |parts| == 1 then parts[0]
    else Join(sep, parts[..|parts| - 1]) + sep + parts[|parts| - 1]
  }

  /** The position of the last `c` in `s`, if any. */
  function LastIndex(s: string, c: char): (r: Option<nat>)
    ensures r.Some? ==> r.value < |s| && s[r.value] == c && forall j :: r.value < j < |s| ==> s[j] != c
    ensures r.None? ==> forall j :: 0 <= j < |s| ==> s[j] != c
  {
    if s == [] then None
    else if s[|s| - 1] == c then Some(|s| - 1)
    else LastIndex(s[..|s| - 1], c)
  }

  /** Python `s.split(c)` for a one-character separator: the pieces between the `c`s. */
  function Split(s: string, c: char): (r: seq<string>)
    ensures |r| >= 1
    decreases |s|
  {
    var k := LastIndex(s, c);
    if k.None? then [s] else Split(s[..k.value], c) + [s[k.value + 1..]]
  }

  /** Splitting a joined list of pieces that do not contain the separator gives the pieces back. */
  lemma {:induction false} SplitJoin(c: char, parts: seq<string>)
    requires |parts| >= 1 && forall i :: 0 <= i < |parts| ==> c !in parts[i]
    ensures Split(Join([c], parts), c) == parts
  {
    if |parts| == 1 {
      assert LastIndex(parts[0], c).None?;
    } else {
      var init := parts[..|parts| - 1];
      var last := parts[|parts| - 1];
      var a := Join([c], init);
      var s := Join([c], parts);
      assert s == a + [c] + last;
      var k := LastIndex(s, c);
      assert s[|a|] == c;
      assert forall j :: |a| < j < |s| ==> s[j] == last[j - |a| - 1];
      assert k == Some(|a|);
      assert s[..|a|] == a && s[|a| + 1..] == last;
      SplitJoin(c, init);
    }
  }

  /** A tail of a sequence stays a tail when elements are put in front. */
  lemma ShiftTail<T>(head: seq<T>, rest: seq<T>, d: nat)
    requires d <= |rest|
    ensures (head + rest)[|head| + d..] == rest[d..]
  {
  }

  /** An element of a tail is an element of the whole sequence, shifted. */
  lemma TailIndex<T>(s: seq<T>, tail: seq<T>, d: nat, k: nat)
    requires d <= |s| && s[d..] == tail && k < |tail|
    ensures d + k < |s| && s[d + k] == tail[k]
  {
  }

  /** Concatenation of a sequence of strings. */
  function Concat(parts: seq<string>): string
  {
    if parts == [] then "" else Concat(parts[..|parts| - 1]) + parts[|parts| - 1]
  }

  predicate EndsWith(s: string, suffix: string)
  {
    |suffix| <= |s| && s[|s| - |suffix|..] == suffix
  }

  // ---------------------------------------------------------------------------
  // ASCII letter case (Python `str.lower`/`str.upper` restricted to ASCII)

  function AsciiLower(c: char): (r: char)
    ensures 'A' <= c <= 'Z' ==> 'a' <= r <= 'z'
    ensures !('A' <= c <= 'Z') ==> r == c
  {
    if 'A' <= c <= 'Z' then (c as int + 32) as char else c
  }

  function AsciiUpper(c: char): (r: char)
    ensures 'a' <= c <= 'z' ==> 'A' <= r <= 'Z'
    ensures !('a' <= c <= 'z') ==> r == c
  {
    if 'a' <= c <= 'z' then (c as int - 32) as char else c
  }

  function Lower(s: string): (r: string)
    ensures |r| == |s| && forall i :: 0 <= i < |s| ==> r[i] == AsciiLower(s[i])
  {
    seq(|s|, i requires 0 <= i < |s| => AsciiLower(s[i]))
  }

  function Upper(s: string): (r: string)
    ensures |r| == |s| && forall i :: 0 <= i < |s| ==> r[i] == AsciiUpper(s[i])
  {
    seq(|s|, i requires 0 <= i < |s| => AsciiUpper(s[i]))
  }

  /** The JSON object field `key`, when present. */
  function Field(j: Json, key: string): Option<Json>
  {
    match j
    case JObj(fields) => FieldIn(fields, key)
    case _ => None
  }

  function FieldIn(fields: seq<(string, Json)>, key: string): Option<Json>
  {
    if fields == [] then None
    else if fields[0].0 == key then Some(fields[0].1)
    else FieldIn(fields[1..], key)
  }
}
