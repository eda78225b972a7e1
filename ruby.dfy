/** Ruby and JSON values as the chatbot engine sees them, with the few pieces of
    Ruby/ActiveSupport semantics the engine relies on: `dig`, `blank?`/`present?`,
    truthiness, string interpolation and `String#truncate`. */
module Ruby {

  datatype Option<+T> = None | Some(value: T)

  /** The exceptions the modelled code raises (`RecordInvalid` is what
      `update!` raises on a record that fails validation, `RecordNotFound` what
      `find` raises for a missing record; `NoMethodError` names the method the
      receiver does not define). */
  datatype RubyError =
    | NotImplementedError | ArgumentError | NameError(name: string) | NoMethodError(selector: string)
    | RecordInvalid | RecordNotFound

  datatype Result<+T> = Ok(value: T) | Raised(error: RubyError)

  /** A parsed JSON value; `Null` is Ruby's `nil`. Objects are string-keyed. */
  datatype Json =
    | Null
    | Bool(b: bool)
    | Num(n: int)
    | Str(s: string)
    | Arr(items: seq<Json>)
    | Obj(fields: map<string, Json>)

  /** One argument of `dig`: a hash key or an array index. */
  datatype Step = Key(k: string) | Index(i: nat)

  /** Path helpers, so that `dig("entry", 0, "id")` reads as `[K("entry"), I(0), K("id")]`. */
  function K(k: string): Step { Key(k) }
  function I(i: nat): Step { Index(i) }

  /** `obj[step]`: a missing key or an index past the end gives `nil`.
      The combinations for which Ruby raises are excluded by `Diggable`. */
  function At(j: Json, step: Step): Json
  {
    match (j, step)
    case (Obj(m), Key(k)) => if k in m then m[k] else Null
    case (Arr(xs), Index(i)) => if i < |xs| then xs[i] else Null
    case _ => Null
  }

  /** The value of `j.dig(*path)`, where it is defined. */
  function Dig(j: Json, path: seq<Step>): Json
    decreases |path|
  {
    if |path| == 0 then j else Dig(At(j, path[0]), path[1..])
  }

  predicate Container(j: Json) { j.Obj? || j.Arr? }

  /** `j.dig(*path)` returns without raising: every receiver responds to `dig`
      (a hash or an array, so not nil, false, a number or a string) and no array
      is indexed by a string key. A nil intermediate stops the walk with nil. */
  predicate Diggable(j: Json, path: seq<Step>)
    decreases |path|
  {
    |path| == 0 ||
    (Container(j) && !(j.Arr? && path[0].Key?) &&
     var v := At(j, path[0]);
     v == Null || |path| == 1 || Diggable(v, path[1..]))
  }

  /** `dig` over a concatenated path is `dig` of `dig`. */
  lemma {:induction false} DigAppend(j: Json, p: seq<Step>, q: seq<Step>)
    ensures Dig(j, p + q) == Dig(Dig(j, p), q)
    decreases |p|
  {
    if |p| == 0 {
      assert p + q == q;
    } else {
      assert (p + q)[0] == p[0];
      assert (p + q)[1..] == p[1..] + q;
      DigAppend(At(j, p[0]), p[1..], q);
    }
  }

  /** Nothing can be dug out of nil. */
  lemma {:induction false} DigNull(path: seq<Step>)
    ensures Dig(Null, path) == Null
    decreases |path|
  {
    if |path| > 0 {
      DigNull(path[1..]);
    }
  }

  /** Characters of Unicode's White_Space property, which ActiveSupport's
      `String#blank?` (`/\A[[:space:]]*\z/`) treats as blank. */
  predicate IsSpace(c: char)
  {
    ('\U{9}' <= c <= '\U{D}') || c == ' ' || c == '\U{85}' || c == '\U{A0}' ||
    c == '\U{1680}' || ('\U{2000}' <= c <= '\U{200A}') || c == '\U{2028}' ||
    c == '\U{2029}' || c == '\U{202F}' || c == '\U{205F}' || c == '\U{3000}'
  }

  predicate BlankString(s: string)
  {
    forall i :: 0 <= i < |s| ==> IsSpace(s[i])
  }

  /** ActiveSupport's `blank?`: nil, false, whitespace-only strings, empty arrays and
      empty hashes are blank; numbers and `true` never are. */
  predicate Blank(j: Json)
  {
    match j
    case Null => true
    case Bool(b) => !b
    case Num(_) => false
    case Str(s) => BlankString(s)
    case Arr(xs) => |xs| == 0
    case Obj(m) => |m| == 0
  }

  predicate Present(j: Json) { !Blank(j) }

  /** `presence`: the value itself when present, nil otherwise. */
  function Presence(j: Json): (r: Json)
    ensures Present(j) ==> r == j
    ensures Blank(j) ==> r == Null
  {
    if Present(j) then j else Null
  }

  /** Ruby truthiness, as used by `||`, `||=` and `return unless`. */
  predicate Truthy(j: Json) { j != Null && j != Bool(false) }

  lemma PresentIsTruthy(j: Json)
    ensures Present(j) ==> Truthy(j)
  {
  }

  function DigitChar(d: nat): char
    requires d < 10
  {
    "0123456789"[d]
  }

  /** Decimal rendering of a natural number, as `Integer#to_s`. */
  function NatToString(n: nat): (r: string)
    ensures |r| >= 1
    ensures forall i :: 0 <= i < |r| ==> '0' <= r[i] <= '9'
    decreases n
  {
    if n < 10 then [DigitChar(n)] else NatToString(n / 10) + [DigitChar(n % 10)]
  }

  function IntToString(n: int): string
  {
    if n < 0 then "-" + NatToString(-n) else NatToString(n)
  }

  /** The text `"#{j}"` inserts for a scalar value; nil interpolates as "". */
  function ToS(j: Json): string
  {
    match j
    case Null => ""
    case Bool(b) => if b then "true" else "false"
    case Num(n) => IntToString(n)
    case Str(s) => s
    case Arr(_) => ""
    case Obj(_) => ""
  }

  /** ActiveSupport's `String#truncate(n)` with the default omission "...":
      a string longer than `n` keeps its first `n - 3` characters and gains "...". */
  function Truncate(s: string, n: nat): (r: string)
    requires n >= 3
    ensures |r| <= n
    ensures |s| <= n ==> r == s
  {
    if |s| <= n then s else s[..n - 3] + "..."
  }

  /** A truncated string has exactly `n` characters: the first `n - 3` of the
      original, then the omission. */
  lemma TruncateLong(s: string, n: nat)
    requires n >= 3 && |s| > n
    ensures |Truncate(s, n)| == n
    ensures Truncate(s, n)[..n - 3] == s[..n - 3] && Truncate(s, n)[n - 3..] == "..."
  {
  }
}
