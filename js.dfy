/**
 * JavaScript value and string semantics shared by the stores, components and
 * pages: `Option`/`Result`, the whitespace class of `\s` and `trim`, ASCII case
 * mapping, `includes`, `split`/`join`, `slice` with negative indexes, decimal
 * `toString`, integer `Number()`, `Math.round` of a ratio, and a small value
 * type with truthiness, strict equality, `String()` and `<`.
 */
module Js {

  datatype Option<T> = None | Some(value: T)

  /** A completed call or the message of the `Error` it threw. */
  datatype Result<T> = Ok(value: T) | Err(message: string)

  /** One property of a spread patch `{...old, ...patch}`: left as it was, or set. */
  datatype Field<T> = Keep | Set(value: T)

  function Apply<T>(f: Field<T>, prev: T): (r: T)
    ensures f.Keep? ==> r == prev
    ensures f.Set? ==> r == f.value
  {
    if f.Set? then f.value else prev
  }

  /** `a || b` for an optional string: undefined and '' fall back to `b`. */
  function StrOr(a: Option<string>, b: string): (r: string)
    ensures a.Some? && a.value != "" ==> r == a.value
    ensures a.None? || a.value == "" ==> r == b
  {
    if a.Some? && a.value != "" then a.value else b
  }

  // ---------------------------------------------------------------- characters

  /** The characters matched by the regular-expression class `\s`; `trim` removes the same set. */
  predicate IsSpace(c: char)
  {
    c in SpaceChars
  }

  const SpaceChars: set<char> := {
    '\t', '\n', '\U{0B}', '\U{0C}', '\r', ' ', '\U{A0}', '\U{1680}',
    '\U{2000}', '\U{2001}', '\U{2002}', '\U{2003}', '\U{2004}', '\U{2005}',
    '\U{2006}', '\U{2007}', '\U{2008}', '\U{2009}', '\U{200A}',
    '\U{2028}', '\U{2029}', '\U{202F}', '\U{205F}', '\U{3000}', '\U{FEFF}'}

  /** The characters the regular-expression `.` does not match. */
  predicate IsLineTerminator(c: char)
  {
    c == '\n' || c == '\r' || c == '\U{2028}' || c == '\U{2029}'
  }

  predicate IsDigit(c: char) { '0' <= c <= '9' }
  predicate IsLowerAscii(c: char) { 'a' <= c <= 'z' }
  predicate IsUpperAscii(c: char) { 'A' <= c <= 'Z' }
  predicate IsAsciiLetter(c: char) { IsLowerAscii(c) || IsUpperAscii(c) }

  function LowerChar(c: char): (r: char)
    ensures !IsUpperAscii(r)
    ensures IsUpperAscii(c) || r == c
  {
    if IsUpperAscii(c) then (c as int + 32) as char else c
  }

  function UpperChar(c: char): (r: char)
    ensures !IsLowerAscii(r)
    ensures IsLowerAscii(c) || r == c
  {
    if IsLowerAscii(c) then (c as int - 32) as char else c
  }

  /** `toLowerCase`, on the ASCII range. */
  function Lower(s: string): (r: string)
    ensures |r| == |s|
    ensures forall i :: 0 <= i < |s| ==> r[i] == LowerChar(s[i])
  {
    seq(|s|, i requires 0 <= i < |s| => LowerChar(s[i]))
  }

  /** `toUpperCase`, on the ASCII range. */
  function Upper(s: string): (r: string)
    ensures |r| == |s|
    ensures forall i :: 0 <= i < |s| ==> r[i] == UpperChar(s[i])
  {
    seq(|s|, i requires 0 <= i < |s| => UpperChar(s[i]))
  }

  lemma LowerOfLower(s: string)
    ensures Lower(Lower(s)) == Lower(s)
  {
  }

  // ------------------------------------------------------------------ trimming

  function TrimStart(s: string): (r: string)
    ensures |r| <= |s| && r == s[|s| - |r|..]
    ensures r == [] || !IsSpace(r[0])
    ensures forall i :: 0 <= i < |s| - |r| ==> IsSpace(s[i])
  {
    if s != [] && IsSpace(s[0]) then TrimStart(s[1..]) else s
  }

  function TrimEnd(s: string): (r: string)
    ensures |r| <= |s| && r == s[..|r|]
    ensures r == [] || !IsSpace(r[|r| - 1])
    ensures forall i :: |r| <= i < |s| ==> IsSpace(s[i])
  {
    if s != [] && IsSpace(s[|s| - 1]) then TrimEnd(s[..|s| - 1]) else s
  }

  /** `String.prototype.trim`. */
  function Trim(s: string): string
  {
    TrimEnd(TrimStart(s))
  }

  /** Only whitespace: the strings that `trim` turns into '' (`BlankIffTrimEmpty`). */
  predicate IsBlank(s: string)
  {
    forall i :: 0 <= i < |s| ==> IsSpace(s[i])
  }

  lemma {:induction false} BlankIffTrimEmpty(s: string)
    ensures IsBlank(s) <==> Trim(s) == ""
  {
    var t := TrimStart(s);
    if !forall i :: 0 <= i < |s| ==> IsSpace(s[i]) {
      var k :| 0 <= k < |s| && !IsSpace(s[k]);
      assert t[k - (|s| - |t|)] == s[k];
    }
  }

  lemma TrimNoSpace(s: string)
    requires forall i :: 0 <= i < |s| ==> !IsSpace(s[i])
    ensures Trim(s) == s
  {
  }

  lemma TrimNumeral(s: string)
    requires s != [] && (IsDigit(s[0]) || s[0] == '-') && AllDigits(s[1..])
    ensures Trim(s) == s
  {
    forall i | 0 <= i < |s| ensures !IsSpace(s[i]) {
      if i > 0 {
        assert IsDigit(s[1..][i - 1]);
      }
    }
    TrimNoSpace(s);
  }

  // ----------------------------------------------------------------- substrings

  /** `t` occurs in `s` starting at index `i`. */
  predicate OccursAt(s: string, t: string, i: nat)
  {
    i + |t| <= |s| && s[i..i + |t|] == t
  }

  /** `s.includes(t)`. */
  predicate Includes(s: string, t: string)
  {
    exists i: nat | i <= |s| :: OccursAt(s, t, i)
  }

  /** `s.startsWith(p)`. */
  predicate StartsWith(s: string, p: string)
  {
    |p| <= |s| && s[..|p|] == p
  }

  lemma IncludesEmpty(s: string)
    ensures Includes(s, "")
  {
    assert OccursAt(s, "", 0);
  }

  lemma IncludesSelf(s: string)
    ensures Includes(s, s)
  {
    assert OccursAt(s, s, 0);
  }

  // ------------------------------------------------------------ split and join

  /** `s.split(sep)` for a one-character separator: empty parts are kept. */
  function Split(s: string, sep: char): (parts: seq<string>)
    ensures |parts| >= 1
    ensures forall k :: 0 <= k < |parts| ==> sep !in parts[k]
  {
    if s == [] then [""]
    else
      var rest := Split(s[1..], sep);
      if s[0] == sep then [""] + rest else [[s[0]] + rest[0]] + rest[1..]
  }

  /** `parts.join(sep)`. */
  function Join(parts: seq<string>, sep: string): string
  {
    if |parts| == 0 then ""
    else if |parts| == 1 then parts[0]
    else parts[0] + sep + Join(parts[1..], sep)
  }

  /** Splitting on a character and joining on it again gives the original string. */
  lemma {:induction false} JoinSplit(s: string, sep: char)
    ensures Join(Split(s, sep), [sep]) == s
  {
    if s != [] {
      JoinSplit(s[1..], sep);
      var rest := Split(s[1..], sep);
      if s[0] == sep {
        assert Split(s, sep) == [""] + rest;
        assert ([""] + rest)[1..] == rest;
      } else {
        var parts := [[s[0]] + rest[0]] + rest[1..];
        assert Split(s, sep) == parts;
        if |rest| == 1 {
          assert rest[0] == s[1..];
        } else {
          assert parts[1..] == rest[1..];
          assert Join(rest, [sep]) == rest[0] + [sep] + Join(rest[1..], [sep]);
        }
      }
    }
  }

  lemma {:induction false} SplitNoSeparator(a: string, sep: char)
    requires sep !in a
    ensures Split(a, sep) == [a]
  {
    if a != [] {
      SplitNoSeparator(a[1..], sep);
      assert [a[0]] + a[1..] == a;
    }
  }

  lemma {:induction false} SplitAfterPart(a: string, sep: char, rest: string)
    requires sep !in a
    ensures Split(a + [sep] + rest, sep) == [a] + Split(rest, sep)
  {
    if a == [] {
      assert a + [sep] + rest == [sep] + rest;
      assert ([sep] + rest)[1..] == rest;
    } else {
      SplitAfterPart(a[1..], sep, rest);
      assert (a + [sep] + rest)[1..] == a[1..] + [sep] + rest;
      assert [a[0]] + a[1..] == a;
    }
  }

  /** Joining parts that do not contain the separator and splitting again gives the parts back. */
  lemma {:induction false} SplitJoin(parts: seq<string>, sep: char)
    requires |parts| >= 1
    requires forall k :: 0 <= k < |parts| ==> sep !in parts[k]
    ensures Split(Join(parts, [sep]), sep) == parts
  {
    if |parts| == 1 {
      SplitNoSeparator(parts[0], sep);
    } else {
      SplitJoin(parts[1..], sep);
      SplitAfterPart(parts[0], sep, Join(parts[1..], [sep]));
      assert [parts[0]] + parts[1..] == parts;
    }
  }

  /** The number of separators in `s` is one less than the number of parts. */
  lemma {:induction false} SplitCount(s: string, sep: char)
    ensures |Split(s, sep)| == multiset(s)[sep] + 1
  {
    if s != [] {
      SplitCount(s[1..], sep);
      assert s == [s[0]] + s[1..];
      assert multiset(s) == multiset([s[0]]) + multiset(s[1..]);
    }
  }

  // ------------------------------------------------------------------- slicing

  /** The index `Array.prototype.slice` derives from a possibly negative argument. */
  function SliceIndex(i: int, len: nat): (r: nat)
    ensures r <= len
    ensures 0 <= i <= len ==> r == i
    ensures i > len ==> r == len
    ensures i < 0 ==> r == if len + i < 0 then 0 else len + i
  {
    if i < 0 then (if len + i < 0 then 0 else len + i) else if i > len then len else i
  }

  /** `s.slice(start, end)`. */
  function Slice<T>(s: seq<T>, start: int, end: int): (r: seq<T>)
    ensures |r| <= |s|
  {
    var from, to := SliceIndex(start, |s|), SliceIndex(end, |s|);
    if from < to then s[from..to] else []
  }

  /** `s.slice(0, n)` keeps the first n items (all of them when n exceeds the length). */
  lemma SliceFirst<T>(s: seq<T>, n: nat)
    ensures Slice(s, 0, n) == if n <= |s| then s[..n] else s
  {
  }

  /** `s.slice(a, a + k)` holds at most k items. */
  lemma SliceWindow<T>(s: seq<T>, a: nat, k: nat)
    ensures |Slice(s, a, a + k)| <= k
    ensures a + k <= |s| ==> Slice(s, a, a + k) == s[a..a + k]
    ensures a < |s| < a + k ==> Slice(s, a, a + k) == s[a..]
    ensures |s| <= a ==> Slice(s, a, a + k) == []
  {
  }

  // ----------------------------------------------------------- decimal numbers

  function DigitChar(d: nat): (c: char)
    requires d < 10
    ensures IsDigit(c)
  {
    ('0' as int + d) as char
  }

  function DigitValue(c: char): (d: nat)
    requires IsDigit(c)
    ensures d < 10 && DigitChar(d) == c
  {
    c as int - '0' as int
  }

  predicate AllDigits(s: string)
  {
    forall i :: 0 <= i < |s| ==> IsDigit(s[i])
  }

  /** The decimal text of a natural number, as `n.toString()` gives it. */
  function NatToString(n: nat): (s: string)
    ensures |s| >= 1 && AllDigits(s)
    ensures s[0] == '0' ==> n == 0
  {
    if n < 10 then [DigitChar(n)] else NatToString(n / 10) + [DigitChar(n % 10)]
  }

  /** `String(i)` for an integer. */
  function IntToString(i: int): (s: string)
    ensures |s| >= 1
    ensures i >= 0 ==> AllDigits(s)
    ensures i < 0 ==> s[0] == '-' && AllDigits(s[1..])
  {
    if i < 0 then "-" + NatToString(-i) else NatToString(i)
  }

  /** The value of a string of decimal digits. */
  function DigitsValue(s: string): nat
    requires AllDigits(s)
  {
    if s == [] then 0 else 10 * DigitsValue(s[..|s| - 1]) + DigitValue(s[|s| - 1])
  }

  lemma {:induction false} DigitsOfNat(n: nat)
    ensures DigitsValue(NatToString(n)) == n
  {
    if n >= 10 {
      DigitsOfNat(n / 10);
      var s := NatToString(n);
      assert s[..|s| - 1] == NatToString(n / 10);
    }
  }

  /**
   * `Number(s)` for a string, on integers: surrounding whitespace is ignored, ''
   * is 0, and an optional sign followed by decimal digits is that integer.
   * Every other text is NaN (`None`).
   */
  function StringToNumber(s: string): (r: Option<int>)
    ensures AllDigits(Trim(s)) ==> r.Some?
  {
    var t := Trim(s);
    if t == "" then Some(0)
    else if AllDigits(t) then Some(DigitsValue(t))
    else if t[0] == '-' && |t| > 1 && AllDigits(t[1..]) then Some(0 - DigitsValue(t[1..]))
    else if t[0] == '+' && |t| > 1 && AllDigits(t[1..]) then Some(DigitsValue(t[1..]))
    else None
  }

  /** `Number(String(i)) === i`. */
  lemma NumberOfString(i: int)
    ensures StringToNumber(IntToString(i)) == Some(i)
  {
    if i < 0 {
      var m: nat := -i;
      var s := IntToString(i);
      assert s[1..] == NatToString(m);
      TrimNumeral(s);
      DigitsOfNat(m);
      assert !IsDigit(s[0]);
    } else {
      var s := NatToString(i);
      assert s[1..] == s[1..] && AllDigits(s[1..]) by {
        forall k | 0 <= k < |s| - 1 ensures IsDigit(s[1..][k]) { assert s[1..][k] == s[k + 1]; }
      }
      TrimNumeral(s);
      DigitsOfNat(i);
    }
  }

  // ------------------------------------------------------------------ rounding

  /** `Math.round(a / b)` for integers a and b > 0: the nearest integer, halves rounded up. */
  function RoundDiv(a: int, b: int): (r: int)
    requires b > 0
    ensures 2 * b * r - b <= 2 * a < 2 * b * r + b
  {
    (2 * a + b) / (2 * b)
  }

  lemma MulCancel(t: int, x: int, y: int)
    requires t > 0
    ensures t * x <= t * y ==> x <= y
    ensures t * x < t * y ==> x < y
  {
  }

  /** `Math.round(v / total * 100)`. */
  function Percent(v: int, total: int): (r: int)
    requires total > 0
    ensures 0 <= v <= total ==> 0 <= r <= 100
    ensures v == total ==> r == 100
    ensures v == 0 ==> r == 0
  {
    var r := RoundDiv(100 * v, total);
    PercentBounds(v, total, r);
    r
  }

  lemma PercentBounds(v: int, t: int, r: int)
    requires t > 0 && 2 * t * r - t <= 200 * v < 2 * t * r + t
    ensures 0 <= v <= t ==> 0 <= r <= 100
    ensures v == t ==> r == 100
    ensures v == 0 ==> r == 0
  {
    assert t * (2 * r - 1) == 2 * t * r - t;
    assert t * (2 * r + 1) == 2 * t * r + t;
    assert t * 0 == 0 && t * 200 == 200 * t;
    MulCancel(t, 2 * r - 1, 200);
    MulCancel(t, 0, 2 * r + 1);
    MulCancel(t, 200, 2 * r + 1);
    MulCancel(t, 2 * r - 1, 0);
  }

  // -------------------------------------------------------------------- values

  /**
   * A JavaScript value as the components see it. Arrays and objects carry the
   * identity (`ref`) that `===` compares; numbers are integers.
   */
  datatype JsValue =
    | Undefined
    | Null
    | Bool(b: bool)
    | Num(n: int)
    | Str(s: string)
    | Arr(ref: nat, items: seq<JsValue>)
    | Obj(ref: nat, props: seq<Prop>)

  datatype Prop = Prop(key: string, value: JsValue)

  predicate IsNullish(v: JsValue)
  {
    v.Undefined? || v.Null?
  }

  /** `Boolean(v)`. */
  predicate Truthy(v: JsValue)
  {
    match v
    case Undefined => false
    case Null => false
    case Bool(b) => b
    case Num(n) => n != 0
    case Str(s) => s != ""
    case Arr(_, _) => true
    case Obj(_, _) => true
  }

  /** `o[key]`: the value of the first property with that key, or undefined. */
  function Get(props: seq<Prop>, key: string): (v: JsValue)
    ensures v != Undefined ==> exists i :: 0 <= i < |props| && props[i] == Prop(key, v)
  {
    if props == [] then Undefined
    else if props[0].key == key then props[0].value
    else Get(props[1..], key)
  }

  /** `a === b`: primitives by value, arrays and objects by identity. */
  predicate StrictEquals(a: JsValue, b: JsValue)
  {
    match (a, b)
    case (Undefined, Undefined) => true
    case (Null, Null) => true
    case (Bool(x), Bool(y)) => x == y
    case (Num(x), Num(y)) => x == y
    case (Str(x), Str(y)) => x == y
    case (Arr(r, _), Arr(q, _)) => r == q
    case (Obj(r, _), Obj(q, _)) => r == q
    case _ => false
  }

  lemma StrictEqualsLaws(a: JsValue, b: JsValue)
    ensures StrictEquals(a, a)
    ensures StrictEquals(a, b) == StrictEquals(b, a)
    ensures !a.Arr? && !a.Obj? ==> (StrictEquals(a, b) <==> a == b)
  {
  }

  /** `String(v)`; an array is its elements joined by ',' with null and undefined as ''. */
  function ToString(v: JsValue): string
  {
    match v
    case Undefined => "undefined"
    case Null => "null"
    case Bool(b) => if b then "true" else "false"
    case Num(n) => IntToString(n)
    case Str(s) => s
    case Arr(_, items) =>
      Join(seq(|items|, i requires 0 <= i < |items| =>
        if IsNullish(items[i]) then "" else ToString(items[i])), ",")
    case Obj(_, _) => "[object Object]"
  }

  /** `Number(v)`, with NaN as `None`. */
  function ToNumber(v: JsValue): Option<int>
  {
    match v
    case Undefined => None
    case Null => Some(0)
    case Bool(b) => Some(if b then 1 else 0)
    case Num(n) => Some(n)
    case Str(s) => StringToNumber(s)
    case Arr(_, _) => StringToNumber(ToString(v))
    case Obj(_, _) => None
  }

  /** Scalar-value order of strings, standing for `<` on two strings. */
  predicate StringLess(a: string, b: string)
  {
    if a == [] then b != []
    else if b == [] then false
    else if a[0] != b[0] then a[0] < b[0]
    else StringLess(a[1..], b[1..])
  }

  /** String `<` is a strict total order: irreflexive, asymmetric and connected. */
  lemma {:induction false} StringLessStrict(a: string, b: string)
    ensures !StringLess(a, a)
    ensures !(StringLess(a, b) && StringLess(b, a))
    ensures a != b ==> StringLess(a, b) || StringLess(b, a)
  {
    if a != [] {
      StringLessStrict(a[1..], a[1..]);
    }
    if a != [] && b != [] && a[0] == b[0] {
      StringLessStrict(a[1..], b[1..]);
      if a != b {
        assert a == [a[0]] + a[1..] && b == [b[0]] + b[1..];
      }
    }
  }

  /** The primitive `<` converts an array or object to first. */
  function ToPrimitive(v: JsValue): (p: JsValue)
    ensures !p.Arr? && !p.Obj?
  {
    match v
    case Arr(_, _) => Str(ToString(v))
    case Obj(_, _) => Str("[object Object]")
    case _ => v
  }

  /** `a < b`: strings by scalar value, anything else numerically, NaN never less. */
  predicate LessThan(a: JsValue, b: JsValue)
  {
    var pa, pb := ToPrimitive(a), ToPrimitive(b);
    if pa.Str? && pb.Str? then StringLess(pa.s, pb.s)
    else
      var na, nb := ToNumber(pa), ToNumber(pb);
      na.Some? && nb.Some? && na.value < nb.value
  }

  /** `a < b` and `b < a` never both hold, and nothing is below itself. */
  lemma LessThanAsymmetric(a: JsValue, b: JsValue)
    ensures !(LessThan(a, b) && LessThan(b, a))
    ensures !LessThan(a, a)
  {
    var pa, pb := ToPrimitive(a), ToPrimitive(b);
    if pa.Str? && pb.Str? {
      StringLessStrict(pa.s, pb.s);
    }
    if pa.Str? {
      StringLessStrict(pa.s, pa.s);
    }
  }

  /**
   * What a number input holds: a number until the user edits it, then the
   * input's text, which comparisons convert back with `Number`.
   */
  datatype Entry = Number(n: int) | Text(s: string)

  /** `Number(entry)`, with NaN as `None`. */
  function EntryValue(e: Entry): (r: Option<int>)
    ensures e.Number? ==> r == Some(e.n)
    ensures e.Text? ==> r == StringToNumber(e.s)
  {
    match e
    case Number(n) => Some(n)
    case Text(s) => StringToNumber(s)
  }

  /** `x < bound` when x may be text: NaN compares false. */
  predicate EntryBelow(e: Entry, bound: int)
  {
    EntryValue(e).Some? && EntryValue(e).value < bound
  }

  predicate EntryAbove(e: Entry, bound: int)
  {
    EntryValue(e).Some? && EntryValue(e).value > bound
  }
}
