/** JavaScript value semantics the import page relies on: optional (undefined or
    null) values, falsy-coalescing `||`, template-literal rendering and
    `String.prototype.trim`. */
module Js {

  /** An optional value: `None` stands for both `undefined` and `null`. */
  datatype Option<+T> = None | Some(value: T)

  /** JavaScript truthiness of an optional value whose type has exactly one
      falsy inhabitant `zero` (0 for numbers, "" for strings). */
  predicate Truthy<T(==)>(v: Option<T>, zero: T) {
    v.Some? && v.value != zero
  }

  /** `v || fallback`: the value itself when truthy, otherwise the fallback. */
  function OrElse<T(==)>(v: Option<T>, zero: T, fallback: T): (r: T)
    ensures Truthy(v, zero) ==> r == v.value
    ensures !Truthy(v, zero) ==> r == fallback
    ensures fallback != zero ==> r != zero
  {
    if Truthy(v, zero) then v.value else fallback
  }

  /** `v || null`: never stores a falsy value, and keeps every truthy one. */
  function OrNull<T(==)>(v: Option<T>, zero: T): (r: Option<T>)
    ensures r.Some? <==> Truthy(v, zero)
    ensures r.Some? ==> r == v && r.value != zero
  {
    if Truthy(v, zero) then v else None
  }

  /** A property that a template literal reads directly, where a missing
      property and a JSON `null` render differently. */
  datatype Property<+T> = Missing | Null | Present(value: T)

  /** `${v}` for a string-valued property: a missing one renders as
      "undefined", a null one as "null". */
  function Template(v: Property<string>): (r: string)
    ensures v.Present? ==> r == v.value
    ensures v.Missing? ==> r == "undefined"
    ensures v.Null? ==> r == "null"
  {
    match v
    case Present(s) => s
    case Missing => "undefined"
    case Null => "null"
  }

  /** The characters `trim` removes: ECMAScript WhiteSpace and LineTerminator. */
  predicate IsWhitespace(c: char) {
    var n := c as int;
    || n == 0x09 || n == 0x0A || n == 0x0B || n == 0x0C || n == 0x0D
    || n == 0x20 || n == 0xA0 || n == 0x1680
    || (0x2000 <= n <= 0x200A)
    || n == 0x2028 || n == 0x2029 || n == 0x202F || n == 0x205F
    || n == 0x3000 || n == 0xFEFF
  }

  /** Length of the longest all-whitespace prefix of `s`. */
  function LeadingWhitespace(s: string): (k: nat)
    ensures k <= |s|
    ensures forall i :: 0 <= i < k ==> IsWhitespace(s[i])
    ensures k == |s| || !IsWhitespace(s[k])
    decreases |s|
  {
    if |s| > 0 && IsWhitespace(s[0]) then 1 + LeadingWhitespace(s[1..]) else 0
  }

  /** Length of the longest all-whitespace suffix of `s`. */
  function TrailingWhitespace(s: string): (k: nat)
    ensures k <= |s|
    ensures forall i :: |s| - k <= i < |s| ==> IsWhitespace(s[i])
    ensures k == |s| || !IsWhitespace(s[|s| - k - 1])
    decreases |s|
  {
    if |s| > 0 && IsWhitespace(s[|s| - 1]) then 1 + TrailingWhitespace(s[..|s| - 1]) else 0
  }

  /** `s.trim()`: the part of `s` between its first and last non-whitespace
      characters. Only whitespace is removed, from either end, and an already
      trimmed string comes back unchanged. */
  function Trim(s: string): (r: string)
    ensures |r| <= |s|
    ensures r == [] || (!IsWhitespace(r[0]) && !IsWhitespace(r[|r| - 1]))
    ensures (s == [] || (!IsWhitespace(s[0]) && !IsWhitespace(s[|s| - 1]))) ==> r == s
  {
    var t := s[LeadingWhitespace(s)..];
    t[..|t| - TrailingWhitespace(t)]
  }

  /** `trim` strips a whitespace prefix and a whitespace suffix and keeps
      the middle of `s` as it is. */
  lemma TrimStripsWhitespaceOnly(s: string)
    ensures var a := LeadingWhitespace(s);
            var r := Trim(s);
            && a + |r| <= |s|
            && r == s[a..a + |r|]
            && (forall i :: 0 <= i < a ==> IsWhitespace(s[i]))
            && (forall i :: a + |r| <= i < |s| ==> IsWhitespace(s[i]))
  {
    var a := LeadingWhitespace(s);
    var t := s[a..];
    var b := TrailingWhitespace(t);
    assert Trim(s) == t[..|t| - b];
    assert t[..|t| - b] == s[a..a + (|t| - b)];
    forall i | a + (|t| - b) <= i < |s| ensures IsWhitespace(s[i]) {
      assert s[i] == t[i - a];
    }
  }

  /** `trim` removes nothing but whitespace: every other character of `s`
      survives in the result. */
  lemma TrimKeepsNonWhitespace(s: string, i: nat)
    requires i < |s| && !IsWhitespace(s[i])
    ensures s[i] in Trim(s)
  {
    var a := LeadingWhitespace(s);
    var t := s[a..];
    var r := t[..|t| - TrailingWhitespace(t)];
    assert a <= i;
    assert i - a < |r| && r[i - a] == s[i];
  }
}
