/** Character and string helpers shared by the models: ASCII case mapping
    (Swift's `lowercased()` on the ASCII range), substring search, PHP's
    `trim`, lexicographic order and decimal conversion. */
module Text {
  import opened Wrappers

  // ---------------------------------------------------------------- case

  predicate IsUpper(c: char) { 'A' <= c <= 'Z' }

  function Lower(c: char): (r: char)
    ensures !IsUpper(r)
    ensures !IsUpper(c) ==> r == c
  {
    if IsUpper(c) then (c as int + 32) as char else c
  }

  function LowerStr(s: string): (r: string)
    ensures |r| == |s|
    ensures forall i :: 0 <= i < |s| ==> r[i] == Lower(s[i])
  {
    seq(|s|, i requires 0 <= i < |s| => Lower(s[i]))
  }

  predicate IsLower(c: char) { 'a' <= c <= 'z' }

  function Upper(c: char): (r: char)
    ensures !IsLower(r)
    ensures !IsLower(c) ==> r == c
  {
    if IsLower(c) then (c as int - 32) as char else c
  }

  function UpperStr(s: string): string {
    if s == [] then [] else UpperStr(s[..|s| - 1]) + [Upper(s[|s| - 1])]
  }

  /** Upper-casing maps each character and keeps the length. */
  lemma {:induction false} UpperStrSpec(s: string)
    ensures |UpperStr(s)| == |s|
    ensures forall i :: 0 <= i < |s| ==> UpperStr(s)[i] == Upper(s[i])
    decreases |s|
  {
    if s != [] {
      UpperStrSpec(s[..|s| - 1]);
    }
  }

  /** Lower-casing twice is lower-casing once. */
  lemma LowerStrIdempotent(s: string)
    ensures LowerStr(LowerStr(s)) == LowerStr(s)
  {
  }

  /** A string without upper-case letters is its own lower-case form. */
  lemma LowerStrOfLower(s: string)
    requires forall i :: 0 <= i < |s| ==> !IsUpper(s[i])
    ensures LowerStr(s) == s
  {
  }

  // --------------------------------------------------------- concatenation

  /** The texts of the elements of `s`, one after the other. */
  function Concat<T>(s: seq<T>, f: T -> string): string
  {
    if s == [] then "" else Concat(s[..|s| - 1], f) + f(s[|s| - 1])
  }

  lemma {:induction false} ConcatAppend<T>(a: seq<T>, b: seq<T>, f: T -> string)
    ensures Concat(a + b, f) == Concat(a, f) + Concat(b, f)
    decreases |b|
  {
    if b == [] {
      assert a + b == a;
    } else {
      var b' := b[..|b| - 1];
      assert (a + b)[..|a + b| - 1] == a + b';
      ConcatAppend(a, b', f);
    }
  }

  lemma ConcatSnoc<T>(a: seq<T>, x: T, f: T -> string)
    ensures Concat(a + [x], f) == Concat(a, f) + f(x)
  {
    assert (a + [x])[..|a|] == a;
  }

  lemma ConcatSingle<T>(x: T, f: T -> string)
    ensures Concat([x], f) == f(x)
  {
    assert [x][..0] == [];
  }

  /** One more element appended after a prefix text: the step of every loop
      that prints a list of elements. */
  lemma ConcatStep<T>(head: string, a: seq<T>, x: T, f: T -> string)
    ensures head + Concat(a, f) + f(x) == head + Concat(a + [x], f)
  {
    ConcatSnoc(a, x, f);
    assert head + Concat(a, f) + f(x) == head + (Concat(a, f) + f(x));
  }

  /** The same step, for the elements of `s` printed one index at a time. */
  lemma ConcatPrefixStep<T>(head: string, s: seq<T>, n: nat, f: T -> string)
    requires n < |s|
    ensures head + Concat(s[..n], f) + f(s[n]) == head + Concat(s[..n + 1], f)
  {
    assert s[..n + 1] == s[..n] + [s[n]];
    ConcatStep(head, s[..n], s[n], f);
  }

  // ------------------------------------------------------------ substring

  /** Swift's `contains` on strings: `needle` occurs somewhere in `hay`.
      The empty needle occurs everywhere. */
  function Contains(hay: string, needle: string): (r: bool)
    ensures r <==> exists i :: 0 <= i <= |hay| && needle <= hay[i..]
    decreases |hay|
  {
    if needle <= hay then
      assert needle <= hay[0..];
      true
    else if hay == [] then
      false
    else
      var rest := Contains(hay[1..], needle);
      assert forall i :: 1 <= i <= |hay| ==> hay[i..] == hay[1..][i - 1..];
      assert rest ==> exists i :: 1 <= i <= |hay| && needle <= hay[i..] by {
        if rest {
          var k :| 0 <= k <= |hay[1..]| && needle <= hay[1..][k..];
          assert hay[1..][k..] == hay[k + 1..];
        }
      }
      rest
  }

  /** A string contains each of its own prefixes, in particular itself. */
  lemma ContainsPrefix(hay: string, needle: string)
    requires needle <= hay
    ensures Contains(hay, needle)
  {
    assert hay[0..] == hay;
  }

  // ------------------------------------------------------------ PHP trim

  /** The characters PHP's `trim` removes by default:
      space, tab, newline, carriage return, NUL and vertical tab. */
  predicate IsTrimmed(c: char) {
    c == ' ' || c == '\t' || c == '\n' || c == '\r' || c == '\0' || c == '\U{B}'
  }

  function TrimLeft(s: string): (r: string)
    ensures |r| <= |s| && r == s[|s| - |r|..]
    ensures r == [] || !IsTrimmed(r[0])
    ensures forall i :: 0 <= i < |s| - |r| ==> IsTrimmed(s[i])
  {
    if s != [] && IsTrimmed(s[0]) then TrimLeft(s[1..]) else s
  }

  function TrimRight(s: string): (r: string)
    ensures |r| <= |s| && r == s[..|r|]
    ensures r == [] || !IsTrimmed(r[|r| - 1])
    ensures forall i :: |r| <= i < |s| ==> IsTrimmed(s[i])
  {
    if s != [] && IsTrimmed(s[|s| - 1]) then TrimRight(s[..|s| - 1]) else s
  }

  /** How many trimmed characters `s` starts with. */
  function LeadingTrimmed(s: string): (n: nat)
    ensures n <= |s|
    ensures forall i :: 0 <= i < n ==> IsTrimmed(s[i])
    ensures n == |s| || !IsTrimmed(s[n])
  {
    |s| - |TrimLeft(s)|
  }

  /** PHP's `trim`: the slice of `s` left once the leading and trailing
      trimmed characters are cut off. */
  function Trim(s: string): (r: string)
    ensures var a := LeadingTrimmed(s);
      a + |r| <= |s| && r == s[a..a + |r|]
      && forall i :: a + |r| <= i < |s| ==> IsTrimmed(s[i])
    ensures r == [] || (!IsTrimmed(r[0]) && !IsTrimmed(r[|r| - 1]))
  {
    TrimRight(TrimLeft(s))
  }

  // ------------------------------------------------------ splitting paths

  /** The text after the last `/` (`os.path.basename`, `Path.name`). */
  function Basename(p: string): string {
    if p == [] || p[|p| - 1] == '/' then [] else Basename(p[..|p| - 1]) + [p[|p| - 1]]
  }

  /** The base name is the longest suffix of the path without a `/`. */
  lemma {:induction false} BasenameSuffix(p: string)
    ensures '/' !in Basename(p)
    ensures |Basename(p)| <= |p| && Basename(p) == p[|p| - |Basename(p)|..]
    ensures |Basename(p)| < |p| ==> p[|p| - |Basename(p)| - 1] == '/'
  {
    if p != [] && p[|p| - 1] != '/' {
      var q := p[..|p| - 1];
      BasenameSuffix(q);
      assert p[|p| - |Basename(p)|..] == q[|q| - |Basename(q)|..] + [p[|p| - 1]];
    }
  }

  /** The `/`-separated segments of a relative path, as `Path.parts`. */
  function Segments(p: string): (r: seq<string>)
    ensures |r| >= 1
    decreases |p|
  {
    var n := |Basename(p)|;
    BasenameSuffix(p);
    if n == |p| then [p]
    else Segments(p[..|p| - n - 1]) + [Basename(p)]
  }

  // -------------------------------------------------- lexicographic order

  ghost predicate Irreflexive<T(!new)>(lt: (T, T) -> bool) {
    forall a :: !lt(a, a)
  }

  ghost predicate Transitive<T(!new)>(lt: (T, T) -> bool) {
    forall a, b, c :: lt(a, b) && lt(b, c) ==> lt(a, c)
  }

  /** What Swift's and Python's `sort` need of their comparison. */
  ghost predicate StrictOrder<T(!new)>(lt: (T, T) -> bool) {
    Irreflexive(lt) && Transitive(lt)
  }

  /** Any two distinct values are ordered one way or the other. */
  ghost predicate Connected<T(!new)>(lt: (T, T) -> bool) {
    forall a, b :: a == b || lt(a, b) || lt(b, a)
  }

  ghost predicate StrictTotalOrder<T(!new)>(lt: (T, T) -> bool) {
    StrictOrder(lt) && Connected(lt)
  }

  /** Lexicographic order induced by `lt`: a proper prefix comes first. */
  function LexLess<T>(a: seq<T>, b: seq<T>, lt: (T, T) -> bool): bool
    decreases |a|
  {
    if a == [] then b != []
    else if b == [] then false
    else if lt(a[0], b[0]) then true
    else if lt(b[0], a[0]) then false
    else LexLess(a[1..], b[1..], lt)
  }

  lemma {:induction false} LexLessIrreflexive<T(!new)>(a: seq<T>, lt: (T, T) -> bool)
    requires Irreflexive(lt)
    ensures !LexLess(a, a, lt)
    decreases |a|
  {
    if a != [] {
      assert !lt(a[0], a[0]);
      LexLessIrreflexive(a[1..], lt);
    }
  }

  lemma {:induction false} LexLessTransitive<T(!new)>(a: seq<T>, b: seq<T>, c: seq<T>, lt: (T, T) -> bool)
    requires StrictTotalOrder(lt)
    requires LexLess(a, b, lt) && LexLess(b, c, lt)
    ensures LexLess(a, c, lt)
    decreases |a|
  {
    if a != [] {
      assert b != [] && c != [];
      if lt(a[0], c[0]) {
      } else if a[0] == b[0] && b[0] == c[0] {
        assert !lt(a[0], a[0]);
        LexLessTransitive(a[1..], b[1..], c[1..], lt);
      } else {
        // one step is strict, the other strict or a tie: either way a[0] before c[0]
        assert false;
      }
    }
  }

  lemma {:induction false} LexLessConnected<T(!new)>(a: seq<T>, b: seq<T>, lt: (T, T) -> bool)
    requires StrictTotalOrder(lt)
    ensures a == b || LexLess(a, b, lt) || LexLess(b, a, lt)
    decreases |a|
  {
    if a != [] && b != [] && a[0] == b[0] {
      assert !lt(a[0], a[0]);
      LexLessConnected(a[1..], b[1..], lt);
      if a[1..] == b[1..] {
        assert a == [a[0]] + a[1..] && b == [b[0]] + b[1..];
      }
    }
  }

  predicate CharLess(x: char, y: char) { x < y }

  /** Comparison of strings by code point, as Python and Swift compare `str`
      and `String` values made of single-scalar characters. */
  predicate StrLess(a: string, b: string) { LexLess(a, b, CharLess) }

  lemma StrLessStrictTotal()
    ensures StrictTotalOrder(StrLess)
  {
    assert StrictTotalOrder(CharLess);
    forall a: string ensures !StrLess(a, a) {
      LexLessIrreflexive(a, CharLess);
    }
    forall a: string, b: string, c: string | StrLess(a, b) && StrLess(b, c)
      ensures StrLess(a, c)
    {
      LexLessTransitive(a, b, c, CharLess);
    }
    forall a: string, b: string ensures a == b || StrLess(a, b) || StrLess(b, a) {
      LexLessConnected(a, b, CharLess);
    }
  }

  // -------------------------------------------------------------- decimal

  function DigitChar(d: nat): (c: char)
    requires d < 10
    ensures '0' <= c <= '9'
  {
    ('0' as int + d) as char
  }

  predicate IsDigit(c: char) { '0' <= c <= '9' }

  function DigitValue(c: char): (d: nat)
    requires IsDigit(c)
    ensures d < 10 && DigitChar(d) == c
  {
    c as int - '0' as int
  }

  /** The decimal digits of `n`, without leading zeros (`String(n)`). */
  function NatToString(n: nat): (r: string)
    ensures |r| >= 1
    ensures forall i :: 0 <= i < |r| ==> IsDigit(r[i])
    ensures n > 0 ==> r[0] != '0'
    decreases n
  {
    if n < 10 then [DigitChar(n)] else NatToString(n / 10) + [DigitChar(n % 10)]
  }

  /** The number a string of decimal digits denotes. */
  function DigitsValue(s: string): nat
    requires forall i :: 0 <= i < |s| ==> IsDigit(s[i])
  {
    if s == [] then 0 else DigitsValue(s[..|s| - 1]) * 10 + DigitValue(s[|s| - 1])
  }

  lemma {:induction false} NatToStringRoundTrip(n: nat)
    ensures DigitsValue(NatToString(n)) == n
    decreases n
  {
    if n >= 10 {
      NatToStringRoundTrip(n / 10);
      var s := NatToString(n);
      assert s[..|s| - 1] == NatToString(n / 10);
    }
  }

  /** `String(n)` for any integer: a minus sign before negative numbers. */
  function IntToString(n: int): (r: string)
    ensures |r| >= 1
    ensures n >= 0 ==> r == NatToString(n)
    ensures n < 0 ==> r == "-" + NatToString(-n)
  {
    if n >= 0 then NatToString(n) else "-" + NatToString(-n)
  }

  const Int64Min: int := -0x8000_0000_0000_0000
  const Int64Max: int := 0x7FFF_FFFF_FFFF_FFFF

  /** Swift's `Int(String)`: an optional `+` or `-`, then one or more
      decimal digits and nothing else; `nil` when the value does not fit a
      64-bit `Int`. */
  function ParseInt(s: string): (r: Option<int>)
    ensures r.Some? ==> Int64Min <= r.value <= Int64Max
    ensures r.Some? ==> s != [] && s != "+" && s != "-"
  {
    var signed := s != [] && (s[0] == '+' || s[0] == '-');
    var sign := if signed && s[0] == '-' then -1 else 1;
    var digits := if signed then s[1..] else s;
    if digits == [] || !(forall i :: 0 <= i < |digits| ==> IsDigit(digits[i])) then None
    else
      var v := sign * DigitsValue(digits);
      if Int64Min <= v <= Int64Max then Some(v) else None
  }

  /** Parsing the decimal rendering of a 64-bit integer gives it back. */
  lemma ParseIntRoundTrip(n: int)
    requires Int64Min <= n <= Int64Max
    ensures ParseInt(IntToString(n)) == Some(n)
  {
    if n >= 0 {
      NatToStringRoundTrip(n);
      var s := NatToString(n);
      assert s[0] != '+' && s[0] != '-';
    } else {
      NatToStringRoundTrip(-n);
      var s := IntToString(n);
      assert s[1..] == NatToString(-n);
    }
  }

  /** PHP's `str_pad($s, $width, '0', STR_PAD_LEFT)`. */
  function PadLeftZeros(s: string, width: nat): (r: string)
    ensures |r| == if |s| >= width then |s| else width
    ensures r[|r| - |s|..] == s
    ensures forall i :: 0 <= i < |r| - |s| ==> r[i] == '0'
  {
    if |s| >= width then s else seq(width - |s|, _ => '0') + s
  }
}
