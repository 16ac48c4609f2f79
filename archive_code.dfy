/** The archive code the PHP API gives a new book: `BIB` followed by the
    next free number, padded with zeros to four digits. The existing codes
    stand for the rows the `MAX(...)` query reads. */
module ArchiveCodes {
  import opened Text
  import opened Seqs
  import opened Library

  const Prefix: string := "BIB"

  /** The longest run of decimal digits `s` starts with. */
  function LeadingDigits(s: string): (r: string)
    ensures r <= s
    ensures forall i :: 0 <= i < |r| ==> IsDigit(r[i])
    ensures |r| == |s| || !IsDigit(s[|r|])
  {
    if s == [] || !IsDigit(s[0]) then [] else [s[0]] + LeadingDigits(s[1..])
  }

  /** `CAST(x AS UNSIGNED)`: the value of the leading digits, 0 when there
      are none. */
  function CastUnsigned(s: string): nat {
    DigitsValue(LeadingDigits(s))
  }

  /** `CAST(SUBSTRING(code, 4) AS UNSIGNED)`: the number after the
      three-character prefix. */
  function CodeNumber(code: string): nat {
    if |code| >= 3 then CastUnsigned(code[3..]) else 0
  }

  /** The numbers of the codes `LIKE 'BIB%'`, in stored order. */
  function Numbers(codes: seq<string>): (ns: seq<int>)
    ensures forall n :: n in ns <==> exists c :: c in codes && Prefix <= c && n == CodeNumber(c)
  {
    if codes == [] then []
    else
      var rest := Numbers(codes[1..]);
      assert forall c :: c in codes <==> c == codes[0] || c in codes[1..];
      if Prefix <= codes[0] then [CodeNumber(codes[0])] + rest else rest
  }

  /** `(MAX(...) ?? 0) + 1`. */
  function NextNumber(codes: seq<string>): (n: nat)
    ensures n >= 1
    ensures forall c :: c in codes && Prefix <= c ==> CodeNumber(c) < n
    ensures (forall c :: c in codes ==> !(Prefix <= c)) ==> n == 1
    ensures (exists c :: c in codes && Prefix <= c) ==>
      exists c :: c in codes && Prefix <= c && CodeNumber(c) == n - 1
  {
    var m := MaxOr0(Numbers(codes));
    assert forall c :: c in codes && Prefix <= c ==> CodeNumber(c) in Numbers(codes);
    assert m >= 0 by {
      if Numbers(codes) != [] {
        assert m in Numbers(codes);
      }
    }
    m + 1
  }

  /** `'BIB' . str_pad(n, 4, '0', STR_PAD_LEFT)`. */
  function ArchiveCode(n: nat): (code: string)
    ensures Prefix <= code
    ensures code[3..] == PadLeftZeros(NatToString(n), 4)
  {
    var code := Prefix + PadLeftZeros(NatToString(n), 4);
    assert code[..3] == Prefix;
    code
  }

  function Pow10(k: nat): (p: nat)
    ensures p >= 1
  {
    if k == 0 then 1 else 10 * Pow10(k - 1)
  }

  /** `n` has at most `k` digits exactly when it is below `10^k`. */
  lemma {:induction false} NatToStringLength(n: nat, k: nat)
    requires k >= 1
    ensures |NatToString(n)| <= k <==> n < Pow10(k)
    decreases n
  {
    if n >= 10 {
      if k == 1 {
        assert |NatToString(n)| >= 2 by {
          assert |NatToString(n)| == |NatToString(n / 10)| + 1;
        }
      } else {
        NatToStringLength(n / 10, k - 1);
      }
    }
  }

  /** The codes of 1 to 9999 have seven characters; larger numbers give
      longer codes and are never cut. */
  lemma ArchiveCodeLength(n: nat)
    ensures 1 <= n <= 9999 ==> |ArchiveCode(n)| == 7
    ensures n >= 10000 ==> |ArchiveCode(n)| > 7 && ArchiveCode(n)[3..] == NatToString(n)
  {
    NatToStringLength(n, 4);
    assert Pow10(4) == 10000;
  }

  lemma {:induction false} DigitsValueZeros(z: string)
    requires forall i :: 0 <= i < |z| ==> z[i] == '0'
    ensures DigitsValue(z) == 0
  {
    if z != [] {
      DigitsValueZeros(z[..|z| - 1]);
    }
  }

  /** Leading zeros do not change a number. */
  lemma {:induction false} DigitsValueLeadingZeros(z: string, s: string)
    requires forall i :: 0 <= i < |z| ==> z[i] == '0'
    requires forall i :: 0 <= i < |s| ==> IsDigit(s[i])
    ensures DigitsValue(z + s) == DigitsValue(s)
  {
    if s == [] {
      assert z + s == z;
      DigitsValueZeros(z);
    } else {
      var init := s[..|s| - 1];
      assert (z + s)[..|z + s| - 1] == z + init;
      DigitsValueLeadingZeros(z, init);
    }
  }

  /** Reading the number back from a generated code gives the number it
      was made from, which is what the next-number query relies on. */
  lemma ArchiveCodeRoundTrip(n: nat)
    ensures CodeNumber(ArchiveCode(n)) == n
  {
    var digits := NatToString(n);
    var padded := PadLeftZeros(digits, 4);
    var z := padded[..|padded| - |digits|];
    assert padded == z + digits;
    assert forall i :: 0 <= i < |padded| ==> IsDigit(padded[i]);
    assert LeadingDigits(padded) == padded;
    DigitsValueLeadingZeros(z, digits);
    NatToStringRoundTrip(n);
  }

  /** The generated code is never one already stored. */
  lemma NewCodeIsFresh(codes: seq<string>)
    ensures ArchiveCode(NextNumber(codes)) !in codes
  {
    ArchiveCodeRoundTrip(NextNumber(codes));
  }

  /** The row the insert writes. */
  datatype NewBook = NewBook(
    titolo: string,
    autore: string,
    anno: string,
    categoria: string,
    codiceArchivio: string,
    stato: LibroStato)

  /** The insert branch: a new book is available and carries a code no
      stored book has, one past the largest stored number. */
  function InsertBook(titolo: string, autore: string, anno: string, categoria: string,
                      codes: seq<string>): (r: NewBook)
    ensures r.stato == Disponibile && r.stato.RawValue() == "Disponibile"
    ensures r.codiceArchivio !in codes && Prefix <= r.codiceArchivio
    ensures forall c :: c in codes && Prefix <= c ==> CodeNumber(c) < CodeNumber(r.codiceArchivio)
    ensures r.titolo == titolo && r.autore == autore && r.anno == anno && r.categoria == categoria
  {
    NewCodeIsFresh(codes);
    ArchiveCodeRoundTrip(NextNumber(codes));
    NewBook(titolo, autore, anno, categoria, ArchiveCode(NextNumber(codes)), Disponibile)
  }
}
