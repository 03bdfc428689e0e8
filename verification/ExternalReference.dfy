/** The bank's external reference: a local id of 32 hex digits rendered as 26 Crockford base-32 symbols, and
    read back. An id of any other shape goes through a digest, which is opaque here. */
module ExternalReference {
  import opened Wrappers
  import opened Numerals

  const REF_LEN := 26
  const ID_LEN := 32

  /** The alphabet in order: the digits, then the letters without I, L, O and U. */
  function Symbol(i: nat): (c: char)
    requires i < 32
  {
    if i < 10 then ('0' as int + i) as char
    else if i < 18 then ('A' as int + i - 10) as char
    else if i < 20 then ('J' as int + i - 18) as char
    else if i < 22 then ('M' as int + i - 20) as char
    else if i < 27 then ('P' as int + i - 22) as char
    else ('V' as int + i - 27) as char
  }

  /** The symbols, listed. */
  lemma Alphabet()
    ensures [Symbol(0), Symbol(1), Symbol(2), Symbol(3), Symbol(4), Symbol(5), Symbol(6), Symbol(7),
             Symbol(8), Symbol(9), Symbol(10), Symbol(11), Symbol(12), Symbol(13), Symbol(14), Symbol(15),
             Symbol(16), Symbol(17), Symbol(18), Symbol(19), Symbol(20), Symbol(21), Symbol(22), Symbol(23),
             Symbol(24), Symbol(25), Symbol(26), Symbol(27), Symbol(28), Symbol(29), Symbol(30), Symbol(31)]
      == "0123456789ABCDEFGHJKMNPQRSTVWXYZ"
  {
  }

  function SymbolIndex(c: char): (r: Option<nat>)
    ensures r.Some? ==> r.value < 32 && Symbol(r.value) == c
    ensures forall i: nat :: i < 32 && Symbol(i) == c ==> r == Some(i)
  {
    if '0' <= c <= '9' then Some(c as int - '0' as int)
    else if 'A' <= c <= 'H' then Some(c as int - 'A' as int + 10)
    else if 'J' <= c <= 'K' then Some(c as int - 'J' as int + 18)
    else if 'M' <= c <= 'N' then Some(c as int - 'M' as int + 20)
    else if 'P' <= c <= 'T' then Some(c as int - 'P' as int + 22)
    else if 'V' <= c <= 'Z' then Some(c as int - 'V' as int + 27)
    else None
  }

  function HexChar(i: nat): char
    requires i < 16
  {
    if i < 10 then ('0' as int + i) as char else ('a' as int + i - 10) as char
  }

  /** Either case is accepted on the way in. */
  function HexIndex(c: char): (r: Option<nat>)
    ensures r.Some? ==> r.value < 16
    ensures forall i: nat :: i < 16 && HexChar(i) == c ==> r == Some(i)
  {
    if '0' <= c <= '9' then Some(c as int - '0' as int)
    else if 'a' <= c <= 'f' then Some(c as int - 'a' as int + 10)
    else if 'A' <= c <= 'F' then Some(c as int - 'A' as int + 10)
    else None
  }

  /** Hex digits by value: decimal digits, then six letters, read in either case. */
  lemma HexDigits(i: nat)
    requires i < 10
    ensures HexIndex(HexChar(i)) == Some(i) && HexChar(i) as int == '0' as int + i
    ensures i < 6 ==> HexChar(10 + i) as int == 'a' as int + i && HexIndex(('A' as int + i) as char) == Some(10 + i) == HexIndex(HexChar(10 + i))
  {
  }

  predicate IsHexId(id: string) {
    |id| == ID_LEN && forall i :: 0 <= i < |id| ==> HexIndex(id[i]).Some?
  }

  function Nibbles(id: string): (ds: seq<nat>)
    requires forall i :: 0 <= i < |id| ==> HexIndex(id[i]).Some?
    ensures |ds| == |id| && InBase(ds, 16)
  {
    seq(|id|, i requires 0 <= i < |id| => HexIndex(id[i]).value)
  }

  function HexText(ds: seq<nat>): string
    requires InBase(ds, 16)
  {
    seq(|ds|, i requires 0 <= i < |ds| => HexChar(ds[i]))
  }

  /** The id as it would be printed: lower case. */
  function Canonical(id: string): string
    requires IsHexId(id)
  {
    HexText(Nibbles(id))
  }

  predicate IsReference(ref: string) {
    |ref| == REF_LEN && forall i :: 0 <= i < |ref| ==> SymbolIndex(ref[i]).Some?
  }

  function Indices(ref: string): (ds: seq<nat>)
    requires forall i :: 0 <= i < |ref| ==> SymbolIndex(ref[i]).Some?
    ensures |ds| == |ref| && InBase(ds, 32)
  {
    seq(|ref|, i requires 0 <= i < |ref| => SymbolIndex(ref[i]).value)
  }

  function RefText(ds: seq<nat>): string
    requires InBase(ds, 32)
  {
    seq(|ds|, i requires 0 <= i < |ds| => Symbol(ds[i]))
  }

  /** The 128-bit value an id stands for. */
  function IdValue(id: string, digest: string -> nat): (n: nat)
    ensures n < Pow(16, 32)
  {
    if IsHexId(id) then
      DigitsOfValue(Nibbles(id), 16);
      Value(Nibbles(id), 16)
    else Rem(digest(id), Pow(16, 32))
  }

  function Encode(n: nat): string {
    DigitsInBase(n, 32, REF_LEN);
    RefText(Digits(n, 32, REF_LEN))
  }

  function ExternalReferenceId(id: string, digest: string -> nat): string {
    Encode(IdValue(id, digest))
  }

  /** The local id behind a reference; nothing when it is not 26 symbols or exceeds 128 bits. */
  function BoletoIdOf(ref: string): Option<string> {
    if !IsReference(ref) then None
    else
      var n := Value(Indices(ref), 32);
      if n >= Pow(16, 32) then None
      else
        DigitsInBase(n, 16, ID_LEN);
        Some(HexText(Digits(n, 16, ID_LEN)))
  }

  // ---- the loops ----

  /** Symbols are written from the right by repeated division. */
  method EncodeCrockford(n: nat) returns (ref: string)
    ensures ref == Encode(n)
  {
    var out := new char[REF_LEN];
    var rest, i := n, REF_LEN;
    ghost var ds := Digits(n, 32, REF_LEN);
    DigitsInBase(n, 32, REF_LEN);
    while i > 0
      invariant 0 <= i <= REF_LEN
      invariant Digits(rest, 32, i) == ds[..i]
      invariant forall k :: i <= k < REF_LEN ==> out[k] == Symbol(ds[k])
    {
      i := i - 1;
      assert Digits(rest, 32, i + 1)[..i] == Digits(Quot(rest, 32), 32, i);
      assert ds[..i + 1][..i] == ds[..i];
      assert ds[i] == Digits(rest, 32, i + 1)[i];
      out[i] := Symbol(Rem(rest, 32));
      rest := Quot(rest, 32);
    }
    ref := out[..];
    assert ref == RefText(ds);
  }

  lemma HornerStep(ref: string, i: nat)
    requires i < |ref| && forall k :: 0 <= k <= i ==> SymbolIndex(ref[k]).Some?
    ensures Value(Indices(ref[..i + 1]), 32) == Times(Value(Indices(ref[..i]), 32), 32) + SymbolIndex(ref[i]).value
  {
    assert Indices(ref[..i + 1])[..i] == Indices(ref[..i]);
  }

  /** Symbols are read from the left by Horner's rule, stopping at the first that is not in the alphabet. */
  method DecodeReference(ref: string) returns (r: Option<string>)
    ensures r == BoletoIdOf(ref)
  {
    if |ref| != REF_LEN { return None; }
    var n: nat, i := 0, 0;
    while i < |ref|
      invariant 0 <= i <= |ref|
      invariant forall k :: 0 <= k < i ==> SymbolIndex(ref[k]).Some?
      invariant n == Value(Indices(ref[..i]), 32)
    {
      var idx := SymbolIndex(ref[i]);
      if idx.None? { return None; }
      HornerStep(ref, i);
      n := Times(n, 32) + idx.value;
      i := i + 1;
    }
    assert ref[..|ref|] == ref;
    if n >= Pow(16, 32) { return None; }
    DigitsInBase(n, 16, ID_LEN);
    return Some(HexText(Digits(n, 16, ID_LEN)));
  }

  // ---- round trips ----

  lemma WidthsFit()
    ensures Pow(16, 32) <= Pow(32, 26)
  {
    assert Pow(16, 1) == 16 && Pow(32, 1) == 32;
    PowAdds(16, 1, 1);
    PowAdds(16, 2, 2);
    PowAdds(16, 4, 4);
    PowAdds(16, 8, 8);
    PowAdds(16, 16, 16);
    PowAdds(32, 1, 1);
    PowAdds(32, 2, 1);
    PowAdds(32, 3, 3);
    PowAdds(32, 6, 6);
    PowAdds(32, 12, 1);
    PowAdds(32, 13, 13);
  }

  lemma RefTextReadsBack(ds: seq<nat>)
    requires InBase(ds, 32)
    ensures |RefText(ds)| == |ds|
    ensures forall i :: 0 <= i < |ds| ==> SymbolIndex(RefText(ds)[i]) == Some(ds[i])
    ensures Indices(RefText(ds)) == ds
  {
  }

  /** Every encoding is a well-formed reference that stands for the number encoded. */
  lemma EncodedIsReference(n: nat)
    requires n < Pow(16, 32)
    ensures IsReference(Encode(n)) && Value(Indices(Encode(n)), 32) == n
  {
    WidthsFit();
    DigitsInBase(n, 32, REF_LEN);
    RefTextReadsBack(Digits(n, 32, REF_LEN));
    ValueOfDigits(n, 32, REF_LEN);
  }

  /** Decoding an id's reference recovers the id, in lower case. */
  lemma DecodeInvertsEncode(id: string, digest: string -> nat)
    requires IsHexId(id)
    ensures BoletoIdOf(ExternalReferenceId(id, digest)) == Some(Canonical(id))
  {
    var n := IdValue(id, digest);
    EncodedIsReference(n);
    DigitsOfValue(Nibbles(id), 16);
  }

  lemma HexTextReadsBack(ds: seq<nat>)
    requires InBase(ds, 16)
    ensures |HexText(ds)| == |ds|
    ensures forall i :: 0 <= i < |ds| ==> HexIndex(HexText(ds)[i]) == Some(ds[i])
    ensures Nibbles(HexText(ds)) == ds
  {
  }

  /** Encoding a decoded id gives the reference back: no two references decode to one id. */
  lemma EncodeInvertsDecode(ref: string, digest: string -> nat)
    requires BoletoIdOf(ref).Some?
    ensures IsHexId(BoletoIdOf(ref).value) && Canonical(BoletoIdOf(ref).value) == BoletoIdOf(ref).value
    ensures ExternalReferenceId(BoletoIdOf(ref).value, digest) == ref
  {
    var ds := Indices(ref);
    var n := Value(ds, 32);
    DigitsInBase(n, 16, ID_LEN);
    HexTextReadsBack(Digits(n, 16, ID_LEN));
    ValueOfDigits(n, 16, ID_LEN);
    DigitsOfValue(ds, 32);
    assert Digits(n, 32, REF_LEN) == ds;
    assert RefText(ds) == ref;
  }

  /** Two hex ids share a reference exactly when they differ at most in letter case; on ids as minted, which
      are lower case, the mapping is one to one. */
  lemma SharedReferenceExactlyUpToCase(a: string, b: string, digest: string -> nat)
    requires IsHexId(a) && IsHexId(b)
    ensures ExternalReferenceId(a, digest) == ExternalReferenceId(b, digest) <==> Canonical(a) == Canonical(b)
  {
    DecodeInvertsEncode(a, digest);
    DecodeInvertsEncode(b, digest);
    HexTextReadsBack(Nibbles(a));
    HexTextReadsBack(Nibbles(b));
  }
}
