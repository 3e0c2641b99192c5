/**
  Base64 without padding (sections 3.2, 4 and 5 of RFC 4648): the standard and the
  URL-safe alphabet. Decoding skips line breaks and ignores the unused bits of the last
  character, as Go's `RawStdEncoding` and `RawURLEncoding` do.
*/
module Base64 {
  import opened Prelude

  type Byte = n: int | 0 <= n < 256
  type Sextet = n: int | 0 <= n < 64

  datatype Alphabet = Std | Url

  function Symbol(v: Sextet, a: Alphabet): char {
    if v < 26 then 'A' + v as char
    else if v < 52 then 'a' + (v - 26) as char
    else if v < 62 then '0' + (v - 52) as char
    else if v == 62 then if a.Std? then '+' else '-'
    else if a.Std? then '/' else '_'
  }

  function SextetOf(c: char, a: Alphabet): Option<Sextet> {
    if 'A' <= c <= 'Z' then Some(c as int - 'A' as int)
    else if 'a' <= c <= 'z' then Some(c as int - 'a' as int + 26)
    else if '0' <= c <= '9' then Some(c as int - '0' as int + 52)
    else if c == (if a.Std? then '+' else '-') then Some(62)
    else if c == (if a.Std? then '/' else '_') then Some(63)
    else None
  }

  predicate IsSymbol(c: char, a: Alphabet) {
    SextetOf(c, a).Some?
  }

  /** Three bytes make four sextets; one or two left over make two or three. */
  function Sextets(bs: seq<Byte>): seq<Sextet> {
    if bs == [] then []
    else if |bs| == 1 then [bs[0] / 4, bs[0] % 4 * 16]
    else if |bs| == 2 then [bs[0] / 4, bs[0] % 4 * 16 + bs[1] / 16, bs[1] % 16 * 4]
    else
      [bs[0] / 4, bs[0] % 4 * 16 + bs[1] / 16, bs[1] % 16 * 4 + bs[2] / 64, bs[2] % 64] + Sextets(bs[3..])
  }

  function First(a: Sextet, b: Sextet): Byte {
    (a as int) * 4 + (b as int) / 16
  }

  function Second(b: Sextet, c: Sextet): Byte {
    (b as int) % 16 * 16 + (c as int) / 4
  }

  function Third(c: Sextet, d: Sextet): Byte {
    (c as int) % 4 * 64 + (d as int)
  }

  function Bytes(vs: seq<Sextet>): Option<seq<Byte>> {
    if vs == [] then Some([])
    else if |vs| == 1 then None
    else if |vs| == 2 then Some([First(vs[0], vs[1])])
    else if |vs| == 3 then Some([First(vs[0], vs[1]), Second(vs[1], vs[2])])
    else
      match Bytes(vs[4..])
      case None => None
      case Some(rest) => Some([First(vs[0], vs[1]), Second(vs[1], vs[2]), Third(vs[2], vs[3])] + rest)
  }

  function Symbols(vs: seq<Sextet>, a: Alphabet): string {
    seq(|vs|, i requires 0 <= i < |vs| => Symbol(vs[i], a))
  }

  function WithoutBreaks(s: string): string {
    if s == "" then ""
    else (if s[0] == '\r' || s[0] == '\n' then "" else [s[0]]) + WithoutBreaks(s[1..])
  }

  function ReadSymbols(s: string, a: Alphabet): Option<seq<Sextet>> {
    if forall i | 0 <= i < |s| :: IsSymbol(s[i], a)
    then Some(seq(|s|, i requires 0 <= i < |s| && IsSymbol(s[i], a) => SextetOf(s[i], a).value))
    else None
  }

  function Encode(bs: seq<Byte>, a: Alphabet): string {
    Symbols(Sextets(bs), a)
  }

  function Decode(s: string, a: Alphabet): Option<seq<Byte>> {
    match ReadSymbols(WithoutBreaks(s), a)
    case None => None
    case Some(vs) => Bytes(vs)
  }

  // ---- decoding undoes encoding -------------------------------------------------------------

  lemma SymbolReads(v: Sextet, a: Alphabet)
    ensures SextetOf(Symbol(v, a), a) == Some(v)
  {
  }

  /** The alphabets by character code: A to Z, a to z, 0 to 9, and the two that differ. */
  lemma AlphabetIs(v: Sextet, a: Alphabet)
    ensures var code := Symbol(v, a) as int;
            && (v < 26 ==> code == 65 + v) && (26 <= v < 52 ==> code == 97 + (v - 26)) && (52 <= v < 62 ==> code == 48 + (v - 52))
            && (v == 62 ==> code == if a.Std? then 43 else 45) && (v == 63 ==> code == if a.Std? then 47 else 95)
  {
  }

  /** The sextets are the bits of the bytes, the highest first. */
  lemma SextetsAreBits(bs: seq<Byte>)
    requires |bs| >= 3
    ensures var vs := Sextets(bs);
            |vs| >= 4 && 262144 * vs[0] as int + 4096 * vs[1] as int + 64 * vs[2] as int + vs[3] as int
                         == 65536 * bs[0] as int + 256 * bs[1] as int + bs[2] as int
  {
  }

  /** Three bytes, split into four sextets and put together again. */
  lemma ThreeBack(x: Byte, y: Byte, z: Byte)
    ensures First(x / 4, x % 4 * 16 + y / 16) == x && Second(x % 4 * 16 + y / 16, y % 16 * 4 + z / 64) == y
    ensures Third(y % 16 * 4 + z / 64, z % 64) == z
  {
  }

  lemma {:induction false} BytesOfSextets(bs: seq<Byte>)
    ensures Bytes(Sextets(bs)) == Some(bs)
  {
    if |bs| == 1 || |bs| == 2 {
      assert bs == if |bs| == 1 then [bs[0]] else [bs[0], bs[1]];
    } else if |bs| >= 3 {
      BytesOfSextets(bs[3..]);
      ThreeBack(bs[0], bs[1], bs[2]);
      var vs := Sextets(bs);
      assert vs[4..] == Sextets(bs[3..]);
      assert bs == [bs[0], bs[1], bs[2]] + bs[3..];
    }
  }

  lemma SymbolsRead(vs: seq<Sextet>, a: Alphabet)
    ensures forall i | 0 <= i < |vs| :: IsSymbol(Symbols(vs, a)[i], a)
    ensures ReadSymbols(Symbols(vs, a), a) == Some(vs)
  {
    forall i | 0 <= i < |vs| ensures SextetOf(Symbols(vs, a)[i], a) == Some(vs[i]) {
      SymbolReads(vs[i], a);
    }
    assert ReadSymbols(Symbols(vs, a), a).value == vs;
  }

  lemma {:induction false} NoBreaks(s: string)
    requires forall i | 0 <= i < |s| :: s[i] != '\r' && s[i] != '\n'
    ensures WithoutBreaks(s) == s
  {
    if s != "" {
      NoBreaks(s[1..]);
    }
  }

  lemma DecodeEncode(bs: seq<Byte>, a: Alphabet)
    ensures Decode(Encode(bs, a), a) == Some(bs)
  {
    SymbolsRead(Sextets(bs), a);
    assert forall i | 0 <= i < |Encode(bs, a)| :: IsSymbol(Encode(bs, a)[i], a);
    NoBreaks(Encode(bs, a));
    BytesOfSextets(bs);
  }

  /** Encodings differ where the bytes differ. */
  lemma EncodeInjective(bs: seq<Byte>, cs: seq<Byte>, a: Alphabet)
    requires Encode(bs, a) == Encode(cs, a)
    ensures bs == cs
  {
    DecodeEncode(bs, a);
    DecodeEncode(cs, a);
  }

  /** Whole groups of three bytes make four characters each, all of the alphabet. */
  lemma {:induction false} EncodeShape(bs: seq<Byte>, a: Alphabet)
    ensures |bs| % 3 == 0 ==> |Encode(bs, a)| == |bs| / 3 * 4
    ensures forall i | 0 <= i < |Encode(bs, a)| :: IsSymbol(Encode(bs, a)[i], a)
  {
    SymbolsRead(Sextets(bs), a);
    if |bs| >= 3 {
      EncodeShape(bs[3..], a);
    }
  }
}
