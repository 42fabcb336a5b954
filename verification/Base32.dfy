/** The base 32 encoding of section 6 of RFC 4648, by way of the bits of the bytes. */
module Base32 {

  type Byte = b: int | 0 <= b < 256

  datatype Decoded = Bytes(bytes: seq<Byte>) | Corrupt

  type Bits = seq<bool>

  function Power2(n: nat): nat {
    if n == 0 then 1 else 2 * Power2(n - 1)
  }

  /** The n bits of v, the highest first. */
  function ToBits(n: nat, v: nat): (bits: Bits)
    ensures |bits| == n
  {
    if n == 0 then [] else ToBits(n - 1, v / 2) + [v % 2 == 1]
  }

  function FromBits(bits: Bits): (v: nat)
    ensures v < Power2(|bits|)
  {
    if bits == [] then 0
    else 2 * FromBits(bits[..|bits| - 1]) + if bits[|bits| - 1] then 1 else 0
  }

  lemma {:induction false} FromToBits(n: nat, v: nat)
    requires v < Power2(n)
    ensures FromBits(ToBits(n, v)) == v
  {
    if n > 0 {
      FromToBits(n - 1, v / 2);
      assert ToBits(n, v)[..n - 1] == ToBits(n - 1, v / 2);
    }
  }

  lemma {:induction false} ToFromBits(bits: Bits)
    ensures ToBits(|bits|, FromBits(bits)) == bits
  {
    if bits != [] {
      ToFromBits(bits[..|bits| - 1]);
      assert FromBits(bits) / 2 == FromBits(bits[..|bits| - 1]);
      assert bits == bits[..|bits| - 1] + [bits[|bits| - 1]];
    }
  }

  const ALPHABET := "ABCDEFGHIJKLMNOPQRSTUVWXYZ234567"

  function Letter(v: nat): char
    requires v < 32
  {
    if v < 26 then 'A' + (v as char) else '2' + ((v - 26) as char)
  }

  predicate IsLetter(c: char) {
    'A' <= c <= 'Z' || '2' <= c <= '7'
  }

  function LetterValue(c: char): (v: nat)
    requires IsLetter(c)
    ensures v < 32
  {
    if 'A' <= c <= 'Z' then c as int - 'A' as int else c as int - '2' as int + 26
  }

  lemma LetterIsAlphabet(v: nat)
    requires v < 32
    ensures |ALPHABET| == 32 && Letter(v) == ALPHABET[v] && IsLetter(Letter(v)) && LetterValue(Letter(v)) == v
  {
  }

  function BitsOf(bytes: seq<Byte>): (bits: Bits)
    ensures |bits| == 8 * |bytes|
  {
    if bytes == [] then [] else ToBits(8, bytes[0]) + BitsOf(bytes[1..])
  }

  function Zeros(n: nat): Bits {
    seq(n, i => false)
  }

  /** Letters for groups of five bits; the last group is filled up with zeros. */
  function Letters(bits: Bits): (text: string)
    ensures forall i :: 0 <= i < |text| ==> IsLetter(text[i])
  {
    Five();
    if bits == [] then []
    else if |bits| < 5 then [Letter(FromBits(bits + Zeros(5 - |bits|)))]
    else [Letter(FromBits(bits[..5]))] + Letters(bits[5..])
  }

  lemma Five()
    ensures Power2(5) == 32 && Power2(8) == 256
  {
    assert Power2(3) == 8;
    assert Power2(6) == 64;
  }

  /** Padding up to a multiple of eight letters. */
  function Padding(n: nat): (pad: nat)
    ensures pad < 8 && (n + pad) % 8 == 0
  {
    (8 - n % 8) % 8
  }

  function Encode(bytes: seq<Byte>): string {
    var text := Letters(BitsOf(bytes));
    text + seq(Padding(|text|), i => '=')
  }

  function BitsOfLetters(text: string): (bits: Bits)
    requires forall i :: 0 <= i < |text| ==> IsLetter(text[i])
    ensures |bits| == 5 * |text|
  {
    if text == [] then [] else ToBits(5, LetterValue(text[0])) + BitsOfLetters(text[1..])
  }

  /** Whole bytes; what is left over at the end is dropped. */
  function Octets(bits: Bits): seq<Byte> {
    Five();
    if |bits| < 8 then [] else [FromBits(bits[..8])] + Octets(bits[8..])
  }

  function Unpadded(text: string): (body: string)
    ensures body <= text
    ensures body == [] || body[|body| - 1] != '='
    ensures forall i :: |body| <= i < |text| ==> text[i] == '='
  {
    if text == [] || text[|text| - 1] != '=' then text else Unpadded(text[..|text| - 1])
  }

  function Decode(text: string): Decoded {
    var body := Unpadded(text);
    if |text| % 8 == 0 && |text| - |body| in {0, 1, 3, 4, 6} && (forall i :: 0 <= i < |body| ==> IsLetter(body[i]))
    then Bytes(Octets(BitsOfLetters(body)))
    else Corrupt
  }

  lemma GroupBits(group: Bits)
    requires |group| == 5
    ensures FromBits(group) < 32 && IsLetter(Letter(FromBits(group)))
    ensures ToBits(5, LetterValue(Letter(FromBits(group)))) == group
  {
    hide FromBits, ToBits;
    Five();
    LetterIsAlphabet(FromBits(group));
    ToFromBits(group);
  }

  lemma BitsOfOne(c: char, rest: string)
    requires IsLetter(c) && forall i :: 0 <= i < |rest| ==> IsLetter(rest[i])
    ensures BitsOfLetters([c] + rest) == ToBits(5, LetterValue(c)) + BitsOfLetters(rest)
  {
    hide ToBits, IsLetter, LetterValue;
    assert ([c] + rest)[1..] == rest;
  }

  lemma {:induction false} LettersKeepBits(bits: Bits) returns (fill: nat)
    ensures fill < 5 && BitsOfLetters(Letters(bits)) == bits + Zeros(fill)
  {
    hide FromBits, ToBits, Letter, LetterValue, IsLetter, BitsOfLetters, Power2;
    if bits == [] {
      fill := 0;
      NoBits();
    } else if |bits| < 5 {
      fill := 5 - |bits|;
      var group := bits + Zeros(fill);
      GroupBits(group);
      BitsOfOne(Letter(FromBits(group)), []);
      NoBits();
      assert Letters(bits) == [Letter(FromBits(group))] + [];
    } else {
      fill := LettersKeepBits(bits[5..]);
      GroupBits(bits[..5]);
      BitsOfOne(Letter(FromBits(bits[..5])), Letters(bits[5..]));
      assert Letters(bits) == [Letter(FromBits(bits[..5]))] + Letters(bits[5..]);
      assert bits[..5] + (bits[5..] + Zeros(fill)) == bits + Zeros(fill);
    }
  }

  lemma NoBits()
    ensures BitsOfLetters([]) == []
  {
  }

  lemma {:induction false} OctetsOfBits(bytes: seq<Byte>, fill: nat)
    requires fill < 8
    ensures Octets(BitsOf(bytes) + Zeros(fill)) == bytes
  {
    if bytes != [] {
      var bits := BitsOf(bytes) + Zeros(fill);
      OctetsOfBits(bytes[1..], fill);
      Five();
      FromToBits(8, bytes[0]);
      assert bits[..8] == ToBits(8, bytes[0]);
      assert bits[8..] == BitsOf(bytes[1..]) + Zeros(fill);
    }
  }

  lemma {:induction false} LettersLength(bits: Bits)
    ensures |Letters(bits)| == (|bits| + 4) / 5
  {
    if |bits| >= 5 {
      LettersLength(bits[5..]);
    }
  }

  lemma {:induction false} UnpaddedPad(text: string, pad: nat)
    requires text == [] || text[|text| - 1] != '='
    ensures Unpadded(text + seq(pad, i => '=')) == text
  {
    var padded := text + seq(pad, i => '=');
    if pad == 0 {
      assert padded == text;
    } else {
      UnpaddedPad(text, pad - 1);
      assert padded[..|padded| - 1] == text + seq(pad - 1, i => '=');
    }
  }

  /** The numbers of padding characters that section 6 lists. */
  lemma PaddingCounts(n: nat)
    ensures Padding((8 * n + 4) / 5) in {0, 1, 3, 4, 6}
  {
    var q, r := n / 5, n % 5;
    assert n == 5 * q + r;
    assert (8 * n + 4) / 5 == 8 * q + (8 * r + 4) / 5;
    assert ((8 * n + 4) / 5) % 8 == ((8 * r + 4) / 5) % 8;
    assert r == 0 || r == 1 || r == 2 || r == 3 || r == 4;
  }

  lemma DecodeEncode(bytes: seq<Byte>)
    ensures Decode(Encode(bytes)) == Bytes(bytes)
  {
    hide FromBits, ToBits, Power2, BitsOf, BitsOfLetters, Letters, Octets, Unpadded, Padding;
    var bits := BitsOf(bytes);
    var text := Letters(bits);
    UnpaddedPad(text, Padding(|text|));
    LettersLength(bits);
    PaddingCounts(|bytes|);
    var fill := LettersKeepBits(bits);
    OctetsOfBits(bytes, fill);
  }

  /** What the last letter carries beyond the last whole byte. */
  function Unused(bits: Bits): Bits {
    bits[8 * (|bits| / 8)..]
  }

  lemma {:induction false} OctetsKeepBits(bits: Bits)
    ensures BitsOf(Octets(bits)) == bits[..8 * (|bits| / 8)]
  {
    hide ToBits, FromBits, Power2;
    if |bits| >= 8 {
      OctetsKeepBits(bits[8..]);
      ToFromBits(bits[..8]);
      Five();
      assert Octets(bits) == [FromBits(bits[..8])] + Octets(bits[8..]);
      assert Octets(bits)[1..] == Octets(bits[8..]);
      assert bits[..8] + bits[8..][..8 * (|bits[8..]| / 8)] == bits[..8 * (|bits| / 8)];
    }
  }

  /** Letters whose bits from n on are zero come back from the first n bits, if these reach into the last letter. */
  lemma {:induction false} LettersComeBack(text: string, n: nat)
    requires forall i :: 0 <= i < |text| ==> IsLetter(text[i])
    requires 5 * |text| - 5 < n <= 5 * |text| || (text == [] && n == 0)
    requires forall i :: n <= i < 5 * |text| ==> !BitsOfLetters(text)[i]
    ensures Letters(BitsOfLetters(text)[..n]) == text
  {
    hide ToBits, FromBits, Power2;
    if text != [] {
      var c, rest, bits := text[0], text[1..], BitsOfLetters(text);
      var group := ToBits(5, LetterValue(c));
      LetterComesBack(c);
      assert bits == group + BitsOfLetters(rest);
      if rest == [] {
        assert bits == group;
        assert bits[..n] + Zeros(5 - n) == group;
        if n == 5 {
          assert bits[..n] == group && bits[..n][5..] == [];
        }
        assert Letters(bits[..n]) == [c];
      } else {
        assert bits[..n][..5] == group && bits[..n][5..] == BitsOfLetters(rest)[..n - 5];
        forall i | n - 5 <= i < 5 * |rest| ensures !BitsOfLetters(rest)[i] {
          assert bits[i + 5] == BitsOfLetters(rest)[i];
        }
        LettersComeBack(rest, n - 5);
      }
      assert text == [c] + rest;
    }
  }

  lemma LetterComesBack(c: char)
    requires IsLetter(c)
    ensures FromBits(ToBits(5, LetterValue(c))) == LetterValue(c) && Letter(LetterValue(c)) == c
  {
    Five();
    FromToBits(5, LetterValue(c));
  }

  /** Only encodings are decoded: a text that decodes, and whose last letter has no unused bit set, is the
      encoding of what it decodes to. */
  lemma EncodeDecode(text: string)
    requires Decode(text).Bytes? && forall i :: 0 <= i < |Unpadded(text)| ==> IsLetter(Unpadded(text)[i])
    requires true !in Unused(BitsOfLetters(Unpadded(text)))
    ensures Encode(Decode(text).bytes) == text
  {
    hide ToBits, FromBits, Power2, BitsOf, BitsOfLetters, Letters, Octets, Unpadded;
    var body := Unpadded(text);
    var bits := BitsOfLetters(body);
    var n := 8 * (|bits| / 8);
    OctetsKeepBits(bits);
    BodyLength(|text|, |body|);
    forall i | n <= i < 5 * |body| ensures !bits[i] { assert Unused(bits)[i - n] == bits[i]; }
    LettersComeBack(body, n);
    assert text == body + seq(|text| - |body|, i => '=');
  }

  lemma BodyLength(whole: nat, body: nat)
    requires whole % 8 == 0 && body <= whole && whole - body in {0, 1, 3, 4, 6}
    ensures Padding(body) == whole - body
    ensures body == 0 || 5 * body - 5 < 8 * (5 * body / 8)
  {
    var pad := whole - body;
    var q := if pad == 0 then whole / 8 else whole / 8 - 1;
    var r := if pad == 0 then 0 else 8 - pad;
    Eighths(body, q, r);
    Eighths(5 * body, 5 * q + 5 * r / 8, 5 * r % 8);
  }

  lemma Eighths(a: nat, q: nat, r: nat)
    requires a == 8 * q + r && r < 8
    ensures a / 8 == q && a % 8 == r
  {
  }

  lemma EncodeInjective(a: seq<Byte>, b: seq<Byte>)
    requires Encode(a) == Encode(b)
    ensures a == b
  {
    DecodeEncode(a);
    DecodeEncode(b);
  }

  /** Upper-case letters, digits and the padding only: nothing that means anything in a path, and names
      stay different where file names do not tell upper from lower case. */
  lemma SafeCharacters(bytes: seq<Byte>)
    ensures |Encode(bytes)| % 8 == 0
    ensures forall i :: 0 <= i < |Encode(bytes)| ==> IsLetter(Encode(bytes)[i]) || Encode(bytes)[i] == '='
  {
    var text := Letters(BitsOf(bytes));
    assert (|text| + Padding(|text|)) % 8 == 0;
  }

  function One(b: bool): nat {
    if b then 1 else 0
  }

  lemma Value5(bits: Bits)
    requires |bits| == 5
    ensures FromBits(bits) == 16 * One(bits[0]) + 8 * One(bits[1]) + 4 * One(bits[2]) + 2 * One(bits[3]) + One(bits[4])
  {
    assert bits[..4][..3] == bits[..3] && bits[..3][..2] == bits[..2] && bits[..2][..1] == bits[..1];
    assert FromBits(bits[..1]) == 2 * FromBits([]) + One(bits[0]);
    assert FromBits(bits[..2]) == 2 * FromBits(bits[..1]) + One(bits[1]);
    assert FromBits(bits[..3]) == 2 * FromBits(bits[..2]) + One(bits[2]);
  }

  lemma Value8(bits: Bits)
    requires |bits| == 8
    ensures FromBits(bits) == 8 * FromBits(bits[..5]) + 4 * One(bits[5]) + 2 * One(bits[6]) + One(bits[7])
    ensures FromBits(bits[..5]) ==
            16 * One(bits[0]) + 8 * One(bits[1]) + 4 * One(bits[2]) + 2 * One(bits[3]) + One(bits[4])
  {
    Value5(bits[..5]);
    assert bits[..7][..6] == bits[..6] && bits[..6][..5] == bits[..5];
    assert FromBits(bits[..6]) == 2 * FromBits(bits[..5]) + One(bits[5]);
    assert FromBits(bits[..7]) == 2 * FromBits(bits[..6]) + One(bits[6]);
  }

  /** The bits of the two letters "fo". */
  const FO: Bits := [false, true, true, false, false, true, true, false,
                     false, true, true, false, true, true, true, true]

  lemma BitsOfFo()
    ensures BitsOf([0x66, 0x6F]) == FO
  {
    hide FromBits, ToBits, Power2;
    ToFromBits(FO[..8]);
    Value8(FO[..8]);
    ToFromBits(FO[8..]);
    Value8(FO[8..]);
    assert [0x66, 0x6F][1..] == [0x6F];
    assert BitsOf([0x6F]) == ToBits(8, 0x6F) + BitsOf([]);
  }

  /** A test vector of section 10 of RFC 4648. */
  lemma TestVector()
    ensures Encode([0x66, 0x6F]) == "MZXQ===="
  {
    hide BitsOf, FromBits, ToBits;
    BitsOfFo();
    var last := FO[15..] + Zeros(4);
    Value5(FO[..5]);
    Value5(FO[5..10]);
    Value5(FO[10..15]);
    Value5(last);
    assert FO[5..][..5] == FO[5..10] && FO[5..][5..] == FO[10..];
    assert FO[10..][..5] == FO[10..15] && FO[10..][5..] == FO[15..];
    assert Letters(FO[15..]) == "Q";
    assert Letters(FO[10..]) == "X" + "Q";
    assert Letters(FO[5..]) == "Z" + "XQ";
    assert Letters(FO) == "M" + "ZXQ";
  }
}
