/** The BSON ObjectId (element type 0x07 of the BSON 1.1 specification): twelve
    bytes whose textual form is 24 hexadecimal digits. This is the part of the
    `bson` package the library relies on: `ObjectId(str)`, `ObjectId.is_valid`
    and `str(ObjectId)`. */
module ObjectIds {
  import opened Base

  newtype Byte = x: int | 0 <= x < 256

  type ObjectId = b: seq<Byte> | |b| == 12 witness [0, 0, 0, 0, 0, 0, 0, 0, 0, 0, 0, 0]

  predicate IsHexDigit(c: char) {
    '0' <= c <= '9' || 'a' <= c <= 'f' || 'A' <= c <= 'F'
  }

  predicate AllHex(s: string) {
    forall i | 0 <= i < |s| :: IsHexDigit(s[i])
  }

  /** The textual form of an ObjectId: exactly 24 hexadecimal digits, of either case. */
  predicate IsHex24(s: string) {
    |s| == 24 && AllHex(s)
  }

  function DigitValue(c: char): (n: int)
    requires IsHexDigit(c)
    ensures 0 <= n < 16
  {
    if '0' <= c <= '9' then c as int - '0' as int
    else if 'a' <= c <= 'f' then c as int - 'a' as int + 10
    else c as int - 'A' as int + 10
  }

  /** The lowercase digit of a nibble. */
  function Digit(n: int): (c: char)
    requires 0 <= n < 16
    ensures IsHexDigit(c) && DigitValue(c) == n
    ensures !('A' <= c <= 'F')
  {
    if n < 10 then ('0' as int + n) as char else ('a' as int + n - 10) as char
  }

  /** A hexadecimal digit with 'A'..'F' folded to 'a'..'f'. */
  function LowerDigit(c: char): (d: char)
    requires IsHexDigit(c)
    ensures IsHexDigit(d) && DigitValue(d) == DigitValue(c) && !('A' <= d <= 'F')
  {
    if 'A' <= c <= 'F' then (c as int - 'A' as int + 'a' as int) as char else c
  }

  function LowerHex(s: string): (t: string)
    requires AllHex(s)
    ensures |t| == |s| && AllHex(t)
  {
    if s == [] then [] else [LowerDigit(s[0])] + LowerHex(s[1..])
  }

  /** `bytes.fromhex` on an even-length string of hexadecimal digits. */
  function FromHex(s: string): (b: seq<Byte>)
    requires |s| % 2 == 0 && AllHex(s)
    ensures |b| == |s| / 2
  {
    if s == [] then []
    else [(16 * DigitValue(s[0]) + DigitValue(s[1])) as Byte] + FromHex(s[2..])
  }

  /** `bytes.hex()`: two lowercase digits per byte, high nibble first. */
  function ToHex(b: seq<Byte>): (s: string)
    ensures |s| == 2 * |b| && AllHex(s)
    ensures forall i | 0 <= i < |s| :: !('A' <= s[i] <= 'F')
  {
    if b == [] then []
    else [Digit(b[0] as int / 16), Digit(b[0] as int % 16)] + ToHex(b[1..])
  }

  /** `ObjectId(s)` for a string `s`: the bytes it spells, or InvalidId. */
  function Parse(s: string): (r: Result<ObjectId>)
    ensures r.Ok? <==> IsHex24(s)
  {
    if IsHex24(s) then Ok(FromHex(s)) else Raise(InvalidId)
  }

  /** `str(oid)`. */
  function Str(o: ObjectId): (s: string)
    ensures IsHex24(s)
  {
    ToHex(o)
  }

  lemma {:induction false} FromHexToHex(b: seq<Byte>)
    ensures FromHex(ToHex(b)) == b
  {
    if b != [] {
      var s := ToHex(b);
      var hi, lo := b[0] as int / 16, b[0] as int % 16;
      assert s[0] == Digit(hi) && s[1] == Digit(lo);
      assert s[2..] == ToHex(b[1..]);
      FromHexToHex(b[1..]);
      assert (16 * hi + lo) as Byte == b[0];
    }
  }

  lemma {:induction false} ToHexFromHex(s: string)
    requires |s| % 2 == 0 && AllHex(s)
    ensures ToHex(FromHex(s)) == LowerHex(s)
  {
    if s != [] {
      var b := FromHex(s);
      var x := 16 * DigitValue(s[0]) + DigitValue(s[1]);
      assert b[0] as int == x && b[1..] == FromHex(s[2..]);
      assert x / 16 == DigitValue(s[0]) && x % 16 == DigitValue(s[1]);
      ToHexFromHex(s[2..]);
      calc {
        LowerHex(s);
        [LowerDigit(s[0])] + LowerHex(s[1..]);
        { assert s[1..][1..] == s[2..]; }
        [LowerDigit(s[0])] + ([LowerDigit(s[1])] + LowerHex(s[2..]));
      }
      DigitOfValue(LowerDigit(s[0]));
      DigitOfValue(LowerDigit(s[1]));
    }
  }

  /** A lowercase digit is the digit of its own value. */
  lemma DigitOfValue(c: char)
    requires IsHexDigit(c) && !('A' <= c <= 'F')
    ensures Digit(DigitValue(c)) == c
  {
  }

  /** Serialising an ObjectId and reading the text back gives the same ObjectId. */
  lemma ParseStr(o: ObjectId)
    ensures Parse(Str(o)) == Ok(o)
  {
    FromHexToHex(o);
  }

  /** Reading a valid string and serialising the ObjectId gives the string in lowercase. */
  lemma StrParse(s: string)
    requires IsHex24(s)
    ensures Str(Parse(s).value) == LowerHex(s)
  {
    ToHexFromHex(s);
  }

  /** Distinct ObjectIds have distinct string forms. */
  lemma StrInjective(a: ObjectId, b: ObjectId)
    requires Str(a) == Str(b)
    ensures a == b
  {
    ParseStr(a);
    ParseStr(b);
  }
}
