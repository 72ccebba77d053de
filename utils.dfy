/** `bytes_to_hex` of src/utils.rs: every byte is formatted with `{:02X}`
    (two upper-case hexadecimal digits, zero padded) and the pieces are
    concatenated. */
module Utils {

  const HexDigits: string := "0123456789ABCDEF"

  /** The characters `{:X}` can produce. */
  predicate IsUpperHex(c: char) {
    ('0' <= c <= '9') || ('A' <= c <= 'F')
  }

  /** The upper-case digit of a nibble. */
  function Digit(n: bv8): (c: char)
    requires n < 16
    ensures IsUpperHex(c)
    ensures n < 10 ==> c as int == '0' as int + n as int
    ensures 10 <= n ==> c as int == 'A' as int + n as int - 10
  {
    HexDigits[n as int]
  }

  /** `{:02X}` applied to one byte: high nibble first. */
  function ByteToHex(b: bv8): (s: string)
    ensures |s| == 2
    ensures s[0] == Digit(b >> 4) && s[1] == Digit(b & 0x0F)
  {
    [Digit(b >> 4), Digit(b & 0x0F)]
  }

  /** The `map` + `collect::<String>` of `bytes_to_hex`. */
  function BytesToHex(bytes: seq<bv8>): (s: string)
    ensures |s| == 2 * |bytes|
  {
    if bytes == [] then "" else ByteToHex(bytes[0]) + BytesToHex(bytes[1..])
  }

  /** Characters 2i and 2i+1 are the digits of the high and low nibble of byte i. */
  lemma {:induction false} BytesToHexAt(bytes: seq<bv8>, i: nat)
    requires i < |bytes|
    ensures BytesToHex(bytes)[2 * i] == Digit(bytes[i] >> 4)
    ensures BytesToHex(bytes)[2 * i + 1] == Digit(bytes[i] & 0x0F)
  {
    if i > 0 {
      BytesToHexAt(bytes[1..], i - 1);
    }
  }

  /** Formatting distributes over concatenation. */
  lemma {:induction false} BytesToHexAppend(a: seq<bv8>, b: seq<bv8>)
    ensures BytesToHex(a + b) == BytesToHex(a) + BytesToHex(b)
  {
    if a == [] {
      assert a + b == b;
    } else {
      assert (a + b)[1..] == a[1..] + b;
      BytesToHexAppend(a[1..], b);
    }
  }

  /** Every output character is a digit 0-9 or a letter A-F. */
  lemma BytesToHexIsUpperHex(bytes: seq<bv8>)
    ensures forall k :: 0 <= k < |BytesToHex(bytes)| ==> IsUpperHex(BytesToHex(bytes)[k])
  {
    forall k | 0 <= k < |BytesToHex(bytes)|
      ensures IsUpperHex(BytesToHex(bytes)[k])
    {
      BytesToHexAt(bytes, k / 2);
    }
  }
}
