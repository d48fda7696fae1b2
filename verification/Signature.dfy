/** The fixed-width hexadecimal encoding of ECDSA signatures, and the 32-byte
    field elements hashed by the prover. */
module Signature {
  import opened Kube

  type byte = n: int | 0 <= n < 256

  const WIDTH := 32

  function Pow256(k: nat): (r: nat)
    ensures r > 0
  {
    if k == 0 then 1 else 256 * Pow256(k - 1)
  }

  /** big.Int.SetBytes: big-endian, leading zeros allowed. */
  function SetBytes(b: seq<byte>): nat {
    if b == [] then 0 else SetBytes(b[..|b| - 1]) * 256 + b[|b| - 1]
  }

  /** big.Int.Bytes: big-endian without leading zeros. */
  function Bytes(n: nat): seq<byte> {
    if n == 0 then [] else Bytes(n / 256) + [n % 256]
  }

  /** Big-endian: leading bytes count more, and no number starts with a zero byte. */
  lemma {:induction false} SetBytesConcat(a: seq<byte>, b: seq<byte>)
    ensures SetBytes(a + b) == SetBytes(a) * Pow256(|b|) + SetBytes(b)
  {
    if b == [] {
      assert a + b == a;
    } else {
      assert (a + b)[..|a + b| - 1] == a + b[..|b| - 1];
      SetBytesConcat(a, b[..|b| - 1]);
    }
  }

  lemma BytesAre(n: nat, x: byte)
    ensures SetBytes([]) == 0 && SetBytes([x]) == x
    ensures n == 0 <==> Bytes(n) == []
    ensures n > 0 ==> Bytes(n)[0] != 0
  {
    assert [x][..0] == [];
    NoLeadingZero(n);
  }

  lemma {:induction false} NoLeadingZero(n: nat)
    ensures n > 0 ==> Bytes(n)[0] != 0
  {
    if n >= 256 {
      NoLeadingZero(n / 256);
    }
  }

  function Zeros(k: nat): seq<byte> {
    seq(k, _ => 0)
  }

  lemma {:induction false} SetBytesOfBytes(n: nat)
    ensures SetBytes(Bytes(n)) == n
  {
    if n > 0 {
      SetBytesOfBytes(n / 256);
      assert Bytes(n)[..|Bytes(n)| - 1] == Bytes(n / 256);
    }
  }

  lemma {:induction false} BytesLength(n: nat, k: nat)
    ensures |Bytes(n)| <= k <==> n < Pow256(k)
  {
    if n > 0 && k > 0 {
      BytesLength(n / 256, k - 1);
    }
  }

  lemma {:induction false} LeadingZeros(k: nat, b: seq<byte>)
    ensures SetBytes(Zeros(k) + b) == SetBytes(b)
    decreases |b|, k
  {
    var s := Zeros(k) + b;
    if b != [] {
      assert s[..|s| - 1] == Zeros(k) + b[..|b| - 1];
      LeadingZeros(k, b[..|b| - 1]);
    } else if k > 0 {
      assert s[..|s| - 1] == Zeros(k - 1) + [];
      LeadingZeros(k - 1, []);
    } else {
      assert s == b;
    }
  }

  /** copy(buffer[32-len(b):], b) on a fresh buffer. */
  method PadLeft(b: seq<byte>) returns (padded: seq<byte>)
    requires |b| <= WIDTH
    ensures |padded| == WIDTH && padded == Zeros(WIDTH - |b|) + b
    ensures SetBytes(padded) == SetBytes(b)
  {
    var buffer := new byte[WIDTH](_ => 0);
    for i := 0 to |b|
      invariant forall j :: 0 <= j < WIDTH - |b| ==> buffer[j] == 0
      invariant forall j :: 0 <= j < i ==> buffer[WIDTH - |b| + j] == b[j]
    {
      buffer[WIDTH - |b| + i] := b[i];
    }
    padded := buffer[..];
    assert padded == Zeros(WIDTH - |b|) + b;
    LeadingZeros(WIDTH - |b|, b);
  }

  /******* Hexadecimal *******/

  function HexDigit(n: nat): char
    requires n < 16
  {
    if n < 10 then ('0' as int + n) as char else ('a' as int + n - 10) as char
  }

  function HexValue(c: char): Option<nat> {
    if '0' <= c <= '9' then Some(c as int - '0' as int)
    else if 'a' <= c <= 'f' then Some(c as int - 'a' as int + 10)
    else if 'A' <= c <= 'F' then Some(c as int - 'A' as int + 10)
    else None
  }

  function EncodeHex(b: seq<byte>): string {
    if b == [] then "" else [HexDigit(b[0] / 16), HexDigit(b[0] % 16)] + EncodeHex(b[1..])
  }

  function DecodeHex(s: string): Option<seq<byte>> {
    if s == "" then Some([])
    else if |s| == 1 then None
    else
      var hi, lo, rest := HexValue(s[0]), HexValue(s[1]), DecodeHex(s[2..]);
      if hi.None? || lo.None? || rest.None? then None else Some([(hi.value * 16 + lo.value) % 256] + rest.value)
  }

  /** The sixteen digits, printed in lower case and read in either. */
  lemma HexDigitsAre(c: char, v: nat)
    requires v < 16
    ensures HexDigit(v) == "0123456789abcdef"[v]
    ensures HexValue(c) == Some(v) <==> c == "0123456789abcdef"[v] || c == "0123456789ABCDEF"[v]
    ensures HexValue(c).None? <==> c !in "0123456789abcdefABCDEF"
  {
  }

  /** Only pairs of hexadecimal digits are decoded, each to one byte. */
  lemma {:induction false} DecodeHexIff(s: string)
    ensures DecodeHex(s).Some? <==> |s| % 2 == 0 && forall i :: 0 <= i < |s| ==> HexValue(s[i]).Some?
    ensures DecodeHex(s).Some? ==> |DecodeHex(s).value| * 2 == |s|
    ensures DecodeHex(s).Some? ==>
              forall i :: 0 <= i < |DecodeHex(s).value| ==>
                DecodeHex(s).value[i] == HexValue(s[2 * i]).value * 16 + HexValue(s[2 * i + 1]).value
  {
    if |s| >= 2 {
      DecodeHexIff(s[2..]);
      assert forall i :: 2 <= i < |s| ==> s[2..][i - 2] == s[i];
    }
  }

  lemma HexPair(b: byte)
    ensures HexValue(HexDigit(b / 16)) == Some(b / 16) && HexValue(HexDigit(b % 16)) == Some(b % 16)
    ensures (b / 16 * 16 + b % 16) % 256 == b
  {
  }

  lemma {:induction false} DecodeEncodeHex(b: seq<byte>)
    ensures DecodeHex(EncodeHex(b)) == Some(b)
  {
    if b != [] {
      DecodeEncodeHex(b[1..]);
      var s := EncodeHex(b);
      assert s[0] == HexDigit(b[0] / 16) && s[1] == HexDigit(b[0] % 16) && s[2..] == EncodeHex(b[1..]);
      HexPair(b[0]);
      assert b == [b[0]] + b[1..];
    }
  }

  /******* Signatures *******/

  method PadInteger(n: nat) returns (b: seq<byte>)
    requires n < Pow256(WIDTH)
    ensures |b| == WIDTH && SetBytes(b) == n
  {
    BytesLength(n, WIDTH);
    SetBytesOfBytes(n);
    b := PadLeft(Bytes(n));
  }

  /** The attestation service: r || s, each padded to 32 bytes, in hexadecimal. */
  method EncodeSignature(r: nat, s: nat) returns (signature: string)
    requires r < Pow256(WIDTH) && s < Pow256(WIDTH)
    ensures DecodeSignature(signature) == Some((r, s))
    ensures |signature| == 4 * WIDTH
  {
    var rBytes := PadInteger(r);
    var sBytes := PadInteger(s);
    var sigBytes := rBytes + sBytes;
    signature := EncodeHex(sigBytes);
    HexLength(sigBytes);
    DecodeEncoded(rBytes, sBytes);
  }

  lemma DecodeEncoded(r: seq<byte>, s: seq<byte>)
    requires |r| == |s| == WIDTH
    ensures DecodeSignature(EncodeHex(r + s)) == Some((SetBytes(r), SetBytes(s)))
  {
    DecodeEncodeHex(r + s);
    assert (r + s)[..WIDTH] == r && (r + s)[WIDTH..] == s;
  }

  lemma {:induction false} HexLength(b: seq<byte>)
    ensures |EncodeHex(b)| == 2 * |b|
  {
    if b != [] {
      HexLength(b[1..]);
    }
  }

  /** The verifier: anything but 64 bytes in hexadecimal is rejected. */
  function DecodeSignature(signature: string): Option<(nat, nat)> {
    var b := DecodeHex(signature);
    if b.None? || |b.value| != 2 * WIDTH then None
    else Some((SetBytes(b.value[..WIDTH]), SetBytes(b.value[WIDTH..])))
  }

  /** Exactly 128 hexadecimal digits are accepted: the first 64 are r. */
  lemma DecodeSignatureIs(signature: string)
    ensures DecodeSignature(signature).Some? <==>
            |signature| == 128 && forall i :: 0 <= i < 128 ==> HexValue(signature[i]).Some?
    ensures DecodeSignature(signature).Some? ==>
              var b := DecodeHex(signature).value;
              && |b| == 64 && DecodeSignature(signature) == Some((SetBytes(b[..32]), SetBytes(b[32..])))
              && SetBytes(b) == SetBytes(b[..32]) * Pow256(32) + SetBytes(b[32..])
  {
    DecodeHexIff(signature);
    if DecodeSignature(signature).Some? {
      var b := DecodeHex(signature).value;
      assert b == b[..32] + b[32..];
      SetBytesConcat(b[..32], b[32..]);
    }
  }

  /******* Field elements *******/

  /** The value without its last `cut` bytes. */
  function DropBytes(value: nat, cut: nat): nat {
    if cut == 0 then value else DropBytes(value / 256, cut - 1)
  }

  lemma {:induction false} DropBytesIs(value: nat, cut: nat)
    ensures DropBytes(value, cut) * Pow256(cut) <= value < (DropBytes(value, cut) + 1) * Pow256(cut)
  {
    if cut > 0 {
      DropBytesIs(value / 256, cut - 1);
      Shift(value, DropBytes(value, cut), Pow256(cut - 1));
    }
  }

  lemma Shift(value: nat, d: nat, p: nat)
    requires d * p <= value / 256 < (d + 1) * p
    ensures d * (256 * p) <= value < (d + 1) * (256 * p)
  {
    var x, y := d * p, (d + 1) * p;
    assert d * (256 * p) == 256 * x;
    assert (d + 1) * (256 * p) == 256 * y;
  }

  /** Leading bytes denote the value without its low end. */
  lemma {:induction false} TopBytes(b: seq<byte>, k: nat)
    requires k <= |b|
    ensures SetBytes(b[..k]) == DropBytes(SetBytes(b), |b| - k)
    decreases |b|
  {
    if k < |b| {
      var init := b[..|b| - 1];
      TopBytes(init, k);
      assert init[..k] == b[..k];
      assert SetBytes(b) / 256 == SetBytes(init);
    } else {
      assert b[..k] == b;
    }
  }

  lemma {:induction false} DropIsSmaller(value: nat, cut: nat)
    ensures DropBytes(value, cut) <= value
    ensures value > 0 && cut > 0 ==> DropBytes(value, cut) < value
  {
    if cut > 0 {
      DropIsSmaller(value / 256, cut - 1);
    }
  }

  /** toFieldBytes always gives 32 bytes.  They denote the value exactly when it
      is below 2^256; otherwise they are its top 32 bytes. */
  method ToFieldBytes(v: nat) returns (b: seq<byte>)
    ensures |b| == WIDTH
    ensures SetBytes(b) == v <==> v < Pow256(WIDTH)
    ensures v >= Pow256(WIDTH) ==> |Bytes(v)| > WIDTH && SetBytes(b) == DropBytes(v, |Bytes(v)| - WIDTH)
  {
    var all := Bytes(v);
    BytesLength(v, WIDTH);
    SetBytesOfBytes(v);
    if |all| >= WIDTH {
      TopBytes(all, WIDTH);
      DropIsSmaller(v, |all| - WIDTH);
      return all[..WIDTH];
    }
    b := PadLeft(all);
  }
}
