/** Dial tokens: the bridge mints `device.expiry.signature`, the relay takes it apart and checks it. */
module DialToken {
  import opened Bytes
  import opened Decimal
  import opened Hmac
  import opened Wrappers

  /** UTF-8 and SHA-256. */
  datatype Crypto = Crypto(utf8: string -> bytes, sha256: bytes -> bytes)

  // ---- hexadecimal ----

  function HexChar(n: bv8): char
    requires n < 16
  {
    if n == 0 then '0' else if n == 1 then '1' else if n == 2 then '2' else if n == 3 then '3'
    else if n == 4 then '4' else if n == 5 then '5' else if n == 6 then '6' else if n == 7 then '7'
    else if n == 8 then '8' else if n == 9 then '9' else if n == 10 then 'a' else if n == 11 then 'b'
    else if n == 12 then 'c' else if n == 13 then 'd' else if n == 14 then 'e' else 'f'
  }

  /** Both cases are read. */
  function HexValue(c: char): (n: Option<bv8>)
    ensures n.Some? ==> n.value < 16
  {
    if c == '0' then Some(0) else if c == '1' then Some(1) else if c == '2' then Some(2) else if c == '3' then Some(3)
    else if c == '4' then Some(4) else if c == '5' then Some(5) else if c == '6' then Some(6) else if c == '7' then Some(7)
    else if c == '8' then Some(8) else if c == '9' then Some(9)
    else if c == 'a' || c == 'A' then Some(10) else if c == 'b' || c == 'B' then Some(11)
    else if c == 'c' || c == 'C' then Some(12) else if c == 'd' || c == 'D' then Some(13)
    else if c == 'e' || c == 'E' then Some(14) else if c == 'f' || c == 'F' then Some(15)
    else None
  }

  function HexEncode(bs: bytes): string {
    if bs == [] then "" else [HexChar(bs[0] >> 4), HexChar(bs[0] & 15)] + HexEncode(bs[1..])
  }

  /** An odd length or a character that is no hex digit is an error. */
  function HexDecode(s: string): Option<bytes> {
    if s == "" then Some([])
    else if |s| == 1 then None
    else
      var high, low, rest := HexValue(s[0]), HexValue(s[1]), HexDecode(s[2..]);
      if high.None? || low.None? || rest.None? then None else Some([(high.value << 4) | low.value] + rest.value)
  }

  lemma HexDigitReadsBack(n: bv8)
    requires n < 16
    ensures HexValue(HexChar(n)) == Some(n)
  {}

  lemma Nibbles(b: bv8)
    ensures b >> 4 < 16 && b & 15 < 16 && ((b >> 4) << 4) | (b & 15) == b
  {}

  lemma {:induction false} HexReadsBack(bs: bytes)
    ensures HexDecode(HexEncode(bs)) == Some(bs)
  {
    if bs != [] {
      HexReadsBack(bs[1..]);
      Nibbles(bs[0]);
      HexDigitReadsBack(bs[0] >> 4);
      HexDigitReadsBack(bs[0] & 15);
      assert HexEncode(bs)[2..] == HexEncode(bs[1..]);
      assert bs == [bs[0]] + bs[1..];
    }
  }

  // ---- splitting at dots ----

  predicate NoDot(s: string) { '.' !in s }

  /** What is before the first dot, and what is after it if there is one. */
  function CutDot(s: string): (string, Option<string>) {
    if s == "" then ("", None)
    else if s[0] == '.' then ("", Some(s[1..]))
    else
      var (head, tail) := CutDot(s[1..]);
      ([s[0]] + head, tail)
  }

  /** `splitn(3, '.')`. */
  function SplitThree(s: string): seq<string> {
    var (a, rest) := CutDot(s);
    if rest.None? then [a]
    else
      var (b, last) := CutDot(rest.value);
      if last.None? then [a, b] else [a, b, last.value]
  }

  lemma {:induction false} CutDotIff(s: string, head: string, tail: string)
    ensures CutDot(s) == (head, Some(tail)) <==> NoDot(head) && s == head + "." + tail
  {
    if s != "" && s[0] != '.' {
      if head == "" {
        assert (head + "." + tail)[0] == '.';
      } else {
        CutDotIff(s[1..], head[1..], tail);
        assert head == [head[0]] + head[1..];
        assert (head + "." + tail)[1..] == head[1..] + "." + tail;
        assert s == [s[0]] + s[1..];
        assert NoDot(head) <==> head[0] != '.' && NoDot(head[1..]);
        assert s == head + "." + tail <==> s[0] == head[0] && s[1..] == head[1..] + "." + tail;
      }
    } else if s != "" {
      assert s == "." + s[1..];
      assert head != "" ==> (head + "." + tail)[0] == head[0] && head[0] in head;
      assert head == "" ==> head + "." + tail == "." + tail;
      assert ("." + tail)[1..] == tail;
    }
  }

  lemma SplitThreeIff(s: string, a: string, b: string, c: string)
    ensures SplitThree(s) == [a, b, c] <==> NoDot(a) && NoDot(b) && s == a + "." + b + "." + c
  {
    var (head, rest) := CutDot(s);
    CutDotIff(s, a, b + "." + c);
    assert a + "." + (b + "." + c) == a + "." + b + "." + c;
    if rest.Some? {
      CutDotIff(s, head, rest.value);
      CutDotIff(rest.value, b, c);
      if SplitThree(s) == [a, b, c] { assert head == a && CutDot(rest.value) == (b, Some(c)); }
    }
  }

  // ---- minting and verifying ----

  function Payload(device: string, exp: int): string { device + "." + Print(exp) }

  function Signature(c: Crypto, secret: bytes, device: string, exp: int): bytes {
    Rfc2104(c.sha256, secret, c.utf8(Payload(device, exp)))
  }

  /** `mint_dial_token`. */
  function Mint(c: Crypto, secret: bytes, device: string, exp: int): string {
    Payload(device, exp) + "." + HexEncode(Signature(c, secret, device, exp))
  }

  /** `verify_bridge_dial_token`. */
  function Verify(c: Crypto, token: string, secret: bytes, device: string, now: int): Result<(), string> {
    var parts := SplitThree(token);
    if |parts| != 3 then Err("token_malformed")
    else if parts[0] != device then Err("device_mismatch")
    else
      match ParseI64(parts[1])
      case None => Err("exp_invalid")
      case Some(exp) =>
        if exp < now then Err("token_expired")
        else
          match HexDecode(parts[2])
          case None => Err("sig_invalid_hex")
          case Some(presented) => if presented == Signature(c, secret, device, exp) then Ok(()) else Err("sig_mismatch")
  }

  method MintDialToken(c: Crypto, secret: bytes, device: string, exp: int) returns (token: string)
    requires Digests32(c.sha256)
    ensures token == Mint(c, secret, device, exp)
  {
    var payload := device + "." + Print(exp);
    var sig := HmacSha256(c.sha256, secret, c.utf8(payload));
    token := payload + "." + HexEncode(sig);
  }

  method VerifyBridgeDialToken(c: Crypto, token: string, secret: bytes, device: string, now: int)
    returns (r: Result<(), string>)
    requires Digests32(c.sha256)
    ensures r == Verify(c, token, secret, device, now)
  {
    var parts := SplitThree(token);
    if |parts| != 3 { return Err("token_malformed"); }
    var deviceId, expStr, sigHex := parts[0], parts[1], parts[2];
    if deviceId != device { return Err("device_mismatch"); }
    var exp := ParseI64(expStr);
    if exp.None? { return Err("exp_invalid"); }
    if exp.value < now { return Err("token_expired"); }
    var payload := deviceId + "." + Print(exp.value);
    var expected := HmacSha256(c.sha256, secret, c.utf8(payload));
    var presented := HexDecode(sigHex);
    if presented.None? { return Err("sig_invalid_hex"); }
    var same := CtEq(presented.value, expected);
    if !same { return Err("sig_mismatch"); }
    return Ok(());
  }

  /** The token is the device, some text of the expiry and some text of the signature over both, joined by dots. */
  ghost predicate SignedFor(c: Crypto, token: string, secret: bytes, device: string, exp: int, expText: string, sigText: string) {
    && NoDot(device) && NoDot(expText)
    && token == device + "." + expText + "." + sigText
    && ParseI64(expText) == Some(exp)
    && HexDecode(sigText) == Some(Signature(c, secret, device, exp))
  }

  /** Accepted tokens are exactly the unexpired ones signed for the device. */
  lemma AcceptedIffSigned(c: Crypto, token: string, secret: bytes, device: string, now: int)
    ensures Verify(c, token, secret, device, now).Ok?
       <==> exists exp, expText, sigText :: exp >= now && SignedFor(c, token, secret, device, exp, expText, sigText)
  {
    if Verify(c, token, secret, device, now).Ok? {
      var parts := SplitThree(token);
      SplitThreeIff(token, parts[0], parts[1], parts[2]);
      assert parts == [parts[0], parts[1], parts[2]];
      assert SignedFor(c, token, secret, device, ParseI64(parts[1]).value, parts[1], parts[2]);
    }
    if exp, expText, sigText :| exp >= now && SignedFor(c, token, secret, device, exp, expText, sigText) {
      SplitThreeIff(token, device, expText, sigText);
    }
  }

  lemma PrintHasNoDot(i: int)
    ensures NoDot(Print(i))
  {
    forall c | c in Print(i) ensures c != '.' {}
  }

  lemma FirstPartHasNoDot(s: string)
    ensures NoDot(SplitThree(s)[0])
  {
    CutHasNoDot(s);
  }

  lemma {:induction false} CutHasNoDot(s: string)
    ensures NoDot(CutDot(s).0)
  {
    if s != "" && s[0] != '.' { CutHasNoDot(s[1..]); }
  }

  /** A freshly minted token verifies exactly when the device id has no dot and the expiry is not past. */
  lemma MintedVerifiesIff(c: Crypto, secret: bytes, device: string, exp: int, now: int)
    requires I64_MIN <= exp <= I64_MAX
    ensures Verify(c, Mint(c, secret, device, exp), secret, device, now)
         == if !NoDot(device) then Err("device_mismatch") else if exp < now then Err("token_expired") else Ok(())
  {
    var token := Mint(c, secret, device, exp);
    var expText, sigText := Print(exp), HexEncode(Signature(c, secret, device, exp));
    PrintHasNoDot(exp);
    ParsePrint(exp);
    HexReadsBack(Signature(c, secret, device, exp));
    SplitThreeIff(token, device, expText, sigText);
    if !NoDot(device) { DottedHasThreeParts(device, expText, sigText); }
  }

  lemma DottedHasThreeParts(device: string, expText: string, sigText: string)
    requires !NoDot(device)
    ensures var parts := SplitThree(device + "." + expText + "." + sigText);
      |parts| == 3 && parts[0] != device
  {
    var token := device + "." + expText + "." + sigText;
    FirstPartHasNoDot(token);
    CutInPrefix(device, "." + expText + "." + sigText);
    var (a, rest) := CutDot(device);
    assert token == device + ("." + expText + "." + sigText);
    var tail := rest.value + ("." + expText + "." + sigText);
    assert CutDot(token) == (a, Some(tail));
    assert '.' in tail by { assert tail[|rest.value|] == '.'; }
    CutFindsDot(tail);
  }

  lemma {:induction false} CutInPrefix(s: string, t: string)
    requires !NoDot(s)
    ensures CutDot(s).1.Some? && CutDot(s + t) == (CutDot(s).0, Some(CutDot(s).1.value + t))
  {
    assert (s + t)[1..] == s[1..] + t;
    if s[0] != '.' {
      assert s == [s[0]] + s[1..];
      CutInPrefix(s[1..], t);
    }
  }

  lemma {:induction false} CutFindsDot(s: string)
    requires !NoDot(s)
    ensures CutDot(s).1.Some?
  {
    if s[0] != '.' {
      assert s == [s[0]] + s[1..];
      CutFindsDot(s[1..]);
    }
  }
}
