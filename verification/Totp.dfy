/** Time-based one-time codes (totp.go): section 5.3 of RFC 4226 under sections 4.2 and 5.2
    of RFC 6238, with HMAC-SHA1 left as any function to 20 bytes. */
module Totp {
  import opened Domain
  import Base32
  import D = Digits

  type Byte = Base32.Byte
  type Mac = m: seq<Byte> | |m| == 20 witness seq(20, _ => 0)
  type Hmac = (seq<Byte>, seq<Byte>) -> Mac

  const PERIOD: nat := 30
  const DIGITS: nat := 6
  const TWO_64: nat := 0x1_0000_0000_0000_0000

  /** Go's integer division, which truncates toward zero, then the conversion to uint64. */
  function Counter(unix: int): nat {
    (if unix >= 0 then unix / PERIOD else -((-unix) / PERIOD)) % TWO_64
  }

  function ToBytes(ds: seq<nat>): (bs: seq<Byte>)
    requires D.Below(ds, 256)
    ensures |bs| == |ds| && forall i :: 0 <= i < |ds| ==> bs[i] == ds[i]
  {
    seq(|ds|, i requires 0 <= i < |ds| => ds[i])
  }

  /** binary.BigEndian.PutUint64 */
  function BigEndian(counter: nat): (buf: seq<Byte>)
    ensures |buf| == 8
  {
    ToBytes(D.Digits(counter, 256, 8))
  }

  lemma Masks(a: nat)
    ensures D.BitAnd(a, 0x0f) == a % 0x10 && D.BitAnd(a, 0x7fff_ffff) == a % 0x8000_0000
  {
    assert D.Pow(2, 4) == 0x10 && D.Pow(2, 31) == 0x8000_0000 by {
      assert D.Pow(2, 7) == 0x80 && D.Pow(2, 12) == 0x1000;
      assert D.Pow(2, 17) == 0x2_0000 && D.Pow(2, 22) == 0x40_0000;
      assert D.Pow(2, 27) == 0x800_0000;
    }
    D.MaskIsRemainder(a, 4);
    D.MaskIsRemainder(a, 31);
  }

  /** The low nibble of the last byte picks four bytes; their top bit is masked out. */
  function Truncate(h: Mac): (v: nat)
    ensures v < 0x8000_0000
  {
    Masks(h[19]);
    var offset := D.BitAnd(h[19], 0x0f);
    var word := D.Value(h[offset..offset + 4], 256);
    Masks(word);
    D.BitAnd(word, 0x7fff_ffff)
  }

  function DecimalChar(d: nat): char
    requires d < 10
  {
    '0' + d as char
  }

  /** fmt's %06d for a number of at most six digits. */
  function Print(n: nat): (s: string)
    ensures |s| == DIGITS
  {
    var ds := D.Digits(n, 10, DIGITS);
    seq(DIGITS, i requires 0 <= i < DIGITS => DecimalChar(ds[i]))
  }

  function ParseDecimal(s: string): Option<nat> {
    if s == [] then Some(0)
    else
      var init := ParseDecimal(s[..|s| - 1]);
      if init.Some? && '0' <= s[|s| - 1] <= '9'
      then Some(init.value * 10 + (s[|s| - 1] - '0') as nat) else None
  }

  function CodeOfMac(h: Mac): string {
    Print(Truncate(h) % 1_000_000)
  }

  /** The code of a counter value, if the secret decodes. */
  function CodeAt(hmac: Hmac, secret: string, counter: nat): Option<string> {
    var key := Base32.KeyOf(secret);
    if key.None? then None else Some(CodeOfMac(hmac(key.value, BigEndian(counter))))
  }

  function Code(hmac: Hmac, secret: string, unix: int): Option<string> {
    CodeAt(hmac, secret, Counter(unix))
  }

  /** Some counter from lo to hi has this code. */
  ghost predicate CodeAmong(hmac: Hmac, secret: string, code: string, lo: nat, hi: nat) {
    exists c: nat :: lo <= c <= hi && CodeAt(hmac, secret, c) == Some(code)
  }

  /** What ValidateCode accepts at a Unix time. */
  predicate Accepts(hmac: Hmac, secret: string, code: string, now: int) {
    || Code(hmac, secret, now - PERIOD) == Some(code)
    || Code(hmac, secret, now) == Some(code)
    || Code(hmac, secret, now + PERIOD) == Some(code)
  }

  // ---------- the manager's methods ----------

  const ISSUER := "Enterprise Auth"

  function ProvisioningUri(email: string, secret: string): string {
    "otpauth://totp/" + ISSUER + ":" + email + "?secret=" + secret + "&issuer=" + ISSUER +
    "&algorithm=SHA1&digits=6&period=30"
  }

  /** random stands for what crypto/rand filled in. */
  method GenerateSecret(random: seq<Byte>) returns (secret: string)
    requires |random| == 20
    ensures |secret| == 32 && Base32.KeyOf(secret) == Some(random)
  {
    var bytes := new Byte[20];
    for i := 0 to 20
      invariant bytes[..i] == random[..i]
    {
      bytes[i] := random[i];
    }
    assert bytes[..] == bytes[..20] == random;
    secret := Base32.Encode(bytes[..]);
    Base32.EncodeIsLetters(random);
    LettersAreUpper(secret);
    Base32.SecretSurvivesTyping(random, secret, [], []);
    assert [] + secret + [] == secret;
  }

  lemma LettersAreUpper(s: string)
    requires Base32.AllLetters(s)
    ensures Base32.ToUpper(s) == s
  {
    forall i | 0 <= i < |s| ensures Base32.UpperChar(s[i]) == s[i] {
      assert Base32.IsLetter(s[i]);
    }
  }

  method GenerateCode(hmac: Hmac, secret: string, unix: int) returns (code: Option<string>)
    ensures code == Code(hmac, secret, unix)
  {
    hide D.Digits, D.Value, D.BitAnd, Print, Base32.Decode, Base32.ToUpper, Base32.TrimSpace, Counter;
    var key := Base32.Decode(Base32.ToUpper(Base32.TrimSpace(secret)));
    if key.None? {
      return None;
    }
    var buf := new Byte[8];
    var counter := Counter(unix);
    var ds := D.Digits(counter, 256, 8);
    for i := 0 to 8
      invariant forall j :: 0 <= j < i ==> buf[j] == ds[j]
    {
      buf[i] := ds[i];
    }
    assert buf[..] == BigEndian(counter);
    var h := hmac(key.value, buf[..]);
    Masks(h[|h| - 1]);
    var offset := D.BitAnd(h[|h| - 1], 0x0f);
    var truncated := D.BitAnd(D.Value(h[offset..offset + 4], 256), 0x7fff_ffff);
    Masks(D.Value(h[offset..offset + 4], 256));
    return Some(Print(truncated % 1_000_000));
  }

  method ValidateCode(hmac: Hmac, secret: string, code: string, now: int) returns (ok: bool)
    ensures ok == Accepts(hmac, secret, code, now)
  {
    hide CodeAt;
    var offsets := [-1, 0, 1];
    for i := 0 to 3
      invariant forall j :: 0 <= j < i ==> Code(hmac, secret, now + offsets[j] * PERIOD) != Some(code)
    {
      var expected := GenerateCode(hmac, secret, now + offsets[i] * PERIOD);
      if expected == Some(code) {
        return true;
      }
    }
    assert Code(hmac, secret, now + offsets[0] * PERIOD) != Some(code);
    assert Code(hmac, secret, now + offsets[1] * PERIOD) != Some(code);
    assert Code(hmac, secret, now + offsets[2] * PERIOD) != Some(code);
    return false;
  }

  // ---------- truncation and printing ----------

  lemma ValueOfFour(p: seq<nat>)
    requires |p| == 4
    ensures D.Value(p, 256) == p[0] * 0x100_0000 + p[1] * 0x1_0000 + p[2] * 0x100 + p[3]
  {
    var p1, p2, p3 := p[..1], p[..2], p[..3];
    assert p1[..0] == [] && p2[..1] == p1 && p3[..2] == p2;
    assert D.Value(p1, 256) == p[0];
    assert D.Value(p2, 256) == p[0] * 0x100 + p[1];
    assert D.Value(p3, 256) == p[0] * 0x1_0000 + p[1] * 0x100 + p[2];
  }

  lemma DropTopBit(b: Byte, rest: nat)
    requires rest < 0x100_0000
    ensures (b * 0x100_0000 + rest) % 0x8000_0000 == b % 0x80 * 0x100_0000 + rest
  {
  }

  /** The dynamic truncation as section 5.3 of RFC 4226 writes it, byte by byte. */
  lemma TruncateIsRfc4226(h: Mac)
    ensures var o: nat := h[19] % 0x10;
            var b0: nat, b1: nat, b2: nat, b3: nat := h[o], h[o + 1], h[o + 2], h[o + 3];
            Truncate(h) == b0 % 0x80 * 0x100_0000 + b1 * 0x1_0000 + b2 * 0x100 + b3
  {
    hide D.Value, D.BitAnd;
    var o: nat := h[19] % 0x10;
    var p: seq<nat> := h[o..o + 4];
    Masks(h[19]);
    Masks(D.Value(p, 256));
    ValueOfFour(p);
    assert p[0] == h[o] && p[1] == h[o + 1] && p[2] == h[o + 2] && p[3] == h[o + 3];
    DropTopBit(h[o], p[1] * 0x1_0000 + p[2] * 0x100 + p[3]);
  }

  lemma {:induction false} ParseDigits(ds: seq<nat>, s: string)
    requires D.Below(ds, 10) && |s| == |ds| && forall i :: 0 <= i < |s| ==> s[i] == DecimalChar(ds[i])
    ensures ParseDecimal(s) == Some(D.Value(ds, 10))
  {
    if ds != [] {
      ParseDigits(ds[..|ds| - 1], s[..|s| - 1]);
    }
  }

  /** A code is six decimal digits that read back as the truncated value modulo 10^6. */
  lemma CodeIsSixDigits(h: Mac)
    ensures |CodeOfMac(h)| == 6 && forall c :: c in CodeOfMac(h) ==> '0' <= c <= '9'
    ensures ParseDecimal(CodeOfMac(h)) == Some(Truncate(h) % 1_000_000)
  {
    var n := Truncate(h) % 1_000_000;
    ParseDigits(D.Digits(n, 10, 6), Print(n));
    assert D.Pow(10, 6) == 1_000_000 by {
      assert D.Pow(10, 3) == 1000;
    }
    D.ValueOfDigits(n, 10, 6);
  }

  /** The counter field can be read back, so different counters feed the MAC different bytes. */
  lemma CounterRoundTrip(counter: nat)
    requires counter < TWO_64
    ensures D.Value(BigEndian(counter), 256) == counter
  {
    assert D.Pow(256, 8) == TWO_64 by {
      assert D.Pow(256, 3) == 0x100_0000;
      assert D.Pow(256, 6) == 0x1_0000_0000_0000;
    }
    assert BigEndian(counter) == D.Digits(counter, 256, 8);
    D.ValueOfDigits(counter, 256, 8);
  }

  // ---------- the code of a secret and a counter, from end to end ----------

  /** The value of section 5.3 of RFC 4226, byte by byte. */
  function Rfc4226(h: Mac): nat {
    var o := h[19] % 16;
    var b0: nat, b1: nat, b2: nat, b3: nat := h[o], h[o + 1], h[o + 2], h[o + 3];
    b0 % 128 * 16_777_216 + b1 * 65_536 + b2 * 256 + b3
  }

  /** s is n as six decimal digits. */
  predicate SixDigits(s: string, n: nat) {
    && |s| == 6 && (forall i :: 0 <= i < 6 ==> '0' <= s[i] <= '9')
    && (s[0] - '0') as int * 100_000 + (s[1] - '0') as int * 10_000 + (s[2] - '0') as int * 1000 +
       (s[3] - '0') as int * 100 + (s[4] - '0') as int * 10 + (s[5] - '0') as int == n
  }

  lemma ParsedIsSixDigits(s: string, n: nat)
    requires |s| == 6 && ParseDecimal(s) == Some(n)
    ensures SixDigits(s, n)
  {
    var s5, s4, s3, s2, s1 := s[..5], s[..4], s[..3], s[..2], s[..1];
    assert s5[..4] == s4 && s4[..3] == s3 && s3[..2] == s2 && s2[..1] == s1 && s1[..0] == [];
    assert ParseDecimal(s5).Some? && ParseDecimal(s4).Some? && ParseDecimal(s3).Some?;
    assert ParseDecimal(s2).Some? && ParseDecimal(s1).Some?;
    assert ParseDecimal(s1) == Some((s[0] - '0') as nat);
    assert ParseDecimal(s2) == Some((s[0] - '0') as nat * 10 + (s[1] - '0') as nat);
    assert ParseDecimal(s3) == Some((s[0] - '0') as nat * 100 + (s[1] - '0') as nat * 10 + (s[2] - '0') as nat);
  }

  lemma FieldOfCounter(counter: nat, field: seq<Byte>)
    requires |field| == 8 && D.Value(field, 256) == counter
    ensures BigEndian(counter) == field
  {
    D.DigitsOfValue(field, 256);
  }

  /** For every 20-byte key, every way of typing its secret and every 64-bit counter: the code is the six
      digits of the value of section 5.3 of RFC 4226 of the MAC of the eight-byte counter field. */
  lemma CodeOfSecret(hmac: Hmac, key: seq<Byte>, typed: string, pre: string, post: string, counter: nat,
          field: seq<Byte>)
    requires |key| == 20 && Base32.ToUpper(typed) == Base32.Encode(key)
    requires forall c :: c in pre + post ==> Base32.IsSpace(c)
    requires |field| == 8 && D.Value(field, 256) == counter
    ensures var code := CodeAt(hmac, pre + typed + post, counter);
            code.Some? && SixDigits(code.value, Rfc4226(hmac(key, field)) % 1_000_000)
  {
    hide D.Value, Truncate, ParseDecimal, Base32.ToUpper, Base32.Encode, Base32.KeyOf, CodeOfMac, SixDigits;
    Base32.SecretSurvivesTyping(key, typed, pre, post);
    FieldOfCounter(counter, field);
    var h := hmac(key, field);
    CodeIsSixDigits(h);
    TruncateIsRfc4226(h);
    ParsedIsSixDigits(CodeOfMac(h), Rfc4226(h) % 1_000_000);
  }

  lemma CounterIsHalfMinutes(unix: nat)
    requires unix / 30 < TWO_64
    ensures Counter(unix) == unix / 30
  {
  }

  /** The same at a Unix time: the field is that of the number of half minutes since the epoch. */
  lemma CodeAtTime(hmac: Hmac, key: seq<Byte>, typed: string, pre: string, post: string, unix: nat,
          field: seq<Byte>)
    requires |key| == 20 && Base32.ToUpper(typed) == Base32.Encode(key)
    requires forall c :: c in pre + post ==> Base32.IsSpace(c)
    requires unix / 30 < TWO_64 && |field| == 8 && D.Value(field, 256) == unix / 30
    ensures var code := Code(hmac, pre + typed + post, unix);
            code.Some? && SixDigits(code.value, Rfc4226(hmac(key, field)) % 1_000_000)
  {
    hide CodeAt, D.Value, Rfc4226, SixDigits, Base32.ToUpper, Base32.Encode, Counter;
    CounterIsHalfMinutes(unix);
    CodeOfSecret(hmac, key, typed, pre, post, unix / 30, field);
  }

  // ---------- the acceptance window ----------

  lemma StepCounters(now: int)
    requires PERIOD <= now < TWO_64 - PERIOD
    ensures Counter(now - PERIOD) == now / PERIOD - 1
    ensures Counter(now) == now / PERIOD
    ensures Counter(now + PERIOD) == now / PERIOD + 1
  {
    assert now < TWO_64 && now + PERIOD < TWO_64;
  }

  /** Exactly the codes of the previous, the current and the next time step are accepted. */
  lemma AcceptanceWindow(hmac: Hmac, secret: string, code: string, now: int)
    requires PERIOD <= now < TWO_64 - PERIOD
    ensures Accepts(hmac, secret, code, now) <==>
            CodeAmong(hmac, secret, code, now / PERIOD - 1, now / PERIOD + 1)
  {
    hide CodeAt;
    var t := now / PERIOD;
    StepCounters(now);
    if CodeAmong(hmac, secret, code, t - 1, t + 1) {
      var c: nat :| t - 1 <= c <= t + 1 && CodeAt(hmac, secret, c) == Some(code);
      assert c == t - 1 || c == t || c == t + 1;
    }
  }

  /** A code made at t is accepted throughout the 30 seconds before and after. */
  lemma DriftTolerated(hmac: Hmac, secret: string, code: string, t: nat, now: int)
    requires PERIOD <= now < TWO_64 - PERIOD && t - PERIOD <= now <= t + PERIOD
    requires Code(hmac, secret, t) == Some(code)
    ensures Accepts(hmac, secret, code, now)
  {
    hide CodeAt;
    AcceptanceWindow(hmac, secret, code, now);
    assert CodeAt(hmac, secret, t / PERIOD) == Some(code);
  }

  /** A time step is in the window during exactly 90 consecutive seconds. */
  lemma WindowLasts90Seconds(c: nat, now: int)
    requires c >= 1 && now >= PERIOD
    ensures now / PERIOD - 1 <= c <= now / PERIOD + 1 <==>
            c * PERIOD - PERIOD <= now < c * PERIOD - PERIOD + 90
  {
    assert now == now / PERIOD * PERIOD + now % PERIOD;
  }

  /** Before the second time step the window is not three steps wide: at time 0 it reaches back
      to the largest 64-bit counter, and during the rest of the first step it only has two. */
  lemma WindowAtTheEpoch(hmac: Hmac, secret: string, code: string, now: int)
    requires 0 <= now < PERIOD
    ensures Accepts(hmac, secret, code, now) <==>
            CodeAmong(hmac, secret, code, 0, 1) || (now == 0 && CodeAt(hmac, secret, TWO_64 - 1) == Some(code))
  {
    assert Counter(now - PERIOD) == if now == 0 then TWO_64 - 1 else 0;
    assert Counter(now) == 0 && Counter(now + PERIOD) == 1;
    if CodeAmong(hmac, secret, code, 0, 1) {
      var c: nat :| 0 <= c <= 1 && CodeAt(hmac, secret, c) == Some(code);
      assert c == 0 || c == 1;
    }
  }
}
