/** Unpadded base32 (section 6 of RFC 4648) as the standard Go library reads it, with the trim and
    upper-case that precede it in totp.go. */
module Base32 {
  import opened Domain
  import D = Digits

  type Byte = b: nat | b < 256

  function Letter(d: nat): char
    requires d < 32
  {
    if d < 26 then 'A' + d as char else '2' + (d - 26) as char
  }

  function DigitOf(c: char): Option<nat> {
    if 'A' <= c <= 'Z' then Some((c - 'A') as nat)
    else if '2' <= c <= '7' then Some((c - '2') as nat + 26)
    else None
  }

  function Letters(ds: seq<nat>): (s: string)
    requires D.Below(ds, 32)
    ensures |s| == |ds| && forall i :: 0 <= i < |ds| ==> s[i] == Letter(ds[i])
  {
    seq(|ds|, i requires 0 <= i < |ds| => Letter(ds[i]))
  }

  function DigitsOf(s: string): (r: Option<seq<nat>>)
    ensures r.Some? ==> |r.value| == |s| && D.Below(r.value, 32)
  {
    if s == [] then Some([])
    else
      var init, last := DigitsOf(s[..|s| - 1]), DigitOf(s[|s| - 1]);
      if init.Some? && last.Some? then Some(init.value + [last.value]) else None
  }

  /** Every five bytes become eight letters; a TOTP secret is four such groups. */
  function Encode(bytes: seq<Byte>): string
    requires |bytes| % 5 == 0
  {
    if bytes == [] then ""
    else Letters(D.Digits(D.Value(bytes[..5], 256), 32, 8)) + Encode(bytes[5..])
  }

  /** How many bytes the decoder takes from a last group of j letters; from 1, 3 or 6 it takes none. */
  function GroupBytes(j: nat): nat
    requires j <= 8
  {
    [0, 0, 1, 0, 2, 3, 0, 4, 5][j]
  }

  function DecodeGroup(ds: seq<nat>): seq<Byte>
    requires |ds| <= 8
  {
    var n := GroupBytes(|ds|);
    var spare := D.Pow(2, if 5 * |ds| >= 8 * n then 5 * |ds| - 8 * n else 0);
    if spare == 0 then [] else D.Digits(D.Value(ds, 32) / spare, 256, n)
  }

  function DecodeLetters(s: string): Option<seq<Byte>> {
    if s == [] then Some([])
    else
      var n := if |s| < 8 then |s| else 8;
      var group, rest := DigitsOf(s[..n]), DecodeLetters(s[n..]);
      if group.Some? && rest.Some? then Some(DecodeGroup(group.value) + rest.value) else None
  }

  function StripNewlines(s: string): string {
    if s == [] then []
    else if s[0] == '\n' || s[0] == '\r' then StripNewlines(s[1..])
    else [s[0]] + StripNewlines(s[1..])
  }

  function Decode(s: string): Option<seq<Byte>> {
    DecodeLetters(StripNewlines(s))
  }

  // ---------- trim and upper-case ----------

  predicate IsSpace(c: char) {
    c in {' ', '\t', '\n', '\r', '\U{000B}', '\U{000C}'}
  }

  function TrimLeft(s: string): string {
    if s != [] && IsSpace(s[0]) then TrimLeft(s[1..]) else s
  }

  function TrimRight(s: string): string {
    if s != [] && IsSpace(s[|s| - 1]) then TrimRight(s[..|s| - 1]) else s
  }

  function TrimSpace(s: string): string {
    TrimRight(TrimLeft(s))
  }

  function UpperChar(c: char): char {
    if 'a' <= c <= 'z' then c - 'a' + 'A' else c
  }

  function ToUpper(s: string): (r: string)
    ensures |r| == |s| && forall i :: 0 <= i < |s| ==> r[i] == UpperChar(s[i])
  {
    seq(|s|, i requires 0 <= i < |s| => UpperChar(s[i]))
  }

  /** The HMAC key a stored or typed secret stands for. */
  function KeyOf(secret: string): Option<seq<Byte>> {
    Decode(ToUpper(TrimSpace(secret)))
  }

  // ---------- the standard's alphabet and grouping ----------

  const ALPHABET := "ABCDEFGHIJKLMNOPQRSTUVWXYZ234567"

  /** Table 3 of RFC 4648. */
  lemma LetterIsRfc4648(d: nat)
    requires d < 32
    ensures Letter(d) == ALPHABET[d] && DigitOf(ALPHABET[d]) == Some(d)
  {
  }

  /** A group of five bytes and its eight letters are the same 40-bit number, first digit most significant. */
  lemma GroupIsRfc4648(bytes: seq<Byte>)
    requires |bytes| == 5
    ensures var s, digits := Encode(bytes), DigitsOf(Encode(bytes));
            |s| == 8 && digits.Some? && D.Value(digits.value, 32) == D.Value(bytes, 256)
  {
    var n := D.Value(bytes, 256);
    D.DigitsOfValue(bytes, 256);
    GroupPowers();
    D.ValueOfDigits(n, 32, 8);
    DigitsOfLetters(D.Digits(n, 32, 8));
    assert bytes[..5] == bytes && bytes[5..] == [];
    assert Encode(bytes) == Letters(D.Digits(n, 32, 8));
  }

  lemma GroupPowers()
    ensures D.Pow(256, 5) == D.Pow(32, 8)
  {
    assert D.Pow(256, 3) == 0x1_00_00_00;
    assert D.Pow(32, 3) == 0x80_00;
    assert D.Pow(32, 6) == 0x4000_0000;
  }

  // ---------- round trips ----------

  predicate IsLetter(c: char) {
    DigitOf(c).Some?
  }

  predicate AllLetters(s: string) {
    forall i :: 0 <= i < |s| ==> IsLetter(s[i])
  }

  lemma {:induction false} DigitsOfLetters(ds: seq<nat>)
    requires D.Below(ds, 32)
    ensures DigitsOf(Letters(ds)) == Some(ds)
  {
    if ds != [] {
      var init := ds[..|ds| - 1];
      DigitsOfLetters(init);
      assert Letters(ds)[..|ds| - 1] == Letters(init);
      assert ds == init + [ds[|ds| - 1]];
    }
  }

  lemma GroupRoundTrip(bytes: seq<Byte>)
    requires |bytes| == 5
    ensures DecodeGroup(D.Digits(D.Value(bytes, 256), 32, 8)) == bytes
  {
    var n := D.Value(bytes, 256);
    D.DigitsOfValue(bytes, 256);
    GroupPowers();
    D.ValueOfDigits(n, 32, 8);
    assert D.Pow(2, 0) == 1;
  }

  /** A last group of one to four bytes is written in 2, 4, 5 or 7 letters, filled up with zero bits, and read
      back from them; from 1, 3 or 6 letters nothing is read. */
  lemma LastGroup(bytes: seq<Byte>, letters: nat, spare: nat)
    requires |bytes| < 5
    requires (|bytes|, letters, spare) in {(1, 2, 2), (2, 4, 4), (3, 5, 1), (4, 7, 3)}
    ensures DecodeGroup(D.Digits(D.Value(bytes, 256) * D.Pow(2, spare), 32, letters)) == bytes
  {
    hide D.Value, D.Digits, D.Pow;
    var n := D.Value(bytes, 256);
    D.DigitsOfValue(bytes, 256);
    LastFits(n, |bytes|, letters, spare);
    D.ValueOfDigits(n * D.Pow(2, spare), 32, letters);
  }

  lemma LastFits(n: nat, count: nat, letters: nat, spare: nat)
    requires (count, letters, spare) in {(1, 2, 2), (2, 4, 4), (3, 5, 1), (4, 7, 3)} && n < D.Pow(256, count)
    ensures D.Pow(2, spare) > 0 && n * D.Pow(2, spare) / D.Pow(2, spare) == n
    ensures n * D.Pow(2, spare) < D.Pow(32, letters)
  {
    hide D.Pow;
    LastPowers();
  }

  lemma LastPowers()
    ensures D.Pow(2, 1) == 2 && D.Pow(2, 2) == 4 && D.Pow(2, 3) == 8 && D.Pow(2, 4) == 16
    ensures D.Pow(256, 1) == 256 && D.Pow(256, 2) == 0x1_0000 && D.Pow(256, 3) == 0x100_0000
    ensures D.Pow(256, 4) == 0x1_0000_0000
    ensures D.Pow(32, 2) == 0x400 && D.Pow(32, 4) == 0x10_0000 && D.Pow(32, 5) == 0x200_0000
    ensures D.Pow(32, 7) == 0x8_0000_0000
  {
    assert D.Pow(2, 2) == 4 && D.Pow(256, 2) == 0x1_0000 && D.Pow(32, 2) == 0x400;
    assert D.Pow(32, 4) == 0x10_0000;
    assert D.Pow(32, 6) == 0x4000_0000;
  }

  lemma ShortGroup(ds: seq<nat>)
    requires |ds| in {1, 3, 6}
    ensures DecodeGroup(ds) == []
  {
  }

  lemma {:induction false} EncodeIsLetters(bytes: seq<Byte>)
    requires |bytes| % 5 == 0
    ensures |Encode(bytes)| == |bytes| / 5 * 8
    ensures AllLetters(Encode(bytes))
  {
    if bytes != [] {
      EncodeIsLetters(bytes[5..]);
    }
  }

  lemma {:induction false} StripLetters(s: string)
    requires AllLetters(s)
    ensures StripNewlines(s) == s
  {
    if s != [] {
      assert s == [s[0]] + s[1..];
      StripLetters(s[1..]);
    }
  }

  lemma FirstGroup(ds: seq<nat>, rest: string)
    requires |ds| == 8 && D.Below(ds, 32) && DecodeLetters(rest).Some?
    ensures DecodeLetters(Letters(ds) + rest) == Some(DecodeGroup(ds) + DecodeLetters(rest).value)
  {
    hide DecodeGroup;
    var s := Letters(ds) + rest;
    assert s[..8] == Letters(ds) && s[8..] == rest;
    DigitsOfLetters(ds);
  }

  lemma EmptyGroup()
    ensures DecodeGroup([]) == []
  {
    assert D.Pow(2, 0) == 1;
  }

  lemma OnlyGroup(ds: seq<nat>)
    requires |ds| < 8 && D.Below(ds, 32)
    ensures DecodeLetters(Letters(ds)) == Some(DecodeGroup(ds))
  {
    EmptyGroup();
    hide DecodeGroup;
    var s := Letters(ds);
    assert s[..|s|] == s && s[|s|..] == [];
    assert DecodeLetters([]) == Some([]) && DecodeGroup(ds) + [] == DecodeGroup(ds);
    DigitsOfLetters(ds);
  }

  lemma EncodeFirst(bytes: seq<Byte>) returns (group: seq<nat>)
    requires |bytes| % 5 == 0 && bytes != []
    ensures |group| == 8 && D.Below(group, 32) && Encode(bytes) == Letters(group) + Encode(bytes[5..])
    ensures DecodeGroup(group) == bytes[..5]
  {
    hide D.Digits, D.Value, DecodeGroup, Letters;
    group := D.Digits(D.Value(bytes[..5], 256), 32, 8);
    GroupRoundTrip(bytes[..5]);
  }

  /** Letters after whole groups are read as a group of their own. */
  lemma {:induction false} LastGroupAppends(bytes: seq<Byte>, ds: seq<nat>)
    requires |bytes| % 5 == 0 && D.Below(ds, 32) && |ds| < 8
    ensures DecodeLetters(Encode(bytes) + Letters(ds)) == Some(bytes + DecodeGroup(ds))
  {
    hide DecodeLetters, DecodeGroup, Letters;
    if bytes == [] {
      assert Encode(bytes) + Letters(ds) == Letters(ds);
      OnlyGroup(ds);
      assert bytes + DecodeGroup(ds) == DecodeGroup(ds);
    } else {
      hide Encode;
      var group := EncodeFirst(bytes);
      LastGroupAppends(bytes[5..], ds);
      FirstGroup(group, Encode(bytes[5..]) + Letters(ds));
      assert Encode(bytes) + Letters(ds) == Letters(group) + (Encode(bytes[5..]) + Letters(ds));
      assert bytes + DecodeGroup(ds) == bytes[..5] + (bytes[5..] + DecodeGroup(ds));
    }
  }

  lemma LettersRoundTrip(bytes: seq<Byte>)
    requires |bytes| % 5 == 0
    ensures DecodeLetters(Encode(bytes)) == Some(bytes)
  {
    LastGroupAppends(bytes, []);
    EmptyGroup();
    assert Encode(bytes) + Letters([]) == Encode(bytes) && bytes + [] == bytes;
  }

  predicate AllIn(s: string, chars: string) {
    forall c :: c in s ==> c in chars
  }

  lemma AllInSplits(s: string, n: nat, chars: string)
    requires n <= |s|
    ensures AllIn(s, chars) <==> AllIn(s[..n], chars) && AllIn(s[n..], chars)
  {
    assert s == s[..n] + s[n..];
  }

  lemma DigitIsLetter(c: char)
    requires DigitOf(c).Some?
    ensures DigitOf(c).value < 32 && Letter(DigitOf(c).value) == c && c in ALPHABET
  {
    LetterIsRfc4648(DigitOf(c).value);
  }

  lemma LettersOnly(c: char)
    ensures DigitOf(c).Some? <==> c in ALPHABET
  {
    hide DigitOf, Letter;
    if c in ALPHABET {
      var i :| 0 <= i < 32 && ALPHABET[i] == c;
      LetterIsRfc4648(i);
    } else if DigitOf(c).Some? {
      DigitIsLetter(c);
    }
  }

  lemma {:induction false} DigitsExactlyWhenLetters(s: string)
    ensures DigitsOf(s).Some? <==> AllIn(s, ALPHABET)
  {
    if s != [] {
      var init, last := s[..|s| - 1], s[|s| - 1..];
      DigitsExactlyWhenLetters(init);
      AllInSplits(s, |s| - 1, ALPHABET);
      LettersOnly(s[|s| - 1]);
      assert last == [s[|s| - 1]];
    }
  }

  lemma {:induction false} DecodesExactlyWhenLetters(s: string)
    ensures DecodeLetters(s).Some? <==> AllIn(s, ALPHABET)
  {
    if s != [] {
      var n := if |s| < 8 then |s| else 8;
      DigitsExactlyWhenLetters(s[..n]);
      DecodesExactlyWhenLetters(s[n..]);
      AllInSplits(s, n, ALPHABET);
    }
  }

  lemma {:induction false} StripRemovesNewlines(s: string)
    ensures forall c :: c in StripNewlines(s) <==> c in s && c != '\n' && c != '\r'
  {
    if s != [] {
      StripRemovesNewlines(s[1..]);
      assert s == [s[0]] + s[1..];
    }
  }

  /** A secret with spaces around it is a key if and only if every character left is a letter of the alphabet
      in either case or a line break. */
  lemma KeyExactlyWhenLetters(pre: string, core: string, post: string)
    requires forall c :: c in pre + post ==> IsSpace(c)
    requires if core == [] then post == [] else !IsSpace(core[0]) && !IsSpace(core[|core| - 1])
    ensures KeyOf(pre + core + post).Some? <==>
            forall c :: c in core ==> c == '\n' || c == '\r' || UpperChar(c) in ALPHABET
  {
    assert pre + core + post == pre + (core + post);
    assert forall c :: c in pre ==> c in pre + post;
    assert forall c :: c in post ==> c in pre + post;
    TrimLeftSpaces(pre, core + post);
    TrimRightSpaces(core, post);
    var upper := ToUpper(core);
    StripRemovesNewlines(upper);
    DecodesExactlyWhenLetters(StripNewlines(upper));
    UpperKeepsBreaks(core);
  }

  lemma UpperKeepsBreaks(s: string)
    ensures (forall c :: c in ToUpper(s) ==> c == '\n' || c == '\r' || c in ALPHABET) <==>
            (forall c :: c in s ==> c == '\n' || c == '\r' || UpperChar(c) in ALPHABET)
  {
    forall c | c in s ensures UpperChar(c) in ToUpper(s) {
      var i :| 0 <= i < |s| && s[i] == c;
      assert ToUpper(s)[i] == UpperChar(c);
    }
  }

  /** What was encoded is decoded. */
  lemma RoundTrip(bytes: seq<Byte>)
    requires |bytes| % 5 == 0
    ensures Decode(Encode(bytes)) == Some(bytes)
  {
    EncodeIsLetters(bytes);
    StripLetters(Encode(bytes));
    LettersRoundTrip(bytes);
  }

  lemma {:induction false} TrimLeftSpaces(pre: string, s: string)
    requires forall c :: c in pre ==> IsSpace(c)
    requires s != [] ==> !IsSpace(s[0])
    ensures TrimLeft(pre + s) == s
  {
    if pre == [] {
      assert pre + s == s;
    } else {
      assert (pre + s)[1..] == pre[1..] + s;
      TrimLeftSpaces(pre[1..], s);
    }
  }

  lemma {:induction false} TrimRightSpaces(s: string, post: string)
    requires forall c :: c in post ==> IsSpace(c)
    requires s != [] ==> !IsSpace(s[|s| - 1])
    ensures TrimRight(s + post) == s
  {
    if post == [] {
      assert s + post == s;
    } else {
      assert (s + post)[..|s + post| - 1] == s + post[..|post| - 1];
      TrimRightSpaces(s, post[..|post| - 1]);
    }
  }

  /** A generated secret, typed in any case and with any spaces around it, is the key it was made from. */
  lemma SecretSurvivesTyping(key: seq<Byte>, typed: string, pre: string, post: string)
    requires |key| == 20 && ToUpper(typed) == Encode(key)
    requires forall c :: c in pre + post ==> IsSpace(c)
    ensures KeyOf(pre + typed + post) == Some(key)
  {
    EncodeIsLetters(key);
    forall i | 0 <= i < |typed| ensures !IsSpace(typed[i]) {
      assert UpperChar(typed[i]) == Encode(key)[i];
    }
    assert pre + typed + post == pre + (typed + post);
    assert forall c :: c in pre ==> c in pre + post;
    assert forall c :: c in post ==> c in pre + post;
    TrimLeftSpaces(pre, typed + post);
    TrimRightSpaces(typed, post);
    RoundTrip(key);
  }
}
