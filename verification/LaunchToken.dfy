/** The launch token: printed by the host as hex, parsed and compared by the daemon. */
module LaunchToken {
  import opened Wrappers

  const TOKEN_BYTES: nat := 32

  /** ASCII code of one lowercase hex digit, as `{:02x}` prints it. */
  function HexDigit(n: bv8): bv8 {
    if n < 10 then n + 48 else n + 87
  }

  /** Two lowercase hex digits for every byte. */
  function Print(bytes: seq<bv8>): (text: seq<bv8>)
    ensures |text| == 2 * |bytes|
  {
    if bytes == [] then []
    else Print(bytes[..|bytes| - 1]) + [HexDigit(bytes[|bytes| - 1] >> 4), HexDigit(bytes[|bytes| - 1] & 15)]
  }

  /** The loop of `LaunchConfiguration::generate`. */
  method PrintToken(bytes: seq<bv8>) returns (text: seq<bv8>)
    ensures text == Print(bytes) && Spells(text, bytes)
  {
    text := [];
    for i := 0 to |bytes|
      invariant text == Print(bytes[..i])
    {
      assert bytes[..i + 1][..i] == bytes[..i];
      text := text + [HexDigit(bytes[i] >> 4), HexDigit(bytes[i] & 15)];
    }
    assert bytes[..|bytes|] == bytes;
    PrintSpells(bytes);
  }

  function DigitValue(c: bv8): Option<bv8> {
    if 48 <= c <= 57 then Some(c - 48)
    else if 97 <= c <= 102 then Some(c - 87)
    else if 65 <= c <= 70 then Some(c - 55)
    else None
  }

  const PLUS: bv8 := 43

  /** `u8::from_str_radix` of two characters in base 16, which takes a leading plus sign. */
  function PairValue(a: bv8, b: bv8): Option<bv8> {
    if DigitValue(b).None? then None
    else if a == PLUS then DigitValue(b)
    else if DigitValue(a).None? then None
    else Some((DigitValue(a).value << 4) | DigitValue(b).value)
  }

  /** `bytes` are what the pairs of `value` stand for. */
  ghost predicate Spells(value: seq<bv8>, bytes: seq<bv8>) {
    && |value| == 2 * |bytes|
    && forall i | 0 <= i < |bytes| :: PairValue(value[2 * i], value[2 * i + 1]) == Some(bytes[i])
  }

  // ---- The same, told by the codes of the characters ----

  /** 0 to 9, A to F, a to f. */
  predicate IsHexCode(c: bv8) {
    (c >= 48 && c <= 57) || (c >= 65 && c <= 70) || (c >= 97 && c <= 102)
  }

  /** The first character of a pair may also be a plus sign. */
  predicate IsHexPair(a: bv8, b: bv8) {
    (IsHexCode(a) || a == 43) && IsHexCode(b)
  }

  function CodeValue(c: bv8): bv8
    requires IsHexCode(c) || c == 43
  {
    if c == 43 then 0 else if c <= 57 then c - 48 else if c <= 70 then c - 65 + 10 else c - 97 + 10
  }

  /** The characters are pairs of hex digits, and each pair is worth its byte. */
  ghost predicate ReadsAs(value: seq<bv8>, bytes: seq<bv8>) {
    && |value| == 2 * |bytes|
    && forall i | 0 <= i < |bytes| ::
         && IsHexPair(value[2 * i], value[2 * i + 1])
         && bytes[i] == 16 * CodeValue(value[2 * i]) + CodeValue(value[2 * i + 1])
  }

  lemma PairByCodes(a: bv8, b: bv8)
    ensures PairValue(a, b).Some? <==> IsHexPair(a, b)
    ensures IsHexPair(a, b) ==> PairValue(a, b) == Some(16 * CodeValue(a) + CodeValue(b))
  {
  }

  /** 64 characters, all of them hex digits but for plus signs in first places. */
  ghost predicate IsToken(value: seq<bv8>) {
    |value| == 64 && forall i | 0 <= i < 32 :: IsHexPair(value[2 * i], value[2 * i + 1])
  }

  lemma SpellsIffReads(value: seq<bv8>, bytes: seq<bv8>)
    ensures Spells(value, bytes) <==> ReadsAs(value, bytes)
  {
    if |value| == 2 * |bytes| {
      forall i | 0 <= i < |bytes|
        ensures PairValue(value[2 * i], value[2 * i + 1]) == Some(bytes[i])
                <==> IsHexPair(value[2 * i], value[2 * i + 1])
                     && bytes[i] == 16 * CodeValue(value[2 * i]) + CodeValue(value[2 * i + 1])
      {
        PairByCodes(value[2 * i], value[2 * i + 1]);
      }
    }
  }

  /** Exactly such texts read as 32 bytes. */
  lemma TokensRead(value: seq<bv8>)
    ensures IsToken(value) <==> exists bytes :: |bytes| == 32 && ReadsAs(value, bytes)
  {
    if IsToken(value) {
      var bytes := seq(32, i requires 0 <= i < 32 => 16 * CodeValue(value[2 * i]) + CodeValue(value[2 * i + 1]));
      assert |bytes| == 32 && ReadsAs(value, bytes);
    }
  }

  lemma NothingSpelled(value: seq<bv8>)
    requires !IsToken(value)
    ensures forall bytes: seq<bv8> | |bytes| == 32 :: !Spells(value, bytes)
  {
    forall bytes: seq<bv8> | |bytes| == 32 ensures !Spells(value, bytes) {
      SpellsIffReads(value, bytes);
    }
  }

  /** `LaunchToken::parse_hex`, on the bytes of the string. */
  method ParseHex(value: seq<bv8>) returns (token: Option<seq<bv8>>)
    ensures token.Some? <==> IsToken(value)
    ensures token.None? ==> forall bytes: seq<bv8> | |bytes| == 32 :: !Spells(value, bytes)
    ensures token.Some? ==> |token.value| == 32 && ReadsAs(value, token.value) && Spells(value, token.value)
  {
    if |value| != 64 {
      NothingSpelled(value);
      return None;
    }
    assert |value| == 2 * TOKEN_BYTES;
    var bytes := new bv8[TOKEN_BYTES](_ => 0);
    for index := 0 to TOKEN_BYTES
      invariant forall i | 0 <= i < index :: PairValue(value[2 * i], value[2 * i + 1]) == Some(bytes[i])
    {
      var offset := index * 2;
      var byte := PairValue(value[offset], value[offset + 1]);
      PairByCodes(value[2 * index], value[2 * index + 1]);
      if byte.None? {
        NothingSpelled(value);
        return None;
      }
      bytes[index] := byte.value;
    }
    SpellsIffReads(value, bytes[..]);
    return Some(bytes[..]);
  }

  /** The fold of `matches_hex`: all differing bits of two equally long lists. */
  function Difference(left: seq<bv8>, right: seq<bv8>): bv8
    requires |left| == |right|
  {
    if left == [] then 0
    else Difference(left[..|left| - 1], right[..|right| - 1]) | (left[|left| - 1] ^ right[|right| - 1])
  }

  /** The daemon accepts a candidate exactly when its characters spell the token's own bytes. */
  method MatchesHex(token: seq<bv8>, candidate: seq<bv8>) returns (matches: bool)
    requires |token| == TOKEN_BYTES
    ensures matches <==> ReadsAs(candidate, token)
    ensures matches <==> Spells(candidate, token)
  {
    SpellsIffReads(candidate, token);
    var parsed := ParseHex(candidate);
    if parsed.None? {
      return false;
    }
    NoDifference(token, parsed.value);
    if Spells(candidate, token) {
      SpellingIsUnique(candidate, token, parsed.value);
    }
    return Difference(token, parsed.value) == 0;
  }

  lemma OrIsZero(a: bv8, b: bv8, c: bv8)
    ensures a | (b ^ c) == 0 <==> a == 0 && b == c
  {
  }

  /** No bit differs exactly when no byte does. */
  lemma {:induction false} NoDifference(left: seq<bv8>, right: seq<bv8>)
    requires |left| == |right|
    ensures Difference(left, right) == 0 <==> left == right
  {
    if left != [] {
      var n := |left| - 1;
      NoDifference(left[..n], right[..n]);
      OrIsZero(Difference(left[..n], right[..n]), left[n], right[n]);
      assert left == left[..n] + [left[n]] && right == right[..n] + [right[n]];
    }
  }

  lemma SpellingIsUnique(value: seq<bv8>, a: seq<bv8>, b: seq<bv8>)
    requires Spells(value, a) && Spells(value, b)
    ensures a == b
  {
    forall i | 0 <= i < |a| ensures a[i] == b[i] {
      assert PairValue(value[2 * i], value[2 * i + 1]) == Some(a[i]);
    }
  }

  lemma PairRoundTrip(b: bv8)
    ensures PairValue(HexDigit(b >> 4), HexDigit(b & 15)) == Some(b)
  {
  }

  lemma {:induction false} PrintedAt(bytes: seq<bv8>, i: nat)
    requires i < |bytes|
    ensures Print(bytes)[2 * i] == HexDigit(bytes[i] >> 4)
    ensures Print(bytes)[2 * i + 1] == HexDigit(bytes[i] & 15)
  {
    if i < |bytes| - 1 {
      PrintedAt(bytes[..|bytes| - 1], i);
    }
  }

  /** Every token the host prints spells itself, so the daemon that parsed it accepts it. */
  lemma PrintSpells(bytes: seq<bv8>)
    ensures Spells(Print(bytes), bytes)
  {
    forall i | 0 <= i < |bytes|
      ensures PairValue(Print(bytes)[2 * i], Print(bytes)[2 * i + 1]) == Some(bytes[i])
    {
      PrintedAt(bytes, i);
      PairRoundTrip(bytes[i]);
    }
  }

  /** A printed token is accepted for one token only. */
  lemma PrintedTokenNamesOne(bytes: seq<bv8>, token: seq<bv8>)
    ensures Spells(Print(bytes), token) <==> token == bytes
  {
    PrintSpells(bytes);
    if Spells(Print(bytes), token) {
      SpellingIsUnique(Print(bytes), bytes, token);
    }
  }

  // ---- Candidates that are accepted without having been printed ----

  /** A digit as `{:02x}` prints it. */
  predicate IsPlain(c: bv8) {
    48 <= c <= 57 || 97 <= c <= 102
  }

  /** A pair that stands for a byte is the printed one exactly when both its digits are plain. */
  lemma PlainPair(a: bv8, b: bv8)
    requires PairValue(a, b).Some?
    ensures
      var byte := PairValue(a, b).value;
      IsPlain(a) && IsPlain(b) <==> a == HexDigit(byte >> 4) && b == HexDigit(byte & 15)
  {
  }

  ghost predicate PlainAt(text: seq<bv8>, i: int) {
    0 <= 2 * i && 2 * i + 1 < |text| && IsPlain(text[2 * i]) && IsPlain(text[2 * i + 1])
  }

  ghost predicate SameAt(x: seq<bv8>, y: seq<bv8>, i: int) {
    0 <= 2 * i && 2 * i + 1 < |x| == |y| && x[2 * i] == y[2 * i] && x[2 * i + 1] == y[2 * i + 1]
  }

  lemma PlainByPairs(text: seq<bv8>, n: nat)
    requires |text| == 2 * n
    ensures (forall c | c in text :: IsPlain(c)) <==> forall i | 0 <= i < n :: PlainAt(text, i)
  {
    if forall i | 0 <= i < n :: PlainAt(text, i) {
      forall k | 0 <= k < |text| ensures IsPlain(text[k]) {
        assert PlainAt(text, k / 2);
      }
    }
  }

  lemma SameByPairs(x: seq<bv8>, y: seq<bv8>, n: nat)
    requires |x| == |y| == 2 * n
    ensures x == y <==> forall i | 0 <= i < n :: SameAt(x, y, i)
  {
    if forall i | 0 <= i < n :: SameAt(x, y, i) {
      forall k | 0 <= k < |x| ensures x[k] == y[k] {
        assert SameAt(x, y, k / 2);
      }
    }
  }

  lemma PrintedIffPlainAt(candidate: seq<bv8>, bytes: seq<bv8>, i: nat)
    requires Spells(candidate, bytes) && i < |bytes|
    ensures SameAt(candidate, Print(bytes), i) <==> PlainAt(candidate, i)
  {
    PrintedAt(bytes, i);
    assert PairValue(candidate[2 * i], candidate[2 * i + 1]) == Some(bytes[i]);
    PlainPair(candidate[2 * i], candidate[2 * i + 1]);
  }

  /** An accepted candidate is the printed token exactly when it holds digits and a to f only. */
  lemma PrintedIffPlain(candidate: seq<bv8>, bytes: seq<bv8>)
    requires Spells(candidate, bytes)
    ensures candidate == Print(bytes) <==> forall c | c in candidate :: IsPlain(c)
  {
    forall i | 0 <= i < |bytes| ensures SameAt(candidate, Print(bytes), i) <==> PlainAt(candidate, i) {
      PrintedIffPlainAt(candidate, bytes, i);
    }
    PlainByPairs(candidate, |bytes|);
    SameByPairs(candidate, Print(bytes), |bytes|);
  }

  /** Another spelling of the byte: a plus sign for a leading zero, or a letter in upper case. */
  function OtherPair(b: bv8): Option<(bv8, bv8)> {
    if b >> 4 == 0 then Some((PLUS, HexDigit(b & 15)))
    else if b >> 4 >= 10 then Some(((b >> 4) + 55, HexDigit(b & 15)))
    else if b & 15 >= 10 then Some((HexDigit(b >> 4), (b & 15) + 55))
    else None
  }

  lemma OtherPairSpells(b: bv8)
    requires OtherPair(b).Some?
    ensures
      var (x, y) := OtherPair(b).value;
      PairValue(x, y) == Some(b) && (x != HexDigit(b >> 4) || y != HexDigit(b & 15))
  {
  }

  lemma OnlyPair(a: bv8, b: bv8)
    requires PairValue(a, b).Some? && OtherPair(PairValue(a, b).value).None?
    ensures IsPlain(a) && IsPlain(b)
  {
  }

  /** A candidate other than the printed token, for a token whose byte `i` has another spelling. */
  function OtherSpelling(bytes: seq<bv8>, i: nat): (candidate: seq<bv8>)
    requires i < |bytes| && OtherPair(bytes[i]).Some?
    ensures Spells(candidate, bytes) && candidate != Print(bytes)
  {
    var (x, y) := OtherPair(bytes[i]).value;
    PrintSpells(bytes);
    PrintedAt(bytes, i);
    OtherPairSpells(bytes[i]);
    var candidate := Print(bytes)[2 * i := x][2 * i + 1 := y];
    assert candidate[2 * i] == x && candidate[2 * i + 1] == y;
    assert forall j | 0 <= j < |bytes| && j != i ::
        PairValue(candidate[2 * j], candidate[2 * j + 1]) == PairValue(Print(bytes)[2 * j], Print(bytes)[2 * j + 1]);
    candidate
  }

  lemma UnambiguousAt(candidate: seq<bv8>, bytes: seq<bv8>, i: nat)
    requires Spells(candidate, bytes) && i < |bytes| && OtherPair(bytes[i]).None?
    ensures PlainAt(candidate, i)
  {
    assert PairValue(candidate[2 * i], candidate[2 * i + 1]) == Some(bytes[i]);
    OnlyPair(candidate[2 * i], candidate[2 * i + 1]);
  }

  lemma UnambiguousPairs(candidate: seq<bv8>, bytes: seq<bv8>)
    requires Spells(candidate, bytes)
    requires forall i | 0 <= i < |bytes| :: OtherPair(bytes[i]).None?
    ensures forall i | 0 <= i < |bytes| :: PlainAt(candidate, i)
  {
    forall i | 0 <= i < |bytes| ensures PlainAt(candidate, i) {
      UnambiguousAt(candidate, bytes, i);
    }
  }

  lemma Unambiguous(candidate: seq<bv8>, bytes: seq<bv8>)
    requires Spells(candidate, bytes)
    requires forall i | 0 <= i < |bytes| :: OtherPair(bytes[i]).None?
    ensures candidate == Print(bytes)
  {
    UnambiguousPairs(candidate, bytes);
    PlainByPairs(candidate, |bytes|);
    PrintedIffPlain(candidate, bytes);
  }

  /**
    The daemon accepts a candidate the host never printed exactly for tokens with a byte below 16
    or with a letter among their digits.
   */
  lemma OthersIffAmbiguous(bytes: seq<bv8>)
    ensures
      (exists candidate :: Spells(candidate, bytes) && candidate != Print(bytes))
      <==> exists i | 0 <= i < |bytes| :: OtherPair(bytes[i]).Some?
  {
    if i: nat :| i < |bytes| && OtherPair(bytes[i]).Some? {
      var candidate := OtherSpelling(bytes, i);
      assert Spells(candidate, bytes) && candidate != Print(bytes);
    } else {
      forall candidate | Spells(candidate, bytes) ensures candidate == Print(bytes) {
        Unambiguous(candidate, bytes);
      }
    }
  }
}
