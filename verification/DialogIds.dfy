/**
 The identity of a dialog: the two user ids in order, concatenated, hashed into two 64-bit
 words and written in hexadecimal.  The hash function is a parameter.
 */
module DialogIds {
  import opened Users
  import opened Ordering

  type DialogId = string

  const WORDS: nat := 0x1_0000_0000_0000_0000
  type Word = x: nat | x < WORDS

  type Hash = string -> (Word, Word)

  // ---------------------------------------------------------------- hexadecimal

  const DIGITS: string := "0123456789abcdef"

  function Digit(d: nat): char
    requires d < 16
  {
    DIGITS[d]
  }

  function DigitValue(c: char): nat {
    if '0' <= c <= '9' then (c - '0') as nat else if 'a' <= c <= 'f' then (c - 'a') as nat + 10 else 0
  }

  /** Without leading zeros, as %x. */
  function Hex(w: nat): string {
    if w < 16 then [Digit(w)] else Hex(w / 16) + [Digit(w % 16)]
  }

  function Zeros(n: nat): string {
    if n == 0 then "" else Zeros(n - 1) + "0"
  }

  /** %016x: at least 16 digits. */
  function Hex16(w: nat): string {
    if |Hex(w)| < 16 then Zeros(16 - |Hex(w)|) + Hex(w) else Hex(w)
  }

  function HexValue(s: string): nat {
    if s == [] then 0 else HexValue(s[..|s| - 1]) * 16 + DigitValue(s[|s| - 1])
  }

  function Power16(n: nat): nat {
    if n == 0 then 1 else 16 * Power16(n - 1)
  }

  lemma DigitRoundTrip(d: nat)
    requires d < 16
    ensures DigitValue(Digit(d)) == d
  {
    if d < 10 { assert Digit(d) == '0' + d as char; } else { assert Digit(d) == 'a' + (d - 10) as char; }
  }

  lemma {:induction false} HexRoundTrip(w: nat)
    ensures HexValue(Hex(w)) == w
  {
    DigitRoundTrip(w % 16);
    if w >= 16 {
      HexRoundTrip(w / 16);
      var s := Hex(w / 16) + [Digit(w % 16)];
      assert s[..|s| - 1] == Hex(w / 16);
    } else {
      assert [Digit(w)][..0] == [];
    }
  }

  lemma {:induction false} HexLength(w: nat, n: nat)
    requires 0 < n && w < Power16(n)
    ensures 1 <= |Hex(w)| <= n
  {
    if w >= 16 {
      assert n > 1 by { assert Power16(1) == 16 * Power16(0); }
      assert w / 16 < Power16(n - 1);
      HexLength(w / 16, n - 1);
    }
  }

  lemma {:induction false} LeadingZeros(n: nat, s: string)
    ensures |Zeros(n)| == n
    ensures HexValue(Zeros(n) + s) == HexValue(s)
    decreases n + |s|
  {
    if s != [] {
      LeadingZeros(n, s[..|s| - 1]);
      assert (Zeros(n) + s)[..n + |s| - 1] == Zeros(n) + s[..|s| - 1];
    } else if n > 0 {
      LeadingZeros(n - 1, []);
      assert Zeros(n) + [] == Zeros(n) && Zeros(n - 1) + [] == Zeros(n - 1) == Zeros(n)[..n - 1];
    }
  }

  lemma WordsArePower16()
    ensures Power16(16) == WORDS
  {
    assert Power16(4) == 0x1_0000;
    assert Power16(8) == 0x1_0000 * Power16(4);
    assert Power16(12) == 0x1_0000 * Power16(8);
    assert Power16(16) == 0x1_0000 * Power16(12);
  }

  /** A word takes exactly 16 digits, and they determine it. */
  lemma Hex16RoundTrip(w: Word)
    ensures |Hex16(w)| == 16
    ensures HexValue(Hex16(w)) == w
  {
    WordsArePower16();
    HexLength(w, 16);
    HexRoundTrip(w);
    LeadingZeros(16 - |Hex(w)|, Hex(w));
  }

  // ---------------------------------------------------------------- identity

  function Lesser(a: UserId, b: UserId): UserId {
    if LexLess(b, a) then b else a
  }

  function Greater(a: UserId, b: UserId): UserId {
    if LexLess(b, a) then a else b
  }

  function Combined(a: UserId, b: UserId): string {
    Lesser(a, b) + Greater(a, b)
  }

  function Render(words: (Word, Word)): DialogId {
    Hex16(words.0) + Hex16(words.1)
  }

  function ObtainDialogId(hash: Hash, a: UserId, b: UserId): DialogId {
    Render(hash(Combined(a, b)))
  }

  predicate SamePair(a: UserId, b: UserId, c: UserId, d: UserId) {
    (a == c && b == d) || (a == d && b == c)
  }

  /** 32 digits that determine both words. */
  lemma RenderInjective(v: (Word, Word), w: (Word, Word))
    ensures |Render(v)| == 32
    ensures Render(v) == Render(w) <==> v == w
    ensures HexValue(Render(v)[..16]) == v.0 && HexValue(Render(v)[16..]) == v.1
  {
    Hex16RoundTrip(v.0);
    Hex16RoundTrip(v.1);
    Hex16RoundTrip(w.0);
    Hex16RoundTrip(w.1);
    assert Render(v)[..16] == Hex16(v.0) && Render(v)[16..] == Hex16(v.1);
    assert Render(w)[..16] == Hex16(w.0) && Render(w)[16..] == Hex16(w.1);
  }

  /** The id is of the words of the hash of the two ids put together, the one that sorts first in front. */
  lemma LesserComesFirst(hash: Hash, a: UserId, b: UserId)
    ensures LexLess(a, b) || a == b ==> ObtainDialogId(hash, a, b) == Hex16(hash(a + b).0) + Hex16(hash(a + b).1)
    ensures LexLess(b, a) ==> ObtainDialogId(hash, a, b) == Hex16(hash(b + a).0) + Hex16(hash(b + a).1)
    ensures LexLess("a", "b") && LexLess("ab", "b") && LexLess("a", "ab") && !LexLess("b", "a")
  {
    LexTrichotomy(a, b);
    assert "ab"[1..] == "b" && "a"[1..] == "" && "b"[1..] == "";
  }

  /** Lower-case digits, the most significant first, after leading zeros. */
  lemma HexExample()
    ensures Hex16(0x1fa) == "00000000000001fa"
  {
    ThreeDigits();
    ThirteenZeros();
  }

  lemma ThreeDigits()
    ensures Hex(0x1fa) == "1fa"
  {
    assert Hex(0x1) == "1";
    assert Hex(0x1f) == Hex(0x1) + "f";
    assert Hex(0x1fa) == Hex(0x1f) + "a";
  }

  lemma ThirteenZeros()
    ensures Zeros(13) == "0000000000000"
  {
    assert Zeros(4) == "0000";
    assert Zeros(8) == Zeros(4) + "0000";
    assert Zeros(12) == Zeros(8) + "0000";
  }

  /** The dialog of two users is the same from both sides. */
  lemma DialogIdSymmetric(hash: Hash, a: UserId, b: UserId)
    ensures ObtainDialogId(hash, a, b) == ObtainDialogId(hash, b, a)
  {
    LexTrichotomy(a, b);
  }

  /**
   Two pairs with the same hashed string are the same pair exactly if their lesser ids are
   equally long.
   */
  lemma CombinedDeterminesPairIff(a: UserId, b: UserId, c: UserId, d: UserId)
    requires Combined(a, b) == Combined(c, d)
    ensures SamePair(a, b, c, d) <==> |Lesser(a, b)| == |Lesser(c, d)|
  {
    LexTrichotomy(a, b);
    LexTrichotomy(c, d);
    var n := |Lesser(a, b)|;
    if n == |Lesser(c, d)| {
      assert Lesser(a, b) == Combined(a, b)[..n] && Greater(a, b) == Combined(a, b)[n..];
      assert Lesser(c, d) == Combined(c, d)[..n] && Greater(c, d) == Combined(c, d)[n..];
    }
  }

  /** For ids of one length, such as UUIDs, the hashed string determines the pair. */
  lemma CombinedDeterminesPair(a: UserId, b: UserId, c: UserId, d: UserId)
    requires |a| == |b| == |c| == |d|
    ensures Combined(a, b) == Combined(c, d) <==> SamePair(a, b, c, d)
  {
    LexTrichotomy(a, b);
    LexTrichotomy(c, d);
    if Combined(a, b) == Combined(c, d) { CombinedDeterminesPairIff(a, b, c, d); }
  }

  /** For ids of different lengths it does not: two pairs share a dialog under every hash. */
  lemma UnequalLengthsShareDialog(hash: Hash)
    ensures ObtainDialogId(hash, "a", "bc") == ObtainDialogId(hash, "ab", "c")
    ensures !SamePair("a", "bc", "ab", "c")
  {
    assert Combined("a", "bc") == "abc" && Combined("ab", "c") == "abc";
  }

  /** Without a collision on the two strings, dialogs are equal exactly if the pairs are. */
  lemma DialogIdDeterminesPair(hash: Hash, a: UserId, b: UserId, c: UserId, d: UserId)
    requires |a| == |b| == |c| == |d|
    requires hash(Combined(a, b)) == hash(Combined(c, d)) ==> Combined(a, b) == Combined(c, d)
    ensures ObtainDialogId(hash, a, b) == ObtainDialogId(hash, c, d) <==> SamePair(a, b, c, d)
  {
    RenderInjective(hash(Combined(a, b)), hash(Combined(c, d)));
    CombinedDeterminesPair(a, b, c, d);
  }
}
