/** Go's byte strings: UTF-8 decoding, trimming and lower-casing.

A Go string is its sequence of bytes. Here each byte is the `char` with the same code, so that
texts can be written as literals. A `char` above 255 names no byte; the decoder treats it as it
treats any other invalid byte, and every lemma holds with or without such characters. */
module GoText {

  const RUNE_ERROR := 0xFFFD

  datatype Rune = Rune(value: int, width: nat)

  predicate Within(c: char, low: int, high: int) {
    low <= c as int <= high
  }

  predicate Continuation(c: char) {
    Within(c, 0x80, 0xBF)
  }

  /** The rune that a `range` loop sees at byte `i`: an ASCII byte stands for itself, a well-formed
      multi-byte sequence for a larger code point, and a malformed one for U+FFFD of width one. */
  function DecodeRune(s: string, i: nat): (r: Rune)
    requires i < |s|
    ensures 1 <= r.width <= |s| - i
    ensures s[i] as int < 0x80 ==> r == Rune(s[i] as int, 1)
    ensures s[i] as int >= 0x80 ==> r.value >= 0x80
  {
    var b0 := s[i] as int;
    if b0 < 0x80 then
      Rune(b0, 1)
    else if 0xC2 <= b0 <= 0xDF && i + 1 < |s| && Continuation(s[i + 1]) then
      Rune((b0 - 0xC0) * 64 + (s[i + 1] as int - 0x80), 2)
    else if 0xE0 <= b0 <= 0xEF && i + 2 < |s|
            && Within(s[i + 1], if b0 == 0xE0 then 0xA0 else 0x80, if b0 == 0xED then 0x9F else 0xBF)
            && Continuation(s[i + 2]) then
      Rune((b0 - 0xE0) * 4096 + (s[i + 1] as int - 0x80) * 64 + (s[i + 2] as int - 0x80), 3)
    else if 0xF0 <= b0 <= 0xF4 && i + 3 < |s|
            && Within(s[i + 1], if b0 == 0xF0 then 0x90 else 0x80, if b0 == 0xF4 then 0x8F else 0xBF)
            && Continuation(s[i + 2]) && Continuation(s[i + 3]) then
      Rune((b0 - 0xF0) * 262144 + (s[i + 1] as int - 0x80) * 4096
           + (s[i + 2] as int - 0x80) * 64 + (s[i + 3] as int - 0x80), 4)
    else
      Rune(RUNE_ERROR, 1)
  }

  /** Where the last rune may begin: the nearest byte at or before `k`, but not before `limit`,
      that is no continuation byte; just below `limit` when there is none. */
  function LastStart(s: string, k: int, limit: nat): (start: int)
    requires limit - 1 <= k < |s|
    ensures limit - 1 <= start <= k
    decreases k - limit + 1
  {
    if k < limit || !Continuation(s[k]) then k else LastStart(s, k - 1, limit)
  }

  /** The rune that ends a string, as trimming from the right sees it. */
  function DecodeLastRune(s: string): (r: Rune)
    requires s != ""
    ensures 1 <= r.width <= |s|
    ensures s[|s| - 1] as int < 0x80 ==> r == Rune(s[|s| - 1] as int, 1)
  {
    var n := |s|;
    if s[n - 1] as int < 0x80 then
      Rune(s[n - 1] as int, 1)
    else
      var found := LastStart(s, n - 2, if n < 4 then 0 else n - 4);
      var start := if found < 0 then 0 else found;
      var r := DecodeRune(s, start);
      if start + r.width == n then r else Rune(RUNE_ERROR, 1)
  }

  predicate IsSpace(rune: int) {
    || 0x09 <= rune <= 0x0D || rune == 0x20 || rune == 0x85 || rune == 0xA0 || rune == 0x1680
    || 0x2000 <= rune <= 0x200A || rune == 0x2028 || rune == 0x2029 || rune == 0x202F
    || rune == 0x205F || rune == 0x3000
  }

  function TrimLeft(s: string): string {
    if s == "" then "" else
      var r := DecodeRune(s, 0);
      if IsSpace(r.value) then TrimLeft(s[r.width..]) else s
  }

  function TrimRight(s: string): string {
    if s == "" then "" else
      var r := DecodeLastRune(s);
      if IsSpace(r.value) then TrimRight(s[..|s| - r.width]) else s
  }

  function TrimSpace(s: string): string {
    TrimRight(TrimLeft(s))
  }

  predicate Printable(c: char) {
    c as int < 0x80 && !IsSpace(c as int)
  }

  /** A text framed by visible ASCII is already trimmed. */
  lemma TrimSpaceKeeps(s: string)
    requires s != "" && Printable(s[0]) && Printable(s[|s| - 1])
    ensures TrimSpace(s) == s
  {
  }

  /** A text that begins with visible ASCII is never blank, whatever follows. */
  lemma {:induction false} TrimRightKeepsHead(s: string)
    requires s != "" && Printable(s[0])
    ensures TrimRight(s) != "" && TrimRight(s)[0] == s[0]
    decreases |s|
  {
    var r := DecodeLastRune(s);
    if IsSpace(r.value) && r.width < |s| {
      TrimRightKeepsHead(s[..|s| - r.width]);
    } else if r.width == |s| {
      LastRuneOfWhole(s);
    }
  }

  /** A last rune that spans the whole text is the first one. */
  lemma LastRuneOfWhole(s: string)
    requires s != "" && DecodeLastRune(s).width == |s|
    ensures |s| > 1 ==> DecodeLastRune(s) == DecodeRune(s, 0)
  {
  }

  lemma TrimSpaceNotBlank(s: string)
    requires s != "" && Printable(s[0])
    ensures TrimSpace(s) != ""
  {
    TrimRightKeepsHead(s);
  }

  /** The images of `unicode.ToLower` that can be ASCII: A-Z, U+0130 and U+212A. Every other rune
      is sent to a rune outside ASCII, which no name below contains, so it may stay as it is. */
  function LowerRune(rune: int): int {
    if 0x41 <= rune <= 0x5A then rune + 32
    else if rune == 0x130 then 0x69
    else if rune == 0x212A then 0x6B
    else rune
  }

  function LowerRunes(s: string, i: nat): seq<int>
    requires i <= |s|
    decreases |s| - i
  {
    if i == |s| then [] else
      var r := DecodeRune(s, i);
      [LowerRune(r.value)] + LowerRunes(s, i + r.width)
  }

  function Codes(s: string): seq<int> {
    seq(|s|, i requires 0 <= i < |s| => s[i] as int)
  }

  predicate LowerName(s: string) {
    s != "" && forall i :: 0 <= i < |s| ==> 'a' <= s[i] <= 'z' || s[i] == '_'
  }

  lemma {:induction false} LowerRunesOfName(s: string, i: nat)
    requires i <= |s| && LowerName(s)
    ensures LowerRunes(s, i) == Codes(s)[i..]
    decreases |s| - i
  {
    if i < |s| {
      assert Printable(s[i]) && DecodeRune(s, i) == Rune(s[i] as int, 1);
      assert Codes(s)[i..] == [s[i] as int] + Codes(s)[i + 1..];
      LowerRunesOfName(s, i + 1);
    }
  }

  /** Normalizing a lower-case name with `strings.ToLower(strings.TrimSpace(...))` keeps it. */
  lemma NormalizedName(s: string)
    requires LowerName(s)
    ensures LowerRunes(TrimSpace(s), 0) == Codes(s)
  {
    TrimSpaceKeeps(s);
    LowerRunesOfName(s, 0);
  }
}
