/** Decoding and trimming against the standard: RFC 3629, section 3, and the white space of Unicode. */
module Utf8 {
  import opened GoText

  /** A Unicode scalar value: any code point but the surrogates. */
  predicate IsScalar(v: int) {
    0 <= v <= 0x10FFFF && !(0xD800 <= v <= 0xDFFF)
  }

  /** The octets of a code point. */
  function Encode(v: int): (s: string)
    requires IsScalar(v)
    ensures 1 <= |s| <= 4
  {
    if v < 0x80 then [v as char]
    else if v < 0x800 then [(0xC0 + v / 64) as char, Tail(v)]
    else if v < 0x10000 then [(0xE0 + v / 4096) as char, Tail(v / 64), Tail(v)]
    else [(0xF0 + v / 262144) as char, Tail(v / 4096), Tail(v / 64), Tail(v)]
  }

  function Tail(v: int): char {
    (0x80 + v % 64) as char
  }

  predicate StartsWith(s: string, v: int) {
    IsScalar(v) && Encode(v) <= s
  }

  predicate EndsWith(s: string, v: int) {
    IsScalar(v) && |Encode(v)| <= |s| && s[|s| - |Encode(v)|..] == Encode(v)
  }

  // ---------------------------------------------------------------- decoding

  /** The octets of a code point stand at byte `i`. */
  predicate EncodedAt(s: string, i: nat, v: int)
    requires IsScalar(v)
  {
    var octets := Encode(v);
    && i + |octets| <= |s| && s[i] == octets[0]
    && (|octets| > 1 ==> s[i + 1] == octets[1])
    && (|octets| > 2 ==> s[i + 2] == octets[2])
    && (|octets| > 3 ==> s[i + 3] == octets[3])
  }

  lemma StartsAt(s: string, i: nat, v: int)
    requires i <= |s| && IsScalar(v)
    ensures StartsWith(s[i..], v) <==> EncodedAt(s, i, v)
  {
    var octets := Encode(v);
    if StartsWith(s[i..], v) {
      assert forall k :: 0 <= k < |octets| ==> s[i..][k] == octets[k];
    }
    if EncodedAt(s, i, v) {
      assert s[i..][..|octets|] == octets;
    }
  }

  lemma ThreeOctets(v: int)
    requires IsScalar(v) && 0x800 <= v < 0x10000
    ensures 0xE0 <= 0xE0 + v / 4096 <= 0xEF
    ensures v / 4096 == 0 ==> v / 64 % 64 >= 0x20
    ensures v / 4096 == 0xD ==> v / 64 % 64 <= 0x1F
    ensures v / 4096 * 4096 + v / 64 % 64 * 64 + v % 64 == v
  {
  }

  lemma FourOctets(v: int)
    requires IsScalar(v) && 0x10000 <= v
    ensures 0xF0 <= 0xF0 + v / 262144 <= 0xF4
    ensures v / 262144 == 0 ==> v / 4096 % 64 >= 0x10
    ensures v / 262144 == 4 ==> v / 4096 % 64 <= 0xF
    ensures v / 262144 * 262144 + v / 4096 % 64 * 4096 + v / 64 % 64 * 64 + v % 64 == v
  {
  }

  lemma TailIs(v: int)
    requires v >= 0
    ensures Tail(v) as int == 0x80 + v % 64 && Continuation(Tail(v))
  {
  }

  /** Decoding undoes encoding, wherever the text goes on. */
  lemma DecodeEncoded(s: string, i: nat, v: int)
    requires i <= |s| && StartsWith(s[i..], v)
    ensures i < |s| && DecodeRune(s, i) == Rune(v, |Encode(v)|)
  {
    StartsAt(s, i, v);
    TailIs(v);
    TailIs(v / 64);
    TailIs(v / 4096);
    hide StartsWith, Tail;
    if v < 0x800 {
      DecodeShort(s, i, v);
    } else if v < 0x10000 {
      DecodeThree(s, i, v);
    } else {
      DecodeFour(s, i, v);
    }
  }

  lemma DecodeShort(s: string, i: nat, v: int)
    requires IsScalar(v) && v < 0x800 && EncodedAt(s, i, v)
    ensures DecodeRune(s, i) == Rune(v, |Encode(v)|)
  {
    TailIs(v);
  }

  lemma DecodeThree(s: string, i: nat, v: int)
    requires IsScalar(v) && 0x800 <= v < 0x10000 && EncodedAt(s, i, v)
    ensures DecodeRune(s, i) == Rune(v, |Encode(v)|)
  {
    assert Encode(v) == [(0xE0 + v / 4096) as char, Tail(v / 64), Tail(v)];
    ThreeOctets(v);
    TailIs(v);
    TailIs(v / 64);
    hide Tail, Encode, Continuation, IsScalar;
  }

  lemma DecodeFour(s: string, i: nat, v: int)
    requires IsScalar(v) && 0x10000 <= v && EncodedAt(s, i, v)
    ensures DecodeRune(s, i) == Rune(v, |Encode(v)|)
  {
    assert Encode(v) == [(0xF0 + v / 262144) as char, Tail(v / 4096), Tail(v / 64), Tail(v)];
    FourOctets(v);
    TailIs(v);
    TailIs(v / 64);
    TailIs(v / 4096);
    hide Tail, Encode, Continuation, IsScalar;
  }
  /** What is decoded was encoded; and where no encoding begins, U+FFFD stands for one byte. */
  lemma DecodeRuneIff(s: string, i: nat)
    requires i < |s|
    ensures var r := DecodeRune(s, i);
            if exists v :: StartsWith(s[i..], v) then StartsWith(s[i..], r.value) && r.width == |Encode(r.value)|
            else r == Rune(0xFFFD, 1)
  {
    var r := DecodeRune(s, i);
    if v :| StartsWith(s[i..], v) {
      DecodeEncoded(s, i, v);
    } else {
      DecodedStarts(s, i);
    }
  }

  lemma DecodedStarts(s: string, i: nat)
    requires i < |s|
    ensures DecodeRune(s, i) == Rune(RUNE_ERROR, 1) || StartsWith(s[i..], DecodeRune(s, i).value)
  {
    var r := DecodeRune(s, i);
    if r != Rune(RUNE_ERROR, 1) {
      DecodedBytes(s, i);
      StartsAt(s, i, r.value);
    }
  }

  /** The bytes that a rune was decoded from. */
  lemma DecodedBytes(s: string, i: nat)
    requires i < |s| && DecodeRune(s, i) != Rune(RUNE_ERROR, 1)
    ensures var r := DecodeRune(s, i);
            IsScalar(r.value) && |Encode(r.value)| == r.width && EncodedAt(s, i, r.value)
  {
    var r := DecodeRune(s, i);
    var b0 := s[i] as int - (if r.width == 2 then 0xC0 else if r.width == 3 then 0xE0 else 0xF0);
    if r.width == 2 {
      FromTwo(b0, s[i + 1] as int - 0x80);
    } else if r.width == 3 {
      FromThree(b0, s[i + 1] as int - 0x80, s[i + 2] as int - 0x80);
    } else if r.width == 4 {
      FromFour(b0, s[i + 1] as int - 0x80, s[i + 2] as int - 0x80, s[i + 3] as int - 0x80);
    }
  }

  lemma FromTwo(a: int, b: int)
    requires 2 <= a <= 0x1F && 0 <= b < 64
    ensures var v := a * 64 + b; 0x80 <= v < 0x800 && v / 64 == a && v % 64 == b
  {
  }

  lemma FromThree(a: int, b: int, c: int)
    requires 0 <= a <= 0xF && 0 <= b < 64 && 0 <= c < 64
    requires (a == 0 ==> b >= 0x20) && (a == 0xD ==> b <= 0x1F)
    ensures var v := a * 4096 + b * 64 + c;
            0x800 <= v < 0x10000 && IsScalar(v) && v / 4096 == a && v / 64 % 64 == b && v % 64 == c
  {
    var v := a * 4096 + b * 64 + c;
    assert v / 64 == a * 64 + b;
  }

  lemma FromFour(a: int, b: int, c: int, d: int)
    requires 0 <= a <= 4 && 0 <= b < 64 && 0 <= c < 64 && 0 <= d < 64
    requires (a == 0 ==> b >= 0x10) && (a == 4 ==> b <= 0xF)
    ensures var v := a * 262144 + b * 4096 + c * 64 + d;
            && 0x10000 <= v && IsScalar(v) && v / 262144 == a && v / 4096 % 64 == b && v / 64 % 64 == c
            && v % 64 == d
  {
    var v := a * 262144 + b * 4096 + c * 64 + d;
    assert v / 64 == a * 4096 + b * 64 + c;
    assert v / 4096 == a * 64 + b;
  }

  /** Only the first octet of an encoding is not a continuation byte. */
  lemma OctetsOf(v: int)
    requires IsScalar(v)
    ensures !Continuation(Encode(v)[0])
    ensures forall k :: 1 <= k < |Encode(v)| ==> Continuation(Encode(v)[k])
    ensures |Encode(v)| == 1 <==> Encode(v)[0] as int < 0x80
  {
    TailIs(v);
    TailIs(v / 64);
    TailIs(v / 4096);
    hide Tail;
  }

  lemma {:induction false} LastStartIs(s: string, k: int, limit: nat, start: nat)
    requires limit <= start <= k < |s|
    requires !Continuation(s[start]) && forall i :: start < i <= k ==> Continuation(s[i])
    ensures LastStart(s, k, limit) == start
    decreases k
  {
    if k > start {
      LastStartIs(s, k - 1, limit, start);
    }
  }

  lemma EndsAt(s: string, v: int)
    requires IsScalar(v) && |Encode(v)| <= |s|
    ensures EndsWith(s, v) <==> EncodedAt(s, |s| - |Encode(v)|, v)
  {
    var n := |s| - |Encode(v)|;
    StartsAt(s, n, v);
    hide EncodedAt;
    assert s[n..] == Encode(v) <==> Encode(v) <= s[n..];
  }

  /** The same from the right, which Go does by stepping back over at most three bytes. */
  lemma DecodeLastEncoded(s: string, v: int)
    requires EndsWith(s, v)
    ensures s != "" && DecodeLastRune(s) == Rune(v, |Encode(v)|)
  {
    var w := |Encode(v)|;
    var n := |s| - w;
    EndsAt(s, v);
    StartsAt(s, n, v);
    DecodeEncoded(s, n, v);
    OctetsOf(v);
    hide EndsWith, DecodeRune, StartsWith, IsScalar;
    if w > 1 {
      assert Continuation(s[|s| - 1]);
      hide IsWhite, Encode;
      LastStartIs(s, |s| - 2, if |s| < 4 then 0 else |s| - 4, n);
    }
  }

  lemma LastDecodedEnds(s: string)
    requires s != ""
    ensures var r := DecodeLastRune(s);
            r == Rune(RUNE_ERROR, 1) || (EndsWith(s, r.value) && r.width == |Encode(r.value)|)
  {
    var r := DecodeLastRune(s);
    if s[|s| - 1] as int < 0x80 {
      assert s[|s| - 1..] == Encode(r.value);
    } else if r != Rune(RUNE_ERROR, 1) {
      hide DecodeRune, EndsWith, IsScalar;
      var n := |s| - r.width;
      assert DecodeRune(s, n) == r;
      DecodedBytes(s, n);
      EndsAt(s, r.value);
    }
  }

  // ---------------------------------------------------------------- trimming

  /** The code points with the Unicode property White_Space. */
  predicate IsWhite(v: int) {
    v in [0x09, 0x0A, 0x0B, 0x0C, 0x0D, 0x20, 0x85, 0xA0, 0x1680,
          0x2000, 0x2001, 0x2002, 0x2003, 0x2004, 0x2005, 0x2006, 0x2007, 0x2008, 0x2009, 0x200A,
          0x2028, 0x2029, 0x202F, 0x205F, 0x3000]
  }

  lemma IsSpaceIff(v: int)
    ensures IsSpace(v) <==> IsWhite(v)
    ensures IsSpace(v) ==> IsScalar(v) && v != RUNE_ERROR
  {
  }

  predicate AllSpace(vs: seq<int>) {
    forall k :: 0 <= k < |vs| ==> IsWhite(vs[k]) && IsScalar(vs[k])
  }

  /** White space and nothing else. */
  function Blank(vs: seq<int>): string
    requires AllSpace(vs)
  {
    if vs == [] then "" else Encode(vs[0]) + Blank(vs[1..])
  }

  lemma {:induction false} BlankAppend(vs: seq<int>, v: int)
    requires AllSpace(vs) && IsWhite(v) && IsScalar(v)
    ensures AllSpace(vs + [v]) && Blank(vs + [v]) == Blank(vs) + Encode(v)
    decreases |vs|
  {
    hide IsWhite, Encode;
    assert forall k :: 0 <= k < |vs + [v]| ==> (vs + [v])[k] == if k < |vs| then vs[k] else v;
    if vs == [] {
      assert vs + [v] == [v] && [v][1..] == [];
    } else {
      assert (vs + [v])[1..] == vs[1..] + [v];
      BlankAppend(vs[1..], v);
    }
  }

  lemma BlankPrepend(v: int, vs: seq<int>)
    requires AllSpace(vs) && IsWhite(v) && IsScalar(v)
    ensures AllSpace([v] + vs) && Blank([v] + vs) == Encode(v) + Blank(vs)
  {
    hide IsWhite, Encode;
    assert ([v] + vs)[1..] == vs;
  }

  ghost predicate StartsBlank(s: string) {
    exists v :: IsWhite(v) && StartsWith(s, v)
  }

  ghost predicate EndsBlank(s: string) {
    exists v :: IsWhite(v) && EndsWith(s, v)
  }

  lemma {:induction false} TrimLeftStrips(vs: seq<int>, rest: string)
    requires AllSpace(vs)
    ensures TrimLeft(Blank(vs) + rest) == TrimLeft(rest)
    decreases |vs|
  {
    hide IsWhite, Encode, DecodeRune;
    if vs == [] {
      assert Blank(vs) + rest == rest;
    } else {
      var v, more := vs[0], Blank(vs[1..]) + rest;
      var s := Blank(vs) + rest;
      assert s == Encode(v) + more && s[0..] == s && s[|Encode(v)|..] == more;
      DecodeEncoded(s, 0, v);
      IsSpaceIff(v);
      TrimLeftStrips(vs[1..], rest);
    }
  }

  lemma {:induction false} TrimLeftSplits(s: string) returns (vs: seq<int>)
    ensures AllSpace(vs) && s == Blank(vs) + TrimLeft(s) && !StartsBlank(TrimLeft(s))
    decreases |s|
  {
    hide IsWhite, Encode, DecodeRune, IsSpace;
    vs := [];
    if s != "" {
      assert s[0..] == s;
      var r := DecodeRune(s, 0);
      IsSpaceIff(r.value);
      DecodedStarts(s, 0);
      if IsSpace(r.value) {
        DecodeEncoded(s, 0, r.value);
        var more := TrimLeftSplits(s[r.width..]);
        vs := [r.value] + more;
        BlankPrepend(r.value, more);
        assert s == Encode(r.value) + s[r.width..];
      } else {
        NotSpaceStops(s, r.value);
      }
    }
  }

  lemma NotSpaceStops(s: string, value: int)
    requires s != "" && DecodeRune(s, 0).value == value && !IsSpace(value)
    ensures !StartsBlank(s)
  {
    hide IsWhite, Encode, DecodeRune;
    assert s[0..] == s;
    forall v | IsWhite(v) && StartsWith(s, v)
      ensures false
    {
      DecodeEncoded(s, 0, v);
      IsSpaceIff(v);
    }
  }

  lemma {:induction false} TrimRightStrips(rest: string, vs: seq<int>)
    requires AllSpace(vs)
    ensures TrimRight(rest + Blank(vs)) == TrimRight(rest)
    decreases |vs|
  {
    hide IsWhite, Encode, DecodeLastRune;
    if vs == [] {
      assert rest + Blank(vs) == rest;
    } else {
      var n := |vs| - 1;
      var v := vs[n];
      assert vs[..n] + [v] == vs;
      BlankAppend(vs[..n], v);
      var s, less := rest + Blank(vs), rest + Blank(vs[..n]);
      assert s == less + Encode(v) && s[..|less|] == less;
      DecodeLastEncoded(s, v);
      IsSpaceIff(v);
      TrimRightStrips(rest, vs[..n]);
    }
  }

  lemma {:induction false} TrimRightSplits(s: string) returns (vs: seq<int>)
    ensures AllSpace(vs) && s == TrimRight(s) + Blank(vs) && !EndsBlank(TrimRight(s))
    decreases |s|
  {
    hide IsWhite, Encode, DecodeLastRune, IsSpace;
    vs := [];
    if s != "" {
      var r := DecodeLastRune(s);
      IsSpaceIff(r.value);
      LastDecodedEnds(s);
      if IsSpace(r.value) {
        var before := s[..|s| - r.width];
        var less := TrimRightSplits(before);
        vs := less + [r.value];
        BlankAppend(less, r.value);
        assert s == before + Encode(r.value);
      } else {
        NotSpaceEnds(s, r.value);
      }
    }
  }

  lemma NotSpaceEnds(s: string, value: int)
    requires s != "" && DecodeLastRune(s).value == value && !IsSpace(value)
    ensures !EndsBlank(s)
  {
    hide IsWhite, Encode, DecodeLastRune;
    forall v | IsWhite(v) && EndsWith(s, v)
      ensures false
    {
      DecodeLastEncoded(s, v);
      IsSpaceIff(v);
    }
  }

  lemma StartsSooner(core: string, rest: string, v: int)
    requires IsScalar(v) && |Encode(v)| <= |core|
    ensures StartsWith(core + rest, v) <==> StartsWith(core, v)
  {
    hide Encode;
    assert (core + rest)[..|Encode(v)|] == core[..|Encode(v)|];
  }

  lemma StartsNotAcross(core: string, rest: string, v: int)
    requires IsScalar(v) && 0 < |core| < |Encode(v)|
    requires rest != "" ==> !Continuation(rest[0])
    ensures !StartsWith(core + rest, v)
  {
    OctetsOf(v);
    hide Encode;
    var s, octets := core + rest, Encode(v);
    assert |octets| <= |s| ==> s[|core|] == rest[0] != octets[|core|];
  }

  /** White space on the right completes no white space that was not there. */
  lemma StartsBlankLater(core: string, vs: seq<int>)
    requires AllSpace(vs) && core != "" && !StartsBlank(core)
    ensures !StartsBlank(core + Blank(vs))
  {
    forall v | IsWhite(v)
      ensures !StartsWith(core + Blank(vs), v)
    {
      IsSpaceIff(v);
      hide IsWhite, Encode, StartsWith;
      if |Encode(v)| <= |core| {
        StartsSooner(core, Blank(vs), v);
      } else {
        if vs != [] {
          OctetsOf(vs[0]);
        }
        StartsNotAcross(core, Blank(vs), v);
      }
    }
  }

  /** `strings.TrimSpace` takes all white space off both ends, and nothing else. */
  lemma TrimSpaceIff(s: string, core: string)
    ensures TrimSpace(s) == core <==>
            && !StartsBlank(core) && !EndsBlank(core)
            && exists left, right :: AllSpace(left) && AllSpace(right) && s == Blank(left) + core + Blank(right)
  {
    hide IsWhite, Encode, TrimLeft, TrimRight, StartsBlank, EndsBlank, Blank, AllSpace;
    var left := TrimLeftSplits(s);
    var right := TrimRightSplits(TrimLeft(s));
    var trimmed := TrimSpace(s);
    assert s == Blank(left) + trimmed + Blank(right);
    TrimmedStarts(TrimLeft(s), trimmed, Blank(right));
    forall l, r | AllSpace(l) && AllSpace(r) && s == Blank(l) + core + Blank(r) && !StartsBlank(core) && !EndsBlank(core)
      ensures TrimSpace(s) == core
    {
      TrimFramed(l, core, r);
    }
  }

  lemma TrimmedStarts(s: string, core: string, rest: string)
    requires s == core + rest && !StartsBlank(s)
    ensures !StartsBlank(core)
  {
    forall v | IsWhite(v)
      ensures !StartsWith(core, v)
    {
      IsSpaceIff(v);
      hide IsWhite, Encode;
      if |Encode(v)| <= |core| {
        StartsSooner(core, rest, v);
      }
    }
  }

  lemma TrimFramed(left: seq<int>, core: string, right: seq<int>)
    requires AllSpace(left) && AllSpace(right) && !StartsBlank(core) && !EndsBlank(core)
    ensures TrimSpace(Blank(left) + core + Blank(right)) == core
  {
    hide IsWhite, Encode;
    var s := Blank(left) + core + Blank(right);
    assert s == Blank(left) + (core + Blank(right));
    TrimLeftStrips(left, core + Blank(right));
    if core == "" {
      assert core + Blank(right) == Blank(right) + "";
      TrimLeftStrips(right, "");
    } else {
      StartsBlankLater(core, right);
      TrimStops(core + Blank(right));
      TrimRightStrips(core, right);
      TrimStops(core);
    }
  }

  lemma TrimStops(s: string)
    ensures !StartsBlank(s) ==> TrimLeft(s) == s
    ensures !EndsBlank(s) ==> TrimRight(s) == s
  {
    hide IsWhite, Encode, TrimLeft, TrimRight;
    var left := TrimLeftSplits(s);
    var right := TrimRightSplits(s);
    BlankStarts(left, TrimLeft(s));
    BlankEnds(TrimRight(s), right);
  }

  lemma BlankStarts(vs: seq<int>, rest: string)
    requires AllSpace(vs)
    ensures if vs == [] then Blank(vs) + rest == rest else StartsBlank(Blank(vs) + rest)
  {
    hide IsWhite, Encode;
    if vs != [] {
      assert Blank(vs) + rest == Encode(vs[0]) + (Blank(vs[1..]) + rest);
      assert StartsWith(Blank(vs) + rest, vs[0]);
    }
  }

  lemma BlankEnds(rest: string, vs: seq<int>)
    requires AllSpace(vs)
    ensures if vs == [] then rest + Blank(vs) == rest else EndsBlank(rest + Blank(vs))
  {
    hide IsWhite, Encode;
    if vs != [] {
      var n := |vs| - 1;
      assert vs[..n] + [vs[n]] == vs;
      BlankAppend(vs[..n], vs[n]);
      assert rest + Blank(vs) == (rest + Blank(vs[..n])) + Encode(vs[n]);
      assert EndsWith(rest + Blank(vs), vs[n]);
    }
  }
}
