/** The random UUID generator (internal/platform/idgen/uuid.go): sections 4.1.1, 4.1.3 and 4.4 of
    RFC 4122. */
module Uuid {
  import opened Errors
  import opened Ids

  const SIZE := 16

  function HexDigit(n: bv8): char {
    if n == 0 then '0' else if n == 1 then '1' else if n == 2 then '2' else if n == 3 then '3'
    else if n == 4 then '4' else if n == 5 then '5' else if n == 6 then '6' else if n == 7 then '7'
    else if n == 8 then '8' else if n == 9 then '9' else if n == 10 then 'a' else if n == 11 then 'b'
    else if n == 12 then 'c' else if n == 13 then 'd' else if n == 14 then 'e' else 'f'
  }

  /** The value of a lower-case hexadecimal digit. */
  function DigitValue(c: char): bv8 {
    if c == '0' then 0 else if c == '1' then 1 else if c == '2' then 2 else if c == '3' then 3
    else if c == '4' then 4 else if c == '5' then 5 else if c == '6' then 6 else if c == '7' then 7
    else if c == '8' then 8 else if c == '9' then 9 else if c == 'a' then 10 else if c == 'b' then 11
    else if c == 'c' then 12 else if c == 'd' then 13 else if c == 'e' then 14 else 15
  }

  function ByteOf(high: char, low: char): bv8 {
    (DigitValue(high) << 4) | DigitValue(low)
  }

  predicate IsLowerDigit(c: char) {
    '0' <= c <= '9' || 'a' <= c <= 'f'
  }

  /** What the verb %x prints for a byte slice. */
  function Hex(bytes: seq<bv8>): (s: string)
    ensures |s| == 2 * |bytes|
  {
    if bytes == [] then "" else
      [HexDigit(bytes[0] >> 4), HexDigit(bytes[0] & 0x0F)] + Hex(bytes[1..])
  }

  lemma {:induction false} HexAt(bytes: seq<bv8>, k: nat)
    requires k < |bytes|
    ensures Hex(bytes)[2 * k] == HexDigit(bytes[k] >> 4)
    ensures Hex(bytes)[2 * k + 1] == HexDigit(bytes[k] & 0x0F)
  {
    if k > 0 {
      HexAt(bytes[1..], k - 1);
      assert Hex(bytes)[2 * k] == Hex(bytes[1..])[2 * (k - 1)];
      assert Hex(bytes)[2 * k + 1] == Hex(bytes[1..])[2 * (k - 1) + 1];
    }
  }

  function Print(value: seq<bv8>): (s: string)
    requires |value| == SIZE
    ensures |s| == 36
  {
    Hex(value[0..4]) + "-" + Hex(value[4..6]) + "-" + Hex(value[6..8]) + "-"
    + Hex(value[8..10]) + "-" + Hex(value[10..16])
  }

  /** The text position of byte `k`. */
  function Offset(k: nat): nat {
    if k < 4 then 2 * k else if k < 6 then 2 * k + 1 else if k < 8 then 2 * k + 2
    else if k < 10 then 2 * k + 3 else 2 * k + 4
  }

  /** Reads the bytes back from a printed ID. */
  function Decode(s: string): (value: seq<bv8>)
    requires |s| == 36
    ensures |value| == SIZE
  {
    seq(SIZE, k requires 0 <= k < SIZE => ByteOf(s[Offset(k)], s[Offset(k) + 1]))
  }

  /** The five hexadecimal groups, read out of the printed text. */
  lemma GroupsOfPrint(value: seq<bv8>)
    requires |value| == SIZE
    ensures Print(value)[0..8] == Hex(value[0..4])
    ensures Print(value)[9..13] == Hex(value[4..6])
    ensures Print(value)[14..18] == Hex(value[6..8])
    ensures Print(value)[19..23] == Hex(value[8..10])
    ensures Print(value)[24..36] == Hex(value[10..16])
  {
  }

  lemma GroupAt(value: seq<bv8>, from: nat, to: nat, k: nat)
    requires |value| == SIZE && from <= k < to <= SIZE
    ensures Hex(value[from..to])[2 * (k - from)] == HexDigit(value[k] >> 4)
    ensures Hex(value[from..to])[2 * (k - from) + 1] == HexDigit(value[k] & 0x0F)
  {
    HexAt(value[from..to], k - from);
  }

  /** Byte `k` inside the group of bytes `from` to `to`, whose text begins at `start`. */
  lemma PrintedGroupAt(value: seq<bv8>, from: nat, to: nat, start: nat, k: nat)
    requires |value| == SIZE && from <= k < to <= SIZE && start + 2 * (to - from) <= 36
    requires Print(value)[start..start + 2 * (to - from)] == Hex(value[from..to])
    ensures Print(value)[start + 2 * (k - from)] == HexDigit(value[k] >> 4)
    ensures Print(value)[start + 2 * (k - from) + 1] == HexDigit(value[k] & 0x0F)
  {
    hide Print, Hex, HexDigit;
    GroupAt(value, from, to, k);
    var group := Print(value)[start..start + 2 * (to - from)];
    assert group[2 * (k - from)] == Print(value)[start + 2 * (k - from)];
    assert group[2 * (k - from) + 1] == Print(value)[start + 2 * (k - from) + 1];
  }

  lemma PrintAt(value: seq<bv8>, k: nat)
    requires |value| == SIZE && k < SIZE
    ensures Print(value)[Offset(k)] == HexDigit(value[k] >> 4)
    ensures Print(value)[Offset(k) + 1] == HexDigit(value[k] & 0x0F)
  {
    hide Print, Hex, HexDigit;
    GroupsOfPrint(value);
    if k < 4 {
      PrintedGroupAt(value, 0, 4, 0, k);
    } else if k < 6 {
      PrintedGroupAt(value, 4, 6, 9, k);
    } else if k < 8 {
      PrintedGroupAt(value, 6, 8, 14, k);
    } else if k < 10 {
      PrintedGroupAt(value, 8, 10, 19, k);
    } else {
      PrintedGroupAt(value, 10, 16, 24, k);
    }
  }

  lemma DashesOfPrint(value: seq<bv8>)
    requires |value| == SIZE
    ensures forall i :: 0 <= i < 36 && IsDashSlot(i) ==> Print(value)[i] == '-'
  {
  }

  lemma NibblesOfByte(b: bv8)
    ensures DigitValue(HexDigit(b >> 4)) == b >> 4
    ensures DigitValue(HexDigit(b & 0x0F)) == b & 0x0F
    ensures ((b >> 4) << 4) | (b & 0x0F) == b
    ensures IsLowerDigit(HexDigit(b >> 4)) && IsLowerDigit(HexDigit(b & 0x0F))
  {
  }

  lemma DigitsOfByte(high: char, low: char)
    requires IsLowerDigit(high) && IsLowerDigit(low)
    ensures var b := ByteOf(high, low);
            HexDigit(b >> 4) == high && HexDigit(b & 0x0F) == low
  {
  }

  /** Decoding undoes printing, on every 16 bytes. */
  lemma DecodePrint(value: seq<bv8>)
    requires |value| == SIZE
    ensures Decode(Print(value)) == value
  {
    forall k | 0 <= k < SIZE
      ensures Decode(Print(value))[k] == value[k]
    {
      PrintAt(value, k);
      NibblesOfByte(value[k]);
    }
  }

  /** Every slot of a printed ID that is not a dash belongs to a byte. */
  function ByteOfSlot(i: nat): (k: nat)
    requires i < 36 && !IsDashSlot(i)
    ensures k < SIZE && (i == Offset(k) || i == Offset(k) + 1)
  {
    if i < 8 then i / 2 else if i < 13 then (i - 1) / 2 else if i < 18 then (i - 2) / 2
    else if i < 23 then (i - 3) / 2 else (i - 4) / 2
  }

  predicate LowerCaseGrammar(s: string) {
    |s| == 36 && forall i :: 0 <= i < |s| ==> if IsDashSlot(i) then s[i] == '-' else IsLowerDigit(s[i])
  }

  lemma PrintIsLowerCase(value: seq<bv8>)
    requires |value| == SIZE
    ensures LowerCaseGrammar(Print(value))
  {
    DashesOfPrint(value);
    forall i | 0 <= i < 36 && !IsDashSlot(i)
      ensures IsLowerDigit(Print(value)[i])
    {
      var k := ByteOfSlot(i);
      PrintAt(value, k);
      NibblesOfByte(value[k]);
    }
  }

  /** Printing undoes decoding, on every lower-case ID. */
  lemma PrintDecode(s: string)
    requires LowerCaseGrammar(s)
    ensures Print(Decode(s)) == s
  {
    var value := Decode(s);
    DashesOfPrint(value);
    forall i | 0 <= i < 36
      ensures Print(value)[i] == s[i]
    {
      if !IsDashSlot(i) {
        var k := ByteOfSlot(i);
        PrintAt(value, k);
        assert !IsDashSlot(Offset(k)) && !IsDashSlot(Offset(k) + 1);
        DigitsOfByte(s[Offset(k)], s[Offset(k) + 1]);
      }
    }
  }

  /** The version and variant bits, written over six bits of the random bytes. */
  function Stamp(value: seq<bv8>): (stamped: seq<bv8>)
    requires |value| == SIZE
    ensures |stamped| == SIZE
  {
    value[6 := (value[6] & 0x0F) | 0x40][8 := (value[8] & 0x3F) | 0x80]
  }

  /** Two inputs agree wherever the generator keeps their bits. */
  predicate AgreeOutsideStamp(v: seq<bv8>, w: seq<bv8>)
    requires |v| == |w| == SIZE
  {
    && (forall k :: 0 <= k < SIZE && k != 6 && k != 8 ==> v[k] == w[k])
    && v[6] & 0x0F == w[6] & 0x0F
    && v[8] & 0x3F == w[8] & 0x3F
  }

  /** `NewID`: fills the array, overwrites bytes 6 and 8 in place, prints and parses. The parse of
      a generated text never fails. */
  method NewID(random: seq<bv8>, readError: Option<Error>) returns (r: Result<string>)
    requires |random| == SIZE
    ensures readError.Some? ==> r == Err(Wrap("generate random UUID bytes: ", readError.value))
    ensures readError.None? ==> r == Ok(Print(Stamp(random))) && IsValid(r.value)
  {
    if readError.Some? {
      return Err(Wrap("generate random UUID bytes: ", readError.value));
    }
    var value := new bv8[SIZE](i requires 0 <= i < SIZE => random[i]);
    value[6] := (value[6] & 0x0F) | 0x40;
    value[8] := (value[8] & 0x3F) | 0x80;
    assert value[..] == Stamp(random);
    var rawID := Print(value[..]);
    r := ParseID(rawID);
    PrintedIDParses(Stamp(random));
  }

  /** Every printed ID is valid and parses to itself. */
  lemma PrintedIDParses(value: seq<bv8>)
    requires |value| == SIZE
    ensures IsValid(Print(value)) && ParseID(Print(value)) == Ok(Print(value))
  {
    PrintIsLowerCase(value);
    var s := Print(value);
    forall i | 0 <= i < |s|
      ensures SlotAccepts(i, s[i] as int)
    {
    }
    ValidIffSlots(s);
    ParseIDKeepsValid(s);
  }

  /** Stamping keeps apart exactly what differs outside the six bits. */
  lemma StampAlike(v: seq<bv8>, w: seq<bv8>)
    requires |v| == |w| == SIZE
    ensures Stamp(v) == Stamp(w) <==> AgreeOutsideStamp(v, w)
  {
    StampAt(v);
    StampAt(w);
    SixBits(v[6], v[8]);
    SixBits(w[6], w[8]);
    hide Stamp;
    if Stamp(v) == Stamp(w) {
      assert Stamp(v)[6] == Stamp(w)[6] && Stamp(v)[8] == Stamp(w)[8];
      forall k | 0 <= k < SIZE && k != 6 && k != 8
        ensures v[k] == w[k]
      {
        assert Stamp(v)[k] == Stamp(w)[k];
      }
    }
    if AgreeOutsideStamp(v, w) {
      forall k | 0 <= k < SIZE
        ensures Stamp(v)[k] == Stamp(w)[k]
      {
      }
    }
  }

  lemma StampAt(v: seq<bv8>)
    requires |v| == SIZE
    ensures forall k :: 0 <= k < SIZE && k != 6 && k != 8 ==> Stamp(v)[k] == v[k]
    ensures Stamp(v)[6] == (v[6] & 0x0F) | 0x40 && Stamp(v)[8] == (v[8] & 0x3F) | 0x80
  {
  }

  /** Two inputs print alike exactly when they agree outside the six stamped bits. */
  lemma PrintAlike(v: seq<bv8>, w: seq<bv8>)
    requires |v| == |w| == SIZE
    ensures Print(Stamp(v)) == Print(Stamp(w)) <==> AgreeOutsideStamp(v, w)
  {
    hide Stamp, Print, Decode, AgreeOutsideStamp;
    StampAlike(v, w);
    DecodePrint(Stamp(v));
    DecodePrint(Stamp(w));
  }

  lemma SixBits(b6: bv8, b8: bv8)
    ensures ((b6 & 0x0F) | 0x40) & 0x0F == b6 & 0x0F
    ensures ((b8 & 0x3F) | 0x80) & 0x3F == b8 & 0x3F
    ensures HexDigit(((b6 & 0x0F) | 0x40) >> 4) == '4'
    ensures HexDigit(((b8 & 0x3F) | 0x80) >> 4) in "89ab"
  {
  }

  lemma StampedNibbles(high: char, low: char)
    requires IsLowerDigit(high) && IsLowerDigit(low)
    ensures var b := ByteOf(high, low);
            && (high == '4' ==> (b & 0x0F) | 0x40 == b)
            && (high in "89ab" ==> (b & 0x3F) | 0x80 == b)
  {
  }

  /** What a version 4 ID of RFC 4122 looks like in lower case. */
  predicate IsVersion4(s: string) {
    LowerCaseGrammar(s) && s[14] == '4' && s[19] in "89ab"
  }

  /** The generator reaches the version 4 IDs and no other text. */
  lemma GeneratorRange(s: string)
    ensures IsVersion4(s) <==> exists v: seq<bv8> :: |v| == SIZE && Print(Stamp(v)) == s
  {
    if IsVersion4(s) {
      var v := Decode(s);
      StampedNibbles(s[14], s[15]);
      StampedNibbles(s[19], s[20]);
      assert Stamp(v) == v;
      PrintDecode(s);
    }
    forall v: seq<bv8> | |v| == SIZE && Print(Stamp(v)) == s
      ensures IsVersion4(s)
    {
      PrintIsLowerCase(Stamp(v));
      PrintAt(Stamp(v), 6);
      PrintAt(Stamp(v), 8);
      SixBits(v[6], v[8]);
    }
  }
}
