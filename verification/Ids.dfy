/** Job IDs: the grammar 8-4-4-4-12 of hexadecimal digits (internal/domain/job/id.go). */
module Ids {
  import opened GoText
  import opened Errors

  predicate IsHexadecimal(rune: int) {
    || '0' as int <= rune <= '9' as int
    || 'a' as int <= rune <= 'f' as int
    || 'A' as int <= rune <= 'F' as int
  }

  predicate IsDashSlot(index: int) {
    index == 8 || index == 13 || index == 18 || index == 23
  }

  predicate SlotAccepts(index: int, rune: int) {
    if IsDashSlot(index) then rune == '-' as int else IsHexadecimal(rune)
  }

  /** The `range` loop of `IsValid` from byte `i` on. It steps by decoded runes, not by bytes. */
  predicate ScanFrom(s: string, i: nat)
    requires i <= |s|
    decreases |s| - i
  {
    i == |s| ||
    var r := DecodeRune(s, i);
    SlotAccepts(i, r.value) && ScanFrom(s, i + r.width)
  }

  predicate IsValid(s: string) {
    |s| == 36 && ScanFrom(s, 0)
  }

  /** Where the 32 digits and the four dashes stand. */
  const LAYOUT := "xxxxxxxx-xxxx-xxxx-xxxx-xxxxxxxxxxxx"

  const HEXADECIMAL: set<char> := {
    '0', '1', '2', '3', '4', '5', '6', '7', '8', '9',
    'a', 'b', 'c', 'd', 'e', 'f', 'A', 'B', 'C', 'D', 'E', 'F'
  }

  /** The grammar that the loop is meant to recognise, character by character. */
  predicate InGrammar(s: string) {
    && |s| == |LAYOUT|
    && forall k :: 0 <= k < |s| ==> if LAYOUT[k] == '-' then s[k] == '-' else s[k] in HEXADECIMAL
  }

  lemma SlotIff(k: nat, c: char)
    requires k < |LAYOUT|
    ensures SlotAccepts(k, c as int) <==> if LAYOUT[k] == '-' then c == '-' else c in HEXADECIMAL
  {
    assert LAYOUT[k] == '-' <==> IsDashSlot(k);
    HexadecimalIff(c);
  }

  lemma HexadecimalIff(c: char)
    ensures IsHexadecimal(c as int) <==> c in HEXADECIMAL
  {
  }

  lemma {:induction false} ScanReadsEveryByte(s: string, i: nat)
    requires i <= |s|
    ensures ScanFrom(s, i) <==> forall k :: i <= k < |s| ==> SlotAccepts(k, s[k] as int)
    decreases |s| - i
  {
    if i < |s| {
      var r := DecodeRune(s, i);
      if SlotAccepts(i, r.value) {
        assert s[i] as int < 0x80;
      }
      ScanReadsEveryByte(s, i + r.width);
    }
  }

  lemma ValidIffSlots(s: string)
    ensures IsValid(s) <==> |s| == 36 && forall k :: 0 <= k < |s| ==> SlotAccepts(k, s[k] as int)
  {
    if |s| == 36 {
      ScanReadsEveryByte(s, 0);
    }
  }

  /** The rune-indexed loop accepts exactly the byte grammar, on every string. */
  lemma IsValidIsGrammar(s: string)
    ensures IsValid(s) <==> InGrammar(s)
  {
    ValidIffSlots(s);
    hide IsValid;
    forall k | 0 <= k < |s| == 36
      ensures SlotAccepts(k, s[k] as int) <==> if LAYOUT[k] == '-' then s[k] == '-' else s[k] in HEXADECIMAL
    {
      SlotIff(k, s[k]);
    }
    hide SlotAccepts;
  }

  function ParseID(value: string): Result<string> {
    var normalized := TrimSpace(value);
    if IsValid(normalized) then Ok(normalized)
    else Err(Wrap("invalid job ID", Sentinel(InvalidID)))
  }

  /** A valid ID parses to itself. */
  lemma ParseIDKeepsValid(id: string)
    requires IsValid(id)
    ensures ParseID(id) == Ok(id)
  {
    ValidIffSlots(id);
    assert SlotAccepts(0, id[0] as int) && SlotAccepts(35, id[35] as int);
    TrimSpaceKeeps(id);
  }

  /** Parsing accepts exactly the valid IDs with white space around them, returns the valid ID
      inside, and parsing that again changes nothing. */
  lemma ParseIDNormalizes(value: string)
    ensures ParseID(value).Ok? <==> InGrammar(TrimSpace(value))
    ensures ParseID(value).Ok? ==> ParseID(ParseID(value).value) == ParseID(value)
    ensures ParseID(value).Err? ==> Is(ParseID(value).error, InvalidID)
  {
    IsValidIsGrammar(TrimSpace(value));
    if ParseID(value).Ok? {
      ParseIDKeepsValid(ParseID(value).value);
    }
  }
}
