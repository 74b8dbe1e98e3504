/** Which texts name a type or a status (internal/domain/job/type.go, status.go), letter by letter. */
module Names {
  import opened GoText
  import opened Utf8
  import opened Errors
  import opened JobEntity

  /** The code points of a text, from byte `i` on. */
  function Runes(s: string, i: nat): seq<int>
    requires i <= |s|
    decreases |s| - i
  {
    if i == |s| then [] else
      var r := DecodeRune(s, i);
      [r.value] + Runes(s, i + r.width)
  }

  /** A letter of a name, its capital, or one of the two other code points whose lower case it is. */
  predicate Writes(rune: int, letter: char) {
    || rune == letter as int
    || ('a' <= letter <= 'z' && rune == letter as int - 'a' as int + 'A' as int)
    || (letter == 'i' && rune == 0x130)
    || (letter == 'k' && rune == 0x212A)
  }

  predicate Spells(text: string, name: string) {
    var runes := Runes(text, 0);
    |runes| == |name| && forall k :: 0 <= k < |name| ==> Writes(runes[k], name[k])
  }

  lemma LowerRuneIff(rune: int, letter: char)
    requires 'a' <= letter <= 'z' || letter == '_'
    ensures LowerRune(rune) == letter as int <==> Writes(rune, letter)
  {
  }

  function Lowered(runes: seq<int>): seq<int> {
    seq(|runes|, k requires 0 <= k < |runes| => LowerRune(runes[k]))
  }

  lemma {:induction false} LowerRunesAre(s: string, i: nat)
    requires i <= |s|
    ensures LowerRunes(s, i) == Lowered(Runes(s, i))
    decreases |s| - i
  {
    hide DecodeRune, LowerRune;
    if i < |s| {
      var r := DecodeRune(s, i);
      var rest := Runes(s, i + r.width);
      LowerRunesAre(s, i + r.width);
      assert Lowered([r.value] + rest) == [LowerRune(r.value)] + Lowered(rest);
    }
  }

  lemma SpellsIff(text: string, name: string)
    requires LowerName(name)
    ensures LowerRunes(text, 0) == Codes(name) <==> Spells(text, name)
  {
    LowerRunesAre(text, 0);
    hide LowerRunes, Runes;
    var runes := Runes(text, 0);
    var lowered := Lowered(runes);
    if |runes| == |name| {
      forall k | 0 <= k < |name|
        ensures lowered[k] == Codes(name)[k] <==> Writes(runes[k], name[k])
      {
        LowerRuneIff(runes[k], name[k]);
      }
      hide Writes, LowerRune, Lowered;
      assert lowered == Codes(name) <==> forall k :: 0 <= k < |name| ==> lowered[k] == Codes(name)[k];
    }
  }

  /** The three type names, and no other text but their spellings, white space around them allowed. */
  lemma ParseTypeIff(value: string)
    ensures ParseType(value) == Ok(SendEmail) <==> Spells(TrimSpace(value), "send_email")
    ensures ParseType(value) == Ok(ReportGeneration) <==> Spells(TrimSpace(value), "report_generation")
    ensures ParseType(value) == Ok(DataCleanup) <==> Spells(TrimSpace(value), "data_cleanup")
    ensures ParseType(value).Err? ==> Is(ParseType(value).error, InvalidType)
  {
    hide TrimSpace, Spells, LowerRunes;
    var text := TrimSpace(value);
    SpellsIff(text, "send_email");
    SpellsIff(text, "report_generation");
    SpellsIff(text, "data_cleanup");
    TypeNamesAreDistinct(SendEmail);
    TypeNamesAreDistinct(ReportGeneration);
    TypeNamesAreDistinct(DataCleanup);
  }

  lemma ParseStatusIff(value: string)
    ensures ParseStatus(value) == Ok(Pending) <==> Spells(TrimSpace(value), "pending")
    ensures ParseStatus(value) == Ok(Processing) <==> Spells(TrimSpace(value), "processing")
    ensures ParseStatus(value) == Ok(Success) <==> Spells(TrimSpace(value), "success")
    ensures ParseStatus(value) == Ok(Failed) <==> Spells(TrimSpace(value), "failed")
    ensures ParseStatus(value).Err? ==> Is(ParseStatus(value).error, InvalidStatus)
  {
    hide TrimSpace, Spells, LowerRunes;
    var text := TrimSpace(value);
    SpellsIff(text, "pending");
    SpellsIff(text, "processing");
    SpellsIff(text, "success");
    SpellsIff(text, "failed");
    StatusNamesAreDistinct(Pending);
    StatusNamesAreDistinct(Processing);
    StatusNamesAreDistinct(Success);
    StatusNamesAreDistinct(Failed);
  }

  // ---------------------------------------------------------------- ASCII

  predicate AllAscii(s: string) {
    forall k :: 0 <= k < |s| ==> s[k] as int < 0x80
  }

  /** Tab, line feed, vertical tab, form feed, carriage return and space. */
  predicate AsciiBlank(s: string) {
    forall k :: 0 <= k < |s| ==> s[k] as int in {9, 10, 11, 12, 13, 32}
  }

  /** The same letters, some of them perhaps capitals. */
  predicate CaseAlike(core: string, name: string) {
    && |core| == |name|
    && forall k :: 0 <= k < |name| ==>
         core[k] == name[k] || ('a' <= name[k] <= 'z' && core[k] as int == name[k] as int - 32)
  }

  predicate WrittenAs(value: string, left: string, core: string, right: string, name: string) {
    value == left + core + right && AsciiBlank(left) && AsciiBlank(right) && CaseAlike(core, name)
  }

  lemma {:induction false} RunesOfAscii(s: string, i: nat)
    requires i <= |s| && AllAscii(s)
    ensures Runes(s, i) == Codes(s)[i..]
    decreases |s| - i
  {
    hide DecodeRune;
    if i < |s| {
      assert DecodeRune(s, i) == Rune(s[i] as int, 1);
      assert Codes(s)[i..] == [s[i] as int] + Codes(s)[i + 1..];
      RunesOfAscii(s, i + 1);
    }
  }

  lemma SpellsAscii(core: string, name: string)
    requires AllAscii(core) && LowerName(name)
    ensures Spells(core, name) <==> CaseAlike(core, name)
  {
    RunesOfAscii(core, 0);
    hide Runes;
    assert Runes(core, 0) == Codes(core);
  }

  lemma AsciiSpace(c: char)
    requires c as int in {9, 10, 11, 12, 13, 32}
    ensures IsWhite(c as int) && IsScalar(c as int) && Encode(c as int) == [c]
  {
  }

  lemma {:induction false} AsciiIsBlank(s: string) returns (vs: seq<int>)
    requires AsciiBlank(s)
    ensures AllSpace(vs) && Blank(vs) == s
    decreases |s|
  {
    hide IsWhite, IsScalar, Encode, AllSpace, Blank;
    vs := [];
    NoBlank();
    if s != "" {
      AsciiSpace(s[0]);
      var more := AsciiIsBlank(s[1..]);
      vs := [s[0] as int] + more;
      BlankPrepend(s[0] as int, more);
      assert s == [s[0]] + s[1..];
    }
  }

  lemma NoBlank()
    ensures AllSpace([]) && Blank([]) == ""
  {
  }

  lemma {:induction false} BlankIsAscii(vs: seq<int>)
    requires AllSpace(vs) && AllAscii(Blank(vs))
    ensures AsciiBlank(Blank(vs))
    decreases |vs|
  {
    if vs != [] {
      OctetsOf(vs[0]);
      assert Blank(vs)[0] == Encode(vs[0])[0];
      assert Encode(vs[0]) == [vs[0] as char];
      assert Blank(vs)[1..] == Blank(vs[1..]);
      assert forall k :: 0 <= k < |vs| - 1 ==> vs[1..][k] == vs[k + 1];
      BlankIsAscii(vs[1..]);
    }
  }

  /** An ASCII text names something exactly when it is the name in any mixture of capitals and small
      letters, with any white space on either side. */
  lemma AsciiNameIff(value: string, name: string)
    requires AllAscii(value) && LowerName(name)
    ensures Spells(TrimSpace(value), name) <==>
            exists left, core, right :: WrittenAs(value, left, core, right, name)
  {
    hide Spells, TrimSpace, IsWhite, Encode, Blank;
    var core := TrimSpace(value);
    TrimSpaceIff(value, core);
    var left, right :| AllSpace(left) && AllSpace(right) && value == Blank(left) + core + Blank(right);
    PartsAreAscii(Blank(left), core, Blank(right));
    BlankIsAscii(left);
    BlankIsAscii(right);
    SpellsAscii(core, name);
    if Spells(core, name) {
      assert WrittenAs(value, Blank(left), core, Blank(right), name);
    }
    forall l, c, r | WrittenAs(value, l, c, r, name)
      ensures Spells(core, name)
    {
      WrittenSpells(l, c, r, name);
    }
  }

  lemma PartsAreAscii(left: string, core: string, right: string)
    requires AllAscii(left + core + right)
    ensures AllAscii(left) && AllAscii(core) && AllAscii(right)
  {
    var s := left + core + right;
    assert forall k :: 0 <= k < |left| ==> left[k] == s[k];
    assert forall k :: 0 <= k < |core| ==> core[k] == s[|left| + k];
    assert forall k :: 0 <= k < |right| ==> right[k] == s[|left| + |core| + k];
  }

  /** The same from the parts, which need no search. */
  lemma WrittenSpells(left: string, core: string, right: string, name: string)
    requires AsciiBlank(left) && AsciiBlank(right) && CaseAlike(core, name) && LowerName(name)
    ensures Spells(TrimSpace(left + core + right), name)
  {
    var l := AsciiIsBlank(left);
    var r := AsciiIsBlank(right);
    var n := |core| - 1;
    assert Printable(core[0]) && Printable(core[n]);
    NotSpaceStops(core, core[0] as int);
    NotSpaceEnds(core, core[n] as int);
    hide IsWhite, Encode, Blank, StartsBlank, EndsBlank, TrimSpace, Spells;
    TrimFramed(l, core, r);
    SpellsAscii(core, name);
  }

  /** Types and statuses are read from any such writing of their names. */
  lemma ParsedAsWritten(left: string, core: string, right: string)
    requires AsciiBlank(left) && AsciiBlank(right)
    ensures CaseAlike(core, "send_email") ==> ParseType(left + core + right) == Ok(SendEmail)
    ensures CaseAlike(core, "report_generation") ==> ParseType(left + core + right) == Ok(ReportGeneration)
    ensures CaseAlike(core, "data_cleanup") ==> ParseType(left + core + right) == Ok(DataCleanup)
    ensures CaseAlike(core, "pending") ==> ParseStatus(left + core + right) == Ok(Pending)
    ensures CaseAlike(core, "processing") ==> ParseStatus(left + core + right) == Ok(Processing)
    ensures CaseAlike(core, "success") ==> ParseStatus(left + core + right) == Ok(Success)
    ensures CaseAlike(core, "failed") ==> ParseStatus(left + core + right) == Ok(Failed)
  {
    hide TrimSpace, Spells, ParseType, ParseStatus, AsciiBlank, CaseAlike;
    var value := left + core + right;
    ParseTypeIff(value);
    ParseStatusIff(value);
    if CaseAlike(core, "send_email") { WrittenSpells(left, core, right, "send_email"); }
    if CaseAlike(core, "report_generation") { WrittenSpells(left, core, right, "report_generation"); }
    if CaseAlike(core, "data_cleanup") { WrittenSpells(left, core, right, "data_cleanup"); }
    if CaseAlike(core, "pending") { WrittenSpells(left, core, right, "pending"); }
    if CaseAlike(core, "processing") { WrittenSpells(left, core, right, "processing"); }
    if CaseAlike(core, "success") { WrittenSpells(left, core, right, "success"); }
    if CaseAlike(core, "failed") { WrittenSpells(left, core, right, "failed"); }
  }
}
