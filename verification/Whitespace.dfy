/** White space: byte by byte, as the calculator's own test has it, and in UTF-8 text, as trimming
    sees it. A text is white space to both exactly when it is ASCII white space. */
module Whitespace {

  /** The single bytes that count as white space when each byte is taken for a character. */
  predicate IsSpace(c: char) {
    '\t' <= c <= '\r' || c == ' ' || c == '\U{85}' || c == '\U{A0}'
  }

  /** The length of the white-space character that UTF-8 text starts with, or 0. */
  function SpaceLen(s: string): (n: nat)
    ensures n <= |s|
  {
    if s != [] && ('\t' <= s[0] <= '\r' || s[0] == ' ') then 1
    else if |s| >= 2 && s[0] == '\U{C2}' && (s[1] == '\U{85}' || s[1] == '\U{A0}') then 2
    else if |s| >= 3 && s[0] == '\U{E1}' && s[1] == '\U{9A}' && s[2] == '\U{80}' then 3
    else if |s| >= 3 && s[0] == '\U{E2}' && s[1] == '\U{80}'
         && ('\U{80}' <= s[2] <= '\U{8A}' || s[2] == '\U{A8}' || s[2] == '\U{A9}' || s[2] == '\U{AF}') then 3
    else if |s| >= 3 && s[0] == '\U{E2}' && s[1] == '\U{81}' && s[2] == '\U{9F}' then 3
    else if |s| >= 3 && s[0] == '\U{E3}' && s[1] == '\U{80}' && s[2] == '\U{80}' then 3
    else 0
  }

  /** Trimming white space off the text leaves nothing. */
  predicate Blank(s: string) {
    s == [] || (SpaceLen(s) > 0 && Blank(s[SpaceLen(s)..]))
  }

  /** The length of the white-space character that UTF-8 text ends with, or 0. */
  function TrailLen(s: string): (n: nat)
    ensures n <= |s| && (n > 0 ==> SpaceLen(s[|s| - n..]) == n)
  {
    if |s| >= 1 && SpaceLen(s[|s| - 1..]) == 1 then 1
    else if |s| >= 2 && SpaceLen(s[|s| - 2..]) == 2 then 2
    else if |s| >= 3 && SpaceLen(s[|s| - 3..]) == 3 then 3
    else 0
  }

  function TrimLeft(s: string): string {
    if SpaceLen(s) > 0 then TrimLeft(s[SpaceLen(s)..]) else s
  }

  function TrimRight(s: string): string {
    if TrailLen(s) > 0 then TrimRight(s[..|s| - TrailLen(s)]) else s
  }

  /** The text without the white space around it. */
  function Trimmed(s: string): string {
    TrimRight(TrimLeft(s))
  }

  /** White space at the front is seen in every longer text. */
  lemma SpaceInLonger(s: string, t: string)
    requires s <= t && SpaceLen(s) > 0
    ensures SpaceLen(t) == SpaceLen(s)
  {
    assert forall i :: 0 <= i < |s| ==> t[i] == s[i];
  }

  lemma {:induction false} TrimRightKeeps(s: string)
    requires s != "" && SpaceLen(s) == 0
    ensures TrimRight(s) != ""
  {
    var n := TrailLen(s);
    if n > 0 {
      var rest := s[..|s| - n];
      assert s[0..] == s;
      if rest != "" && SpaceLen(rest) > 0 {
        SpaceInLonger(rest, s);
        assert false;
      }
      TrimRightKeeps(rest);
    }
  }

  lemma {:induction false} TrimLeftOfBlank(s: string)
    ensures TrimLeft(s) == "" <==> Blank(s)
    ensures SpaceLen(TrimLeft(s)) == 0
  {
    if SpaceLen(s) > 0 {
      TrimLeftOfBlank(s[SpaceLen(s)..]);
    }
  }

  /** A text is blank exactly when trimming leaves nothing of it. */
  lemma BlankIsTrimmed(s: string)
    ensures Trimmed(s) == "" <==> Blank(s)
  {
    TrimLeftOfBlank(s);
    if TrimLeft(s) != "" {
      TrimRightKeeps(TrimLeft(s));
    }
  }

  // ---- the two notions ----

  predicate AllSpace(s: string) {
    forall i :: 0 <= i < |s| ==> IsSpace(s[i])
  }

  predicate AllAscii(s: string) {
    forall i :: 0 <= i < |s| ==> '\t' <= s[i] <= '\r' || s[i] == ' '
  }

  /** A text is white space by both notions exactly when all its bytes are ASCII white space. */
  lemma {:induction false} BothAreAscii(s: string)
    ensures Blank(s) && AllSpace(s) <==> AllAscii(s)
  {
    if s != [] {
      var n := SpaceLen(s);
      if Blank(s) && AllSpace(s) {
        assert IsSpace(s[0]);
        BothAreAscii(s[1..]);
        assert s == [s[0]] + s[1..];
      }
      if AllAscii(s) {
        BothAreAscii(s[1..]);
      }
    }
  }

  /** Neither notion covers the other: a lone 0x85 byte is white space by bytes only, and the three
      bytes of an em space only as text. */
  lemma NeitherCoversTheOther()
    ensures AllSpace("\U{85}") && !Blank("\U{85}")
    ensures Blank("\U{E2}\U{80}\U{83}") && forall i :: 0 <= i < 3 ==> !IsSpace("\U{E2}\U{80}\U{83}"[i])
  {
    var s := "\U{E2}\U{80}\U{83}";
    assert SpaceLen(s) == 3 && s[3..] == [];
  }
}
