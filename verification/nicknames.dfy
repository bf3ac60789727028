// Which nicknames and introductions are accepted, and as what: character by character.
module Nicknames {
  import opened Wrappers
  import opened Validation

  // ---- one space for every run of spaces -----------------------------------------------------------

  function Unled(s: string): (rest: string)
    ensures |rest| <= |s|
  {
    if s != "" && s[0] == ' ' then Unled(s[1..]) else s
  }

  // Runs of spaces shrink to one, and one at the end to none.
  function Single(s: string): string
    decreases |s|
  {
    if s == "" then ""
    else if s[0] != ' ' then [s[0]] + Single(s[1..])
    else if Unled(s) == "" then "" else " " + Single(Unled(s))
  }

  lemma {:induction false} LedBySpace(s: string)
    ensures CollapseSpaces(" " + s) == CollapseSpaces(s)
  {
    assert (" " + s)[1..] == s;
    assert ([""] + Pieces(s))[1..] == Pieces(s);
  }

  lemma {:induction false} UnledCollapses(s: string)
    ensures CollapseSpaces(Unled(s)) == CollapseSpaces(s)
    decreases |s|
  {
    hide CollapseSpaces;
    if s != "" && s[0] == ' ' {
      assert s == " " + s[1..];
      LedBySpace(s[1..]);
      UnledCollapses(s[1..]);
    }
  }

  // A word goes on until the next space.
  lemma FirstWord(s: string)
    requires s != "" && s[0] != ' '
    ensures var rest := Pieces(s[1..]);
      CollapseSpaces(s) == Joined([[s[0]] + rest[0]] + NonEmpty(rest[1..]))
  {
    hide Joined;
    var rest := Pieces(s[1..]);
    var pieces := [[s[0]] + rest[0]] + rest[1..];
    assert pieces[0] == [s[0]] + rest[0] && pieces[1..] == rest[1..];
  }

  lemma LastLetter(s: string)
    requires |s| == 1 && s[0] != ' '
    ensures CollapseSpaces(s) == [s[0]]
  {
    FirstWord(s);
    assert Pieces(s[1..]) == [""];
    assert [s[0]] + "" == [s[0]];
  }

  lemma InnerLetter(s: string)
    requires |s| > 1 && s[0] != ' ' && s[1] != ' '
    ensures CollapseSpaces(s) == [s[0]] + CollapseSpaces(s[1..])
  {
    hide Joined, Pieces, NonEmpty, CollapseSpaces;
    FirstWord(s);
    FirstWord(s[1..]);
    var word := [s[1]] + Pieces(s[1..][1..])[0];
    var words := NonEmpty(Pieces(s[1..])[1..]);
    NextPieces(s[1..]);
    WordFirst([s[0]] + word, words);
    WordFirst(word, words);
  }

  lemma NextPieces(s: string)
    requires s != "" && s[0] != ' '
    ensures Pieces(s)[0] == [s[0]] + Pieces(s[1..])[0] && Pieces(s)[1..] == Pieces(s[1..])[1..]
  {
  }

  lemma LetterBeforeSpace(s: string)
    requires |s| > 1 && s[0] != ' ' && s[1] == ' '
    ensures CollapseSpaces(s) == [s[0]] + if CollapseSpaces(s[1..]) == "" then "" else " " + CollapseSpaces(s[1..])
  {
    hide Joined, NonEmpty;
    FirstWord(s);
    var words := NonEmpty(Pieces(s[1..])[1..]);
    assert Pieces(s[1..])[0] == "";
    assert [s[0]] + "" == [s[0]];
    NothingFirst(Pieces(s[1..]));
    WordFirst([s[0]], words);
    EmptyJoined(words);
  }

  lemma NothingFirst(pieces: seq<string>)
    requires pieces != [] && pieces[0] == ""
    ensures NonEmpty(pieces) == NonEmpty(pieces[1..])
  {
  }

  lemma WordFirst(word: string, words: seq<string>)
    ensures Joined([word] + words) == if words == [] then word else word + " " + Joined(words)
  {
    assert ([word] + words)[1..] == words;
  }

  lemma EmptyJoined(words: seq<string>)
    requires forall i :: 0 <= i < |words| ==> words[i] != ""
    ensures Joined(words) == "" <==> words == []
  {
  }

  // Collapsing the spaces of a text is dropping those at its start and shrinking the rest.
  lemma {:induction false} CollapsedExactly(s: string)
    ensures CollapseSpaces(s) == Single(Unled(s))
    decreases |s|
  {
    hide CollapseSpaces;
    UnledCollapses(s);
    var t := Unled(s);
    UnledStarts(s);
    if t == "" { NothingCollapses(); }
    else {
      CollapsedExactly(t[1..]);
      if t[1..] == "" {
        LastLetter(t);
        assert [t[0]] + "" == [t[0]];
      } else if t[1] == ' ' {
        LetterBeforeSpace(t);
        SingleSpace(t[1..]);
      } else {
        InnerLetter(t);
        assert Unled(t[1..]) == t[1..];
      }
    }
  }

  lemma NothingCollapses()
    ensures CollapseSpaces("") == ""
  {
  }

  lemma UnledStarts(s: string)
    ensures Unled(s) != "" ==> Unled(s)[0] != ' '
  {
  }

  lemma SingleSpace(s: string)
    requires s != "" && s[0] == ' '
    ensures Single(s) == if Single(Unled(s)) == "" then "" else " " + Single(Unled(s))
  {
    UnledStarts(s);
  }

  // ---- characters -------------------------------------------------------------------------------------

  // The format characters that would spoof a name, one by one.
  const FORMAT_CHARACTERS: seq<int> := [
    0x200b, 0x200c, 0x200d, 0x200e, 0x200f, 0x202a, 0x202b, 0x202c, 0x202d, 0x202e, 0x2060, 0x2061, 0x2062, 0x2063,
    0x2064, 0x2066, 0x2067, 0x2068, 0x2069, 0xfeff]

  // A control character or one of those.
  predicate Spoofs(ch: char) {
    ch as int < 0x20 || 0x7f <= ch as int <= 0x9f || ch as int in FORMAT_CHARACTERS
  }

  lemma UnsafeExactly(ch: char)
    ensures IsUnsafe(ch) <==> Spoofs(ch)
  {
    var c := ch as int;
    if 0x200b <= c <= 0x200f { assert FORMAT_CHARACTERS[c - 0x200b] == c; }
    if 0x202a <= c <= 0x202e { assert FORMAT_CHARACTERS[5 + (c - 0x202a)] == c; }
    if 0x2060 <= c <= 0x2064 { assert FORMAT_CHARACTERS[10 + (c - 0x2060)] == c; }
    if 0x2066 <= c <= 0x2069 { assert FORMAT_CHARACTERS[15 + (c - 0x2066)] == c; }
    if c == 0xfeff { assert FORMAT_CHARACTERS[19] == c; }
  }

  // The Unicode property White_Space, one by one.
  const WHITE_SPACE: seq<int> := [
    0x09, 0x0a, 0x0b, 0x0c, 0x0d, 0x20, 0x85, 0xa0, 0x1680, 0x2000, 0x2001, 0x2002, 0x2003, 0x2004, 0x2005, 0x2006,
    0x2007, 0x2008, 0x2009, 0x200a, 0x2028, 0x2029, 0x202f, 0x205f, 0x3000]

  lemma WhitespaceExactly(ch: char)
    ensures IsWhitespace(ch) <==> ch as int in WHITE_SPACE
  {
    var c := ch as int;
    if 0x09 <= c <= 0x0d { assert WHITE_SPACE[c - 0x09] == c; }
    if 0x2000 <= c <= 0x200a { assert WHITE_SPACE[9 + (c - 0x2000)] == c; }
    if 0x2028 <= c <= 0x2029 { assert WHITE_SPACE[20 + (c - 0x2028)] == c; }
    assert WHITE_SPACE[5] == 0x20 && WHITE_SPACE[6] == 0x85 && WHITE_SPACE[7] == 0xa0 && WHITE_SPACE[8] == 0x1680;
    assert WHITE_SPACE[22] == 0x202f && WHITE_SPACE[23] == 0x205f && WHITE_SPACE[24] == 0x3000;
  }

  // ---- validation ---------------------------------------------------------------------------------------

  // The answer to a nickname: the first complaint, or the composed text with its spaces collapsed.
  lemma {:induction false} NicknameAnswered(nfc: string -> string, input: string)
    ensures var text := nfc(input);
      var name := Single(Unled(text));
      ValidateNickname(nfc, input) ==
        if input == "" then Err(EmptyNickname)
        else if exists ch :: ch in text && Spoofs(ch) then Err(ControlCharacterNotAllowed)
        else if exists ch :: ch in text && ch as int in WHITE_SPACE && ch != ' ' then Err(ExoticWhitespaceNotAllowed)
        else if forall ch :: ch in text ==> ch == ' ' then Err(EmptyNickname)
        else if |name| > 32 then Err(NicknameTooLong)
        else Ok(name)
  {
    hide IsWhitespace, CollapseSpaces, IsUnsafe, Spoofs, Single, Unled;
    var text := nfc(input);
    UnsafeText(text);
    CollapsedExactly(text);
    BlankIsEmpty(text);
    ExoticText(text);
  }

  lemma ExoticText(text: string)
    ensures ContainsExotic(text) <==> exists ch :: ch in text && ch as int in WHITE_SPACE && ch != ' '
  {
    hide IsWhitespace;
    forall ch ensures IsWhitespace(ch) <==> ch as int in WHITE_SPACE { WhitespaceExactly(ch); }
    if ContainsExotic(text) {
      var i :| 0 <= i < |text| && IsWhitespace(text[i]) && text[i] != ' ';
      assert text[i] in text && text[i] as int in WHITE_SPACE;
    }
  }

  lemma UnsafeText(text: string)
    ensures ContainsUnsafe(text) <==> exists ch :: ch in text && Spoofs(ch)
  {
    hide IsUnsafe, Spoofs;
    forall ch ensures IsUnsafe(ch) <==> Spoofs(ch) { UnsafeExactly(ch); }
    if ContainsUnsafe(text) {
      var i :| 0 <= i < |text| && IsUnsafe(text[i]);
      assert text[i] in text && Spoofs(text[i]);
    }
  }

  lemma {:induction false} BlankIsEmpty(text: string)
    ensures Single(Unled(text)) == "" <==> forall ch :: ch in text ==> ch == ' '
    decreases |text|
  {
    if text != "" {
      assert text[0] in text;
      assert forall ch :: ch in text <==> ch == text[0] || ch in text[1..];
      BlankIsEmpty(text[1..]);
    }
  }

  lemma {:induction false} IntroAnswered(input: string)
    ensures ValidateIntro(input) ==
      if input == "" then Ok(())
      else if '\n' in input || '\r' in input then Err(NotSingleLine)
      else if exists ch :: ch in input && Spoofs(ch) then Err(ControlCharacterNotAllowed)
      else if |input| > 160 then Err(IntroTooLong)
      else Ok(())
  {
    hide IsUnsafe, Spoofs, ContainsUnsafe;
    UnsafeText(input);
  }
}
