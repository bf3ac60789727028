// Nickname validation and normalisation (src/validation.rs).
module Validation {
  import opened Wrappers

  datatype ValidationError =
    | EmptyNickname | ControlCharacterNotAllowed | ExoticWhitespaceNotAllowed | NicknameTooLong
    | NotSingleLine | IntroTooLong

  const MAX_NICKNAME: nat := 32
  const MAX_INTRO: nat := 160

  predicate In(ch: char, low: int, high: int) { low <= ch as int <= high }

  predicate IsControl(ch: char) { In(ch, 0, 0x1f) || In(ch, 0x7f, 0x9f) }

  predicate IsUnsafe(ch: char) {
    || IsControl(ch) || In(ch, 0x200b, 0x200f) || In(ch, 0x202a, 0x202e) || In(ch, 0x2060, 0x2064)
    || In(ch, 0x2066, 0x2069) || In(ch, 0xfeff, 0xfeff)
  }

  // `char::is_whitespace`: the Unicode property White_Space.
  predicate IsWhitespace(ch: char) {
    || In(ch, 0x09, 0x0d) || ch == ' ' || In(ch, 0x85, 0x85) || In(ch, 0xa0, 0xa0) || In(ch, 0x1680, 0x1680)
    || In(ch, 0x2000, 0x200a) || In(ch, 0x2028, 0x2029) || In(ch, 0x202f, 0x202f) || In(ch, 0x205f, 0x205f)
    || In(ch, 0x3000, 0x3000)
  }

  predicate ContainsUnsafe(s: string) { exists i :: 0 <= i < |s| && IsUnsafe(s[i]) }

  predicate ContainsExotic(s: string) { exists i :: 0 <= i < |s| && IsWhitespace(s[i]) && s[i] != ' ' }

  // ---- Unicode composition ----------------------------------------------------------------

  // What normalisation form C is relied on for: it is idempotent, and a space is a barrier that
  // it neither crosses nor makes nor removes.
  ghost predicate Composes(nfc: string -> string) {
    && (forall s :: nfc(nfc(s)) == nfc(s))
    && (forall a, b :: nfc(a + " " + b) == nfc(a) + " " + nfc(b))
    && (forall w :: ' ' !in w ==> ' ' !in nfc(w))
    && nfc("") == ""
  }

  type Composition = f: string -> string | Composes(f) witness (s: string) => s

  // ---- words -----------------------------------------------------------------------------------

  // The pieces of `s` between its spaces, empty ones included: `split(' ')`.
  function Pieces(s: string): (pieces: seq<string>)
    ensures pieces != [] && forall i :: 0 <= i < |pieces| ==> ' ' !in pieces[i]
  {
    if s == "" then [""]
    else
      var rest := Pieces(s[1..]);
      if s[0] == ' ' then [""] + rest else [[s[0]] + rest[0]] + rest[1..]
  }

  function NonEmpty(pieces: seq<string>): (words: seq<string>)
    ensures forall i :: 0 <= i < |words| ==> words[i] != "" && words[i] in pieces
    decreases |pieces|
  {
    if pieces == [] then []
    else if pieces[0] == "" then NonEmpty(pieces[1..]) else [pieces[0]] + NonEmpty(pieces[1..])
  }

  // One space between every two pieces.
  function Joined(pieces: seq<string>): string {
    if pieces == [] then "" else if |pieces| == 1 then pieces[0] else pieces[0] + " " + Joined(pieces[1..])
  }

  function CollapseSpaces(s: string): string { Joined(NonEmpty(Pieces(s))) }

  // The loop of the source: words are appended one by one.
  method Collapse(s: string) returns (out: string)
    ensures out == CollapseSpaces(s)
  {
    hide Joined, Pieces, NonEmpty;
    var words := NonEmpty(Pieces(s));
    out := "";
    var i := 0;
    JoinedNothing(words[..0]);
    while i < |words|
      invariant 0 <= i <= |words|
      invariant out == Joined(words[..i])
      invariant i > 0 ==> out != ""
    {
      JoinedSnoc(words[..i], words[i]);
      assert words[..i + 1] == words[..i] + [words[i]];
      if out != "" { out := out + " "; }
      out := out + words[i];
      i := i + 1;
    }
    assert words[..i] == words;
  }

  lemma JoinedNothing(pieces: seq<string>)
    requires pieces == []
    ensures Joined(pieces) == ""
  {
  }

  lemma {:induction false} JoinedSnoc(pieces: seq<string>, word: string)
    ensures Joined(pieces + [word]) == if pieces == [] then word else Joined(pieces) + " " + word
    decreases |pieces|
  {
    if |pieces| > 1 {
      assert (pieces + [word])[1..] == pieces[1..] + [word];
      JoinedSnoc(pieces[1..], word);
    } else if |pieces| == 1 {
      assert (pieces + [word])[1..] == [word];
    }
  }

  // ---- validation ---------------------------------------------------------------------------------

  function ValidateNickname(nfc: string -> string, input: string): Result<string, ValidationError> {
    if input == "" then Err(EmptyNickname)
    else
      var composed := nfc(input);
      if ContainsUnsafe(composed) then Err(ControlCharacterNotAllowed)
      else if ContainsExotic(composed) then Err(ExoticWhitespaceNotAllowed)
      else
        var normalized := CollapseSpaces(composed);
        if normalized == "" then Err(EmptyNickname)
        else if |normalized| > MAX_NICKNAME then Err(NicknameTooLong)
        else Ok(normalized)
  }

  function ValidateIntro(input: string): Result<(), ValidationError> {
    if input == "" then Ok(())
    else if '\n' in input || '\r' in input then Err(NotSingleLine)
    else if ContainsUnsafe(input) then Err(ControlCharacterNotAllowed)
    else if |input| > MAX_INTRO then Err(IntroTooLong)
    else Ok(())
  }

  // ---- splitting and joining -----------------------------------------------------------------------

  predicate NoSpaces(pieces: seq<string>) { forall i :: 0 <= i < |pieces| ==> ' ' !in pieces[i] }

  lemma {:induction false} PiecesOfWord(w: string)
    requires ' ' !in w
    ensures Pieces(w) == [w]
    decreases |w|
  {
    if w != "" {
      PiecesOfWord(w[1..]);
      assert w == [w[0]] + w[1..];
    }
  }

  lemma {:induction false} PiecesAfterSpace(w: string, s: string)
    requires ' ' !in w
    ensures Pieces(w + " " + s) == [w] + Pieces(s)
    decreases |w|
  {
    if w == "" {
      assert w + " " + s == " " + s && (" " + s)[1..] == s;
    } else {
      assert (w + " " + s)[1..] == w[1..] + " " + s;
      PiecesAfterSpace(w[1..], s);
      assert w == [w[0]] + w[1..];
    }
  }

  // Splitting undoes joining, and joining undoes splitting.
  lemma {:induction false} PiecesOfJoined(pieces: seq<string>)
    requires pieces != [] && NoSpaces(pieces)
    ensures Pieces(Joined(pieces)) == pieces
    decreases |pieces|
  {
    if |pieces| == 1 { PiecesOfWord(pieces[0]); }
    else {
      PiecesAfterSpace(pieces[0], Joined(pieces[1..]));
      PiecesOfJoined(pieces[1..]);
    }
  }

  lemma {:induction false} JoinedPieces(s: string)
    ensures Joined(Pieces(s)) == s
    decreases |s|
  {
    if s != "" {
      JoinedPieces(s[1..]);
      var rest := Pieces(s[1..]);
      assert s == [s[0]] + s[1..];
      if s[0] == ' ' { assert ([""] + rest)[1..] == rest; }
      else { assert ([[s[0]] + rest[0]] + rest[1..])[1..] == rest[1..]; }
    }
  }

  lemma {:induction false} NonEmptyKeeps(pieces: seq<string>)
    requires forall i :: 0 <= i < |pieces| ==> pieces[i] != ""
    ensures NonEmpty(pieces) == pieces
    decreases |pieces|
  {
    if pieces != [] {
      NonEmptyKeeps(pieces[1..]);
      assert pieces == [pieces[0]] + pieces[1..];
    }
  }

  lemma WordsOf(s: string)
    ensures var words := NonEmpty(Pieces(s)); NoSpaces(words)
  {
  }

  // What was collapsed stays as it is.
  lemma {:induction false} CollapseIsIdempotent(s: string)
    ensures CollapseSpaces(CollapseSpaces(s)) == CollapseSpaces(s)
  {
    var words := NonEmpty(Pieces(s));
    if words == [] { assert Pieces("") == [""] && NonEmpty([""]) == []; }
    else {
      WordsOf(s);
      PiecesOfJoined(words);
      NonEmptyKeeps(words);
    }
  }

  // ---- composition and words --------------------------------------------------------------------------

  function Composed(nfc: string -> string, pieces: seq<string>): seq<string> {
    seq(|pieces|, i requires 0 <= i < |pieces| => nfc(pieces[i]))
  }

  lemma {:induction false} ComposeJoined(nfc: Composition, pieces: seq<string>)
    ensures nfc(Joined(pieces)) == Joined(Composed(nfc, pieces))
    decreases |pieces|
  {
    if |pieces| > 1 {
      ComposeJoined(nfc, pieces[1..]);
      assert Composed(nfc, pieces)[1..] == Composed(nfc, pieces[1..]);
    }
  }

  // The words of composed text are composed.
  lemma ComposedWords(nfc: Composition, s: string)
    requires nfc(s) == s
    ensures Composed(nfc, Pieces(s)) == Pieces(s)
    ensures Composed(nfc, NonEmpty(Pieces(s))) == NonEmpty(Pieces(s))
  {
    var pieces := Pieces(s);
    JoinedPieces(s);
    ComposeJoined(nfc, pieces);
    PiecesOfJoined(pieces);
    PiecesOfJoined(Composed(nfc, pieces));
    assert forall i :: 0 <= i < |pieces| ==> nfc(pieces[i]) == Composed(nfc, pieces)[i] == pieces[i];
    var words := NonEmpty(pieces);
    forall i | 0 <= i < |words| ensures nfc(words[i]) == words[i] {
      var k :| 0 <= k < |pieces| && pieces[k] == words[i];
    }
  }

  lemma {:induction false} CollapsedIsComposed(nfc: Composition, s: string)
    requires nfc(s) == s
    ensures nfc(CollapseSpaces(s)) == CollapseSpaces(s)
  {
    ComposedWords(nfc, s);
    ComposeJoined(nfc, NonEmpty(Pieces(s)));
  }

  predicate OnlyFrom(s: string, t: string) { forall i :: 0 <= i < |s| ==> s[i] == ' ' || s[i] in t }

  lemma {:induction false} JoinedOnlyFrom(pieces: seq<string>, t: string)
    requires forall i :: 0 <= i < |pieces| ==> OnlyFrom(pieces[i], t)
    ensures OnlyFrom(Joined(pieces), t)
    decreases |pieces|
  {
    if |pieces| > 1 { JoinedOnlyFrom(pieces[1..], t); }
  }

  lemma {:induction false} PiecesOnlyFrom(s: string, i: nat)
    requires i < |Pieces(s)|
    ensures OnlyFrom(Pieces(s)[i], s)
    decreases |s|
  {
    if s != "" {
      var rest := Pieces(s[1..]);
      if s[0] == ' ' { if i > 0 { PiecesOnlyFrom(s[1..], i - 1); } }
      else { PiecesOnlyFrom(s[1..], i); }
    }
  }

  lemma CollapseOnlyFrom(s: string)
    ensures OnlyFrom(CollapseSpaces(s), s)
  {
    var words := NonEmpty(Pieces(s));
    forall i | 0 <= i < |words| ensures OnlyFrom(words[i], s) {
      var k :| 0 <= k < |Pieces(s)| && Pieces(s)[k] == words[i];
      PiecesOnlyFrom(s, k);
    }
    JoinedOnlyFrom(words, s);
  }

  // A nickname that was accepted is accepted again as it is: the participant, the message it
  // sends and the host that decodes it all arrive at one spelling.
  lemma {:induction false} NicknameIsStable(nfc: Composition, input: string)
    requires ValidateNickname(nfc, input).Ok?
    ensures ValidateNickname(nfc, ValidateNickname(nfc, input).value) == ValidateNickname(nfc, input)
  {
    var composed := nfc(input);
    var n := CollapseSpaces(composed);
    CollapsedIsComposed(nfc, composed);
    CollapseIsIdempotent(composed);
    CollapseOnlyFrom(composed);
    assert !IsUnsafe(' ');
    forall i | 0 <= i < |n| ensures !IsUnsafe(n[i]) && (IsWhitespace(n[i]) ==> n[i] == ' ') {
      if n[i] != ' ' { var k :| 0 <= k < |composed| && composed[k] == n[i]; }
    }
  }

  // Nicknames that validation accepts are spelled without a space at either end and without two
  // spaces in a row: no two of them differ only in spaces that the terminal would not show.
  lemma {:induction false} JoinedIsTight(words: seq<string>)
    requires NoSpaces(words) && forall i :: 0 <= i < |words| ==> words[i] != ""
    ensures var s := Joined(words);
      s != "" ==> s[0] != ' ' && s[|s| - 1] != ' ' && forall i :: 0 <= i < |s| - 1 ==> s[i] != ' ' || s[i + 1] != ' '
    ensures words != [] ==> Joined(words) != ""
    decreases |words|
  {
    if |words| == 1 { assert forall i :: 0 <= i < |words[0]| ==> words[0][i] in words[0]; }
    if |words| > 1 {
      JoinedIsTight(words[1..]);
      var t := Joined(words[1..]);
      var s := words[0] + " " + t;
      assert forall i :: 0 <= i < |words[0]| ==> words[0][i] in words[0];
      forall i | 0 <= i < |s| - 1 ensures s[i] != ' ' || s[i + 1] != ' ' {
        if i > |words[0]| { assert s[i] == t[i - |words[0]| - 1] && s[i + 1] == t[i - |words[0]|]; }
        else if i == |words[0]| { assert s[i + 1] == t[0]; }
        else { assert s[i] == words[0][i]; }
      }
    }
  }

  lemma {:induction false} AcceptedIsTight(nfc: Composition, input: string)
    requires ValidateNickname(nfc, input).Ok?
    ensures var n := ValidateNickname(nfc, input).value;
      n != "" && n[0] != ' ' && n[|n| - 1] != ' ' && forall i :: 0 <= i < |n| - 1 ==> n[i] != ' ' || n[i + 1] != ' '
  {
    WordsOf(nfc(input));
    JoinedIsTight(NonEmpty(Pieces(nfc(input))));
  }
}
