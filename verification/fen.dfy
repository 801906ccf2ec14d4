/**
 * The one piece of Forsyth–Edwards Notation the server reads: the active
 * colour, the second space-separated field of a FEN record (PGN Standard,
 * section 16.1.3.2). The server never parses the board itself.
 */
module Fen {
  import opened Wrappers

  datatype Colour = White | Black

  function Opponent(c: Colour): (o: Colour)
    ensures o != c
  {
    if c == White then Black else White
  }

  /** The position every new game starts from. */
  const START_FEN: string := "rnbqkbnr/pppppppp/8/8/8/8/PPPPPPPP/RNBQKBNR w KQkq - 0 1"

  /**
   * The characters Python's argument-less `str.split()` treats as separators
   * (the ASCII and Latin-1 ones; see README for the rest of Unicode).
   */
  predicate IsSpace(c: char) {
    c == ' ' || c == '\t' || c == '\n' || c == '\r' || c == '\U{B}' || c == '\U{C}'
    || ('\U{1C}' <= c <= '\U{1F}') || c == '\U{85}' || c == '\U{A0}'
  }

  /** A field: a non-empty run of non-separator characters. */
  predicate IsWord(w: string) {
    |w| > 0 && forall i :: 0 <= i < |w| ==> !IsSpace(w[i])
  }

  /** Length of the longest separator-free prefix of `s`. */
  function WordLength(s: string): (n: nat)
    ensures n <= |s|
    ensures forall i :: 0 <= i < n ==> !IsSpace(s[i])
    ensures n < |s| ==> IsSpace(s[n])
  {
    if |s| == 0 || IsSpace(s[0]) then 0 else 1 + WordLength(s[1..])
  }

  /** Python's `s.split()`: the maximal separator-free runs of `s`, in order. */
  function Fields(s: string): (ws: seq<string>)
    ensures forall i :: 0 <= i < |ws| ==> IsWord(ws[i])
    decreases |s|
  {
    if |s| == 0 then []
    else if IsSpace(s[0]) then Fields(s[1..])
    else
      var n := WordLength(s);
      [s[..n]] + Fields(s[n..])
  }

  /** Fields joined by single spaces: how a well-formed FEN record is laid out. */
  function Unwords(ws: seq<string>): (s: string)
  {
    if |ws| == 0 then ""
    else if |ws| == 1 then ws[0]
    else ws[0] + " " + Unwords(ws[1..])
  }

  /**
   * The side to move as the server reads it: `'w' in fen.split()[1]`.
   * `None` when there is no second field, where Python raises IndexError.
   */
  function SideToMove(fen: string): (r: Option<Colour>)
    ensures r.None? <==> |Fields(fen)| < 2
    ensures r == Some(White) <==> |Fields(fen)| >= 2 && 'w' in Fields(fen)[1]
  {
    var fs := Fields(fen);
    if |fs| < 2 then None
    else if 'w' in fs[1] then Some(White)
    else Some(Black)
  }

  lemma {:induction false} WordLengthOfWordThenRest(w: string, rest: string)
    requires IsWord(w)
    requires |rest| == 0 || IsSpace(rest[0])
    ensures WordLength(w + rest) == |w|
    decreases |w|
  {
    if |w| > 1 {
      assert (w + rest)[1..] == w[1..] + rest;
      WordLengthOfWordThenRest(w[1..], rest);
    } else {
      assert (w + rest)[1..] == rest;
    }
  }

  /** Splitting a separator-joined list of fields gives back exactly those fields. */
  lemma {:induction false} FieldsOfUnwords(ws: seq<string>)
    requires forall i :: 0 <= i < |ws| ==> IsWord(ws[i])
    ensures Fields(Unwords(ws)) == ws
    decreases |ws|
  {
    if |ws| == 0 {
    } else if |ws| == 1 {
      var w := ws[0];
      WordLengthOfWordThenRest(w, "");
      assert w + "" == w;
      assert w[..|w|] == w;
      assert Fields(w[|w|..]) == [];
    } else {
      var w := ws[0];
      var tail := Unwords(ws[1..]);
      var s := w + " " + tail;
      assert s == w + (" " + tail);
      WordLengthOfWordThenRest(w, " " + tail);
      assert s[..|w|] == w;
      assert s[|w|..] == " " + tail;
      assert (" " + tail)[1..] == tail;
      FieldsOfUnwords(ws[1..]);
      assert Fields(s) == [w] + ws[1..];
    }
  }

  /**
   * For a record laid out as fields, the side to move is decided by the
   * second field alone: white exactly when it contains the letter `w`.
   */
  lemma SideToMoveOfRecord(ws: seq<string>)
    requires |ws| >= 2
    requires forall i :: 0 <= i < |ws| ==> IsWord(ws[i])
    ensures SideToMove(Unwords(ws)) == Some(if 'w' in ws[1] then White else Black)
  {
    FieldsOfUnwords(ws);
    var fs := Fields(Unwords(ws));
    assert fs == ws;
  }

  /** The starting position, field by field. */
  const START_FIELDS: seq<string> := ["rnbqkbnr/pppppppp/8/8/8/8/PPPPPPPP/RNBQKBNR", "w", "KQkq", "-", "0", "1"]

  /** The piece-placement field of the starting position: letters, digits and slashes only. */
  lemma StartPlacementIsWord()
    ensures IsWord(START_FIELDS[0])
  {
    var s := START_FIELDS[0];
    assert forall i :: 0 <= i < |s| ==> '/' <= s[i] <= 'z';
  }

  /** The fields after the placement, joined as in the starting FEN. */
  lemma StartFieldsTail()
    ensures Unwords(START_FIELDS[1..]) == "w KQkq - 0 1"
  {
    var ws := START_FIELDS;
    assert Unwords(ws[5..]) == "1";
    assert Unwords(ws[4..]) == "0 1";
    assert Unwords(ws[3..]) == "- 0 1";
    assert Unwords(ws[2..]) == "KQkq - 0 1";
  }

  lemma StartFenLayout()
    ensures Unwords(START_FIELDS) == START_FEN
    ensures forall i :: 0 <= i < |START_FIELDS| ==> IsWord(START_FIELDS[i])
  {
    StartPlacementIsWord();
    StartFieldsTail();
    var ws := START_FIELDS;
    assert IsWord(ws[1]) && IsWord(ws[2]) && IsWord(ws[3]) && IsWord(ws[4]) && IsWord(ws[5]);
  }

  /** White moves first in the starting position. */
  lemma StartPositionWhiteToMove()
    ensures SideToMove(START_FEN) == Some(White)
  {
    StartFenLayout();
    SideToMoveOfRecord(START_FIELDS);
  }
}
