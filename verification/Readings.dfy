/** What texts mean, character by character: the names of pieces, the lines of a file, the lines of the move list. */
module Readings {
  import opened Basics
  import opened BoardText
  import opened Objects

  // ---- the name of a piece ----

  /** The letters that name a type. The Kelvin sign is one whose lower case is k. */
  ghost predicate Names(c: char, k: Kind) {
    match k
    case King => c in {'K', 'k', '\U{212A}'}
    case Queen => c in {'Q', 'q'}
    case Rook => c in {'R', 'r'}
    case Bishop => c in {'B', 'b'}
    case Knight => c in {'N', 'n'}
    case Pawn => c in {'P', 'p'}
  }

  lemma LetterIs(s: string, k: Kind)
    ensures KindNamed(Lower(s)) == Some(k) <==> |s| == 1 && Names(s[0], k)
  {
    if |s| == 1 {
      assert Lower(s) == [LowerChar(s[0])];
    }
  }

  lemma SideIs(s: string, c: Color)
    requires |s| == 1
    ensures ColorNamed(Lower(s)) == Some(c) <==> s[0] in if c.White? then {'W', 'w'} else {'B', 'b'}
  {
    assert Lower(s) == [LowerChar(s[0])];
  }

  /** A token without an underscore names a piece exactly if it is two letters, large or small: w or b, and that
      of a type. */
  lemma ShortTokenIs(t: string, c: Color, k: Kind)
    requires '_' !in t
    ensures ParseToken(t) == Ok(PieceData(t, c, k, Idle)) <==>
            |t| == 2 && t[0] in (if c.White? then {'W', 'w'} else {'B', 'b'}) && Names(t[1], k)
  {
    hide ColorNamed, KindNamed, Lower, Names;
    if |t| >= 2 {
      SideIs(t[..1], c);
      LetterIs(t[1..], k);
    }
  }

  lemma {:induction false} Cut(s: string, rest: string)
    requires '_' !in s
    ensures Until(s + "_" + rest, '_') == s && Past(s + "_" + rest, '_') == rest
    ensures Until(s, '_') == s
  {
    if s != [] {
      assert (s + "_" + rest)[1..] == s[1..] + "_" + rest;
      Cut(s[1..], rest);
    }
  }

  /** Of a token with underscores the first two parts count: a small w or b, and one letter, large or small. */
  lemma LongTokenIs(side: string, kind: string, more: string, c: Color, k: Kind)
    requires '_' !in side && '_' !in kind
    ensures var t := side + "_" + kind;
            ParseToken(t) == Ok(PieceData(t, c, k, Idle)) <==>
            side == (if c.White? then "w" else "b") && |kind| == 1 && Names(kind[0], k)
    ensures var t := side + "_" + kind + "_" + more;
            ParseToken(t) == Ok(PieceData(t, c, k, Idle)) <==>
            side == (if c.White? then "w" else "b") && |kind| == 1 && Names(kind[0], k)
  {
    hide KindNamed, Lower, Names, Until, Past;
    var s, t := side + "_" + kind, side + "_" + kind + "_" + more;
    assert s[|side|] == '_' && t[|side|] == '_';
    assert t == side + "_" + (kind + "_" + more);
    Cut(side, kind);
    Cut(side, kind + "_" + more);
    Cut(kind, more);
    LetterIs(kind, k);
  }

  // ---- the lines of a file ----

  /** White space: the control characters from tab to carriage return and from file separator to unit separator,
      the space, and the spaces and separators beyond the letters of English. */
  lemma SpacesAre(c: char)
    ensures IsSpace(c) <==>
            || c in "\t\n\U{b}\U{c}\r\U{1c}\U{1d}\U{1e}\U{1f} \U{85}\U{a0}\U{1680}"
            || c in "\U{2000}\U{2001}\U{2002}\U{2003}\U{2004}\U{2005}\U{2006}\U{2007}\U{2008}\U{2009}\U{200a}"
            || c in "\U{2028}\U{2029}\U{202f}\U{205f}\U{3000}"
  {
  }

  ghost predicate Blank(s: string) {
    forall i | 0 <= i < |s| :: IsSpace(s[i])
  }

  /** White space around a text is taken off, and nothing else. */
  lemma {:induction false} StripIs(left: string, text: string, right: string)
    requires Blank(left) && Blank(right)
    requires text != [] ==> !IsSpace(text[0]) && !IsSpace(text[|text| - 1])
    ensures Strip(left + text + right) == text
    decreases |left|, |right|
  {
    hide IsSpace;
    var all := left + text + right;
    if left != [] {
      assert all[1..] == left[1..] + text + right;
      StripIs(left[1..], text, right);
    } else if text != [] && right != [] {
      assert all[..|all| - 1] == left + text + right[..|right| - 1];
      StripIs(left, text, right[..|right| - 1]);
    } else if right != [] {
      assert all[1..] == left + text + right[1..];
      StripIs(left, text, right[1..]);
    } else {
      assert all == text;
    }
  }

  /** A printed line: its words in order, with one space between any two and none at the ends. */
  lemma {:induction false} LineGrows(words: seq<string>, word: string)
    ensures Join([]) == ""
    ensures Join(words + [word]) == if words == [] then word else Join(words) + " " + word
  {
    if words != [] {
      assert (words + [word])[1..] == words[1..] + [word];
      LineGrows(words[1..], word);
      if |words| == 1 {
        assert words[1..] == [];
      } else {
        assert words[0] + " " + (Join(words[1..]) + " " + word) == words[0] + " " + Join(words[1..]) + " " + word;
      }
    }
  }

  /** A line that opens or closes a section of the file. */
  ghost predicate Marks(line: string) {
    Strip(line) == "Board:" || "Commands:" <= Strip(line)
  }

  lemma {:induction false} LinesSplit(a: seq<string>, rest: seq<string>, inBoard: bool)
    requires forall l | l in a :: !Marks(l)
    ensures BoardLines(a + rest, inBoard) == (if inBoard then Filled(a) else []) + BoardLines(rest, inBoard)
  {
    hide Strip, BoardLines;
    if a == [] {
      assert a + rest == rest;
    } else {
      var first := if inBoard && Strip(a[0]) != [] then [a[0]] else [];
      assert !Marks(a[0]);
      LinesSplit(a[1..], rest, inBoard);
      assert (a + rest)[0..] == a + rest && (a + rest)[1..] == a[1..] + rest && (a + rest)[0] == a[0];
      LineRead(a + rest, 0, inBoard);
      assert first + (Filled(a[1..]) + BoardLines(rest, inBoard)) == first + Filled(a[1..]) + BoardLines(rest, inBoard);
    }
  }

  /** The lines that are not blank, in order. */
  function Filled(a: seq<string>): seq<string> {
    if a == [] then [] else (if Strip(a[0]) == [] then [] else [a[0]]) + Filled(a[1..])
  }

  /** The board of a file: the lines after a line "Board:" and before one that begins with "Commands:", without the
      blank ones. What stands before or after does not matter. */
  lemma BoardSection(before: seq<string>, start: string, board: seq<string>, end: string, after: seq<string>)
    requires forall l | l in before || l in board :: !Marks(l)
    requires Strip(start) == "Board:" && "Commands:" <= Strip(end)
    ensures BoardLines(before + ([start] + (board + ([end] + after))), false) == Filled(board)
    ensures BoardLines(before + ([start] + board), false) == Filled(board)
  {
    hide Strip, Filled, Marks, BoardLines;
    NoLines();
    Opens(start, board + ([end] + after));
    Opens(start, board);
    Closes(end, after, true);
    assert board + [] == board;
    LinesSplit(before, [start] + (board + ([end] + after)), false);
    LinesSplit(before, [start] + board, false);
    LinesSplit(board, [end] + after, true);
    LinesSplit(board, [], true);
  }

  /** A file in which the second marker comes first, or the first never, has no board. */
  lemma NoSection(before: seq<string>, end: string, after: seq<string>)
    requires (forall l | l in before :: !Marks(l)) && "Commands:" <= Strip(end)
    ensures BoardLines(before + ([end] + after), false) == [] && BoardLines(before, false) == []
  {
    hide Strip, Filled, Marks, BoardLines;
    NoLines();
    Closes(end, after, false);
    assert before + [] == before;
    LinesSplit(before, [end] + after, false);
    LinesSplit(before, [], false);
  }

  lemma NoLines()
    ensures forall inBoard :: BoardLines([], inBoard) == []
  {
  }

  lemma Opens(line: string, rest: seq<string>)
    requires Strip(line) == "Board:"
    ensures BoardLines([line] + rest, false) == BoardLines(rest, true)
  {
    hide Strip;
    assert ([line] + rest)[1..] == rest;
  }

  lemma Closes(line: string, rest: seq<string>, inBoard: bool)
    requires "Commands:" <= Strip(line)
    ensures BoardLines([line] + rest, inBoard) == []
  {
    hide Strip;
    assert Strip(line)[0] == 'C';
  }

  // ---- the lines of the move list ----

  /** The number that a row of decimal digits stands for. */
  ghost function Value(s: string): int {
    if s == [] then 0 else 10 * Value(s[..|s| - 1]) + (s[|s| - 1] as int - '0' as int)
  }

  /** The plain decimal writing of a number: digits only, and no 0 before others. */
  ghost predicate Writes(s: string, n: nat) {
    && s != [] && Value(s) == n && (|s| > 1 ==> s[0] != '0')
    && forall i | 0 <= i < |s| :: '0' <= s[i] <= '9'
  }

  ghost predicate WritesInt(s: string, n: int) {
    if n < 0 then s != [] && s[0] == '-' && Writes(s[1..], -n) else Writes(s, n)
  }

  lemma {:induction false} DigitsAre(n: nat)
    ensures Writes(Digits(n), n)
  {
    var d := "0123456789"[n % 10];
    assert d as int == '0' as int + n % 10;
    if n < 10 {
      assert Digits(n)[..0] == [];
    } else {
      DigitsAre(n / 10);
      assert Digits(n)[..|Digits(n)| - 1] == Digits(n / 10);
      if |Digits(n / 10)| == 1 { assert Digits(n / 10)[..0] == []; }
    }
  }

  lemma DecimalIs(n: int)
    ensures WritesInt(Decimal(n), n)
  {
    hide Writes, Digits;
    if n < 0 {
      DigitsAre(-n);
      assert ("-" + Digits(-n))[1..] == Digits(-n);
    } else {
      DigitsAre(n);
    }
  }

  lemma LetterAlone(k: Kind)
    ensures |Letter(k)| == 1 && Names(Letter(k)[0], k) && 'A' <= Letter(k)[0] <= 'Z'
  {
  }

  /** A line of the move list: the large letter of the type, and the squares by row and column. */
  lemma MoveLine(k: Kind, a: Position, b: Position) returns (c: char, ar: string, ac: string, br: string, bc: string)
    ensures MoveText(k, a, b) == [c] + " (" + ar + "," + ac + ")->(" + br + "," + bc + ")"
    ensures Names(c, k) && 'A' <= c <= 'Z'
    ensures WritesInt(ar, a.row) && WritesInt(ac, a.col) && WritesInt(br, b.row) && WritesInt(bc, b.col)
  {
    hide Decimal, WritesInt;
    c, ar, ac, br, bc := Letter(k)[0], Decimal(a.row), Decimal(a.col), Decimal(b.row), Decimal(b.col);
    DecimalIs(a.row);
    DecimalIs(a.col);
    DecimalIs(b.row);
    DecimalIs(b.col);
    LetterAlone(k);
    hide Letter, Names;
    var from, to := SquareText(a), SquareText(b);
    assert from == "(" + ar + "," + ac + ")" && to == "(" + br + "," + bc + ")";
    assert [c] + " " + from + "->" + to == [c] + " (" + ar + "," + ac + ")->(" + br + "," + bc + ")";
  }

  lemma JumpLine(k: Kind, p: Position) returns (c: char, row: string, col: string)
    ensures JumpText(k, p) == [c] + " jump (" + row + "," + col + ")"
    ensures Names(c, k) && 'A' <= c <= 'Z'
    ensures WritesInt(row, p.row) && WritesInt(col, p.col)
  {
    hide Decimal, WritesInt;
    c, row, col := Letter(k)[0], Decimal(p.row), Decimal(p.col);
    DecimalIs(p.row);
    DecimalIs(p.col);
    LetterAlone(k);
    assert " jump (" == " jump " + "(";
  }
}
