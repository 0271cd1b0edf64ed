/** Boards as text: the token grammar, the parser and the printer, and their two round trips. */
module BoardText {
  import opened Basics
  import opened Play

  // ---- splitting and joining, as Python's str.split() and " ".join() do ----

  /** The characters str.split() with no argument separates on. */
  predicate IsSpace(c: char) {
    var n := c as int;
    9 <= n <= 13 || 28 <= n <= 32 || n == 0x85 || n == 0xa0 || n == 0x1680 || 0x2000 <= n <= 0x200a ||
    n == 0x2028 || n == 0x2029 || n == 0x202f || n == 0x205f || n == 0x3000
  }

  /** The words of s, the first of which began with `word`. */
  function Words(s: string, word: string): seq<string> {
    if s == [] then (if word == [] then [] else [word])
    else if IsSpace(s[0]) then (if word == [] then [] else [word]) + Words(s[1..], [])
    else Words(s[1..], word + [s[0]])
  }

  function Split(s: string): seq<string> {
    Words(s, [])
  }

  function Join(ts: seq<string>): string {
    if ts == [] then [] else if |ts| == 1 then ts[0] else ts[0] + " " + Join(ts[1..])
  }

  ghost predicate IsWord(t: string) {
    t != [] && forall i | 0 <= i < |t| :: !IsSpace(t[i])
  }

  lemma {:induction false} ReadWord(t: string, rest: string, word: string)
    requires forall i | 0 <= i < |t| :: !IsSpace(t[i])
    ensures Words(t + rest, word) == Words(rest, word + t)
  {
    if t == [] {
      assert t + rest == rest && word + t == word;
    } else {
      assert (t + rest)[1..] == t[1..] + rest;
      assert word + [t[0]] + t[1..] == word + t;
      ReadWord(t[1..], rest, word + [t[0]]);
    }
  }

  lemma {:induction false} SplitJoin(ts: seq<string>)
    requires forall i | 0 <= i < |ts| :: IsWord(ts[i])
    ensures Split(Join(ts)) == ts
  {
    if |ts| == 1 {
      ReadWord(ts[0], [], []);
      assert ts[0] + [] == ts[0] && [] + ts[0] == ts[0];
    } else if |ts| > 1 {
      var rest := " " + Join(ts[1..]);
      ReadWord(ts[0], rest, []);
      assert ts[0] + " " + Join(ts[1..]) == ts[0] + rest;
      assert [] + ts[0] == ts[0] && rest[1..] == Join(ts[1..]);
      SplitJoin(ts[1..]);
    }
  }

  lemma {:induction false} WordsAreWords(s: string, word: string)
    requires forall i | 0 <= i < |word| :: !IsSpace(word[i])
    ensures forall k | 0 <= k < |Words(s, word)| :: IsWord(Words(s, word)[k])
  {
    if s != [] {
      if IsSpace(s[0]) { WordsAreWords(s[1..], []); } else { WordsAreWords(s[1..], word + [s[0]]); }
    }
  }

  // ---- tokens ----

  /** str.lower() on one character, as far as the parser can tell: it agrees with it on every
      character whose lower case is an ASCII letter (the Kelvin sign is one of them). */
  function LowerChar(c: char): char {
    if 'A' <= c <= 'Z' then (c as int + 32) as char
    else if c == '\U{212A}' then 'k'
    else c
  }

  function Lower(s: string): string {
    seq(|s|, i requires 0 <= i < |s| => LowerChar(s[i]))
  }

  /** The part of s before the first c, and the part after it. */
  function Until(s: string, c: char): string {
    if s == [] || s[0] == c then [] else [s[0]] + Until(s[1..], c)
  }

  function Past(s: string, c: char): string {
    if s == [] then [] else if s[0] == c then s[1..] else Past(s[1..], c)
  }

  function ColorNamed(s: string): Option<Color> {
    if s == "w" then Some(White) else if s == "b" then Some(Black) else None
  }

  function KindNamed(s: string): Option<Kind> {
    if s == "k" then Some(King) else if s == "q" then Some(Queen) else if s == "r" then Some(Rook)
    else if s == "b" then Some(Bishop) else if s == "n" then Some(Knight) else if s == "p" then Some(Pawn)
    else None
  }

  datatype TextError = RowWidthMismatch | UnknownToken
  datatype Parsed<T> = Ok(value: T) | Err(error: TextError)

  /** "wQ" and "w_q_1" both name a white queen. */
  function ParseToken(token: string): Parsed<PieceData> {
    if '_' in token then
      PieceNamed(token, Until(token, '_'), Lower(Until(Past(token, '_'), '_')))
    else if |token| < 2 then Err(UnknownToken)
    else PieceNamed(token, Lower(token[..1]), Lower(token[1..]))
  }

  function PieceNamed(token: string, color: string, kind: string): Parsed<PieceData> {
    if ColorNamed(color).None? || KindNamed(kind).None? then Err(UnknownToken)
    else Ok(PieceData(token, ColorNamed(color).value, KindNamed(kind).value, Idle))
  }

  // ---- parsing ----

  /** Row r from column c on, added to the cells read so far. */
  function ParseRow(tokens: seq<string>, r: nat, c: nat, cells: map<Position, PieceData>)
    : Parsed<map<Position, PieceData>>
    requires c <= |tokens|
    decreases |tokens| - c
  {
    if c == |tokens| then Ok(cells)
    else if tokens[c] == "." then ParseRow(tokens, r, c + 1, cells)
    else
      match ParseToken(tokens[c])
      case Err(e) => Err(e)
      case Ok(p) => ParseRow(tokens, r, c + 1, cells[Position(r, c) := p])
  }

  function ParseRows(lines: seq<string>, r: nat, cols: nat, cells: map<Position, PieceData>)
    : Parsed<map<Position, PieceData>>
    requires r <= |lines|
    decreases |lines| - r
  {
    if r == |lines| then Ok(cells)
    else
      var tokens := Split(lines[r]);
      if |tokens| != cols then Err(RowWidthMismatch)
      else
        match ParseRow(tokens, r, 0, cells)
        case Err(e) => Err(e)
        case Ok(more) => ParseRows(lines, r + 1, cols, more)
  }

  function ParseBoard(lines: seq<string>): Parsed<View> {
    if lines == [] then Ok(View(0, 0, map[]))
    else
      var cols := |Split(lines[0])|;
      match ParseRows(lines, 0, cols, map[])
      case Err(e) => Err(e)
      case Ok(cells) => Ok(View(|lines|, cols, cells))
  }

  // ---- the file that holds the opening ----

  function Strip(s: string): string {
    if s != [] && IsSpace(s[0]) then Strip(s[1..])
    else if s != [] && IsSpace(s[|s| - 1]) then Strip(s[..|s| - 1])
    else s
  }

  /** The lines between the line "Board:" and the first that begins with "Commands:", without the empty ones. */
  function BoardLines(file: seq<string>, inBoard: bool): seq<string> {
    if file == [] then []
    else
      var cleaned := Strip(file[0]);
      if cleaned == "Board:" then BoardLines(file[1..], true)
      else if "Commands:" <= cleaned then []
      else (if inBoard && cleaned != [] then [file[0]] else []) + BoardLines(file[1..], inBoard)
  }

  /** One more line of the file has been read. */
  lemma LineRead(file: seq<string>, i: nat, inBoard: bool)
    requires i < |file| && Strip(file[i]) != "Board:" && !("Commands:" <= Strip(file[i]))
    ensures BoardLines(file[i..], inBoard)
            == (if inBoard && Strip(file[i]) != [] then [file[i]] else []) + BoardLines(file[i + 1..], inBoard)
  {
    hide Strip;
    assert file[i..][1..] == file[i + 1..];
  }

  /** A board with its two markers is read for what it is, whatever follows. */
  lemma {:induction false} SectionRead(board: seq<string>, rest: seq<string>)
    requires forall l | l in board :: Strip(l) != [] && Strip(l) != "Board:" && !("Commands:" <= Strip(l))
    ensures BoardLines(board + ["Commands:"] + rest, true) == board
  {
    hide Strip;
    var file := board + ["Commands:"] + rest;
    if board == [] {
      assert Strip("Commands:") == "Commands:" by { MarkerStripped(); }
    } else {
      assert file[1..] == board[1..] + ["Commands:"] + rest;
      SectionRead(board[1..], rest);
    }
  }

  lemma MarkerStripped()
    ensures Strip("Commands:") == "Commands:" && Strip("Board:") == "Board:"
  {
  }

  // ---- printing ----

  function Token(v: View, r: int, c: int): string {
    if Position(r, c) in v.cells then v.cells[Position(r, c)].pieceId else "."
  }

  function RowTokens(v: View, r: int): seq<string> {
    seq(v.cols, c => Token(v, r, c))
  }

  function PrintBoard(v: View): seq<string> {
    seq(v.rows, r => Join(RowTokens(v, r)))
  }

  // ---- print, then parse ----

  /** The label of a piece is a single word that reads back as its colour and type. */
  ghost predicate Denotes(p: PieceData) {
    IsWord(p.pieceId) && p.pieceId != "." && ParseToken(p.pieceId) == Ok(p.(status := Idle))
  }

  ghost predicate Printable(v: View) {
    && (forall p | p in v.cells :: v.InBounds(p) && Denotes(v.cells[p]))
    && (v.rows == 0 ==> v.cols == 0)
  }

  /** The same board with every piece back on the ground. */
  function Grounded(v: View): View {
    v.(cells := map p | p in v.cells :: v.cells[p].(status := Idle))
  }

  /** The cells above row r, and those of row r left of column c. */
  function ReadSoFar(v: View, r: int, c: int): map<Position, PieceData> {
    map p | p in v.cells && (p.row < r || (p.row == r && p.col < c)) :: v.cells[p].(status := Idle)
  }

  lemma ReadOneCell(v: View, r: nat, c: nat)
    requires Printable(v) && r < v.rows && c < v.cols
    ensures var here, cells := Position(r, c), ReadSoFar(v, r, c);
            && (here !in v.cells ==> Token(v, r, c) == "." && ReadSoFar(v, r, c + 1) == cells)
            && (here in v.cells ==>
                  var p := v.cells[here].(status := Idle);
                  && Token(v, r, c) != "." && ParseToken(Token(v, r, c)) == Ok(p)
                  && ReadSoFar(v, r, c + 1) == cells[here := p])
  {
    hide ParseToken, IsWord;
    if Position(r, c) in v.cells {
      assert Denotes(v.cells[Position(r, c)]);
    }
  }

  lemma RowEnd(v: View, r: nat)
    requires Printable(v) && r < v.rows
    ensures ReadSoFar(v, r, v.cols) == ReadSoFar(v, r + 1, 0)
  {
  }

  lemma {:induction false} RowReadsBack(v: View, r: nat, c: nat)
    requires Printable(v) && r < v.rows && c <= v.cols
    ensures ParseRow(RowTokens(v, r), r, c, ReadSoFar(v, r, c)) == Ok(ReadSoFar(v, r + 1, 0))
    decreases v.cols - c
  {
    hide Printable, ReadSoFar, ParseToken, Token;
    if c == v.cols {
      RowEnd(v, r);
    } else {
      ReadOneCell(v, r, c);
      RowReadsBack(v, r, c + 1);
    }
  }

  lemma PrintedRowSplits(v: View, r: nat)
    requires Printable(v) && r < v.rows
    ensures Split(PrintBoard(v)[r]) == RowTokens(v, r)
  {
    forall c | 0 <= c < v.cols ensures IsWord(RowTokens(v, r)[c]) {
      assert Position(r, c) in v.cells ==> Denotes(v.cells[Position(r, c)]);
    }
    SplitJoin(RowTokens(v, r));
  }

  lemma {:induction false} RowsReadBack(v: View, r: nat)
    requires Printable(v) && r <= v.rows
    ensures ParseRows(PrintBoard(v), r, v.cols, ReadSoFar(v, r, 0)) == Ok(Grounded(v).cells)
    decreases v.rows - r
  {
    hide Join, Split, ParseRow, Denotes;
    if r == v.rows {
      assert ReadSoFar(v, r, 0) == Grounded(v).cells;
    } else {
      PrintedRowSplits(v, r);
      RowReadsBack(v, r, 0);
      RowsReadBack(v, r + 1);
    }
  }

  /** Print, then parse: the same dimensions, and the same piece on every square, on the ground. */
  lemma PrintParse(v: View)
    requires Printable(v)
    ensures ParseBoard(PrintBoard(v)) == Ok(Grounded(v))
  {
    hide Join, Split, Denotes;
    if v.rows == 0 {
      assert forall p | p in v.cells :: v.InBounds(p);
      assert v.cells == map[] && PrintBoard(v) == [];
    } else {
      PrintedRowSplits(v, 0);
      assert ReadSoFar(v, 0, 0) == map[] by {
        assert forall p | p in v.cells :: v.InBounds(p);
      }
      RowsReadBack(v, 0);
    }
  }

  // ---- what a parsed board holds ----

  /** The cells are exactly the tokens of the first r lines that are not dots, each parsed. */
  ghost predicate CellsOf(lines: seq<string>, r: nat, cells: map<Position, PieceData>)
    requires r <= |lines|
  {
    && (forall p | p in cells :: 0 <= p.row < r && 0 <= p.col < |Split(lines[p.row])|)
    && (forall i, j | 0 <= i < r && 0 <= j < |Split(lines[i])| :: CellIs(cells, i, j, Split(lines[i])[j]))
  }

  ghost predicate CellIs(cells: map<Position, PieceData>, r: int, c: int, token: string) {
    if token == "." then Position(r, c) !in cells
    else Position(r, c) in cells && ParseToken(token) == Ok(cells[Position(r, c)])
  }

  lemma {:induction false} ParsedRow(tokens: seq<string>, r: nat, c: nat, cells: map<Position, PieceData>)
    requires c <= |tokens|
    requires forall p | p in cells && p.row == r :: p.col < c
    ensures ParseRow(tokens, r, c, cells).Ok? <==>
            forall j | c <= j < |tokens| :: tokens[j] == "." || ParseToken(tokens[j]).Ok?
    ensures ParseRow(tokens, r, c, cells).Ok? ==>
              var more := ParseRow(tokens, r, c, cells).value;
              && (forall p | p in cells :: p in more && more[p] == cells[p])
              && (forall p | p in more && p !in cells :: p.row == r && c <= p.col < |tokens|)
              && (forall j | c <= j < |tokens| :: CellIs(more, r, j, tokens[j]))
    decreases |tokens| - c
  {
    hide ParseToken;
    if c < |tokens| {
      var here := Position(r, c);
      if tokens[c] == "." {
        ParsedRow(tokens, r, c + 1, cells);
      } else if ParseToken(tokens[c]).Ok? {
        ParsedRow(tokens, r, c + 1, cells[here := ParseToken(tokens[c]).value]);
      }
    }
  }

  ghost predicate GoodRow(line: string, cols: nat) {
    |Split(line)| == cols && forall j | 0 <= j < cols :: Split(line)[j] == "." || ParseToken(Split(line)[j]).Ok?
  }

  lemma NextRow(lines: seq<string>, r: nat, cells: map<Position, PieceData>)
    requires r < |lines| && CellsOf(lines, r, cells) && ParseRow(Split(lines[r]), r, 0, cells).Ok?
    ensures CellsOf(lines, r + 1, ParseRow(Split(lines[r]), r, 0, cells).value)
  {
    hide ParseToken, Split, ParseRow;
    ParsedRow(Split(lines[r]), r, 0, cells);
    var more := ParseRow(Split(lines[r]), r, 0, cells).value;
    forall i, j | 0 <= i < r + 1 && 0 <= j < |Split(lines[i])| ensures CellIs(more, i, j, Split(lines[i])[j]) {
      if i < r { assert CellIs(cells, i, j, Split(lines[i])[j]); }
    }
  }

  lemma {:induction false} ParsedRows(lines: seq<string>, r: nat, cols: nat, cells: map<Position, PieceData>)
    requires r <= |lines| && CellsOf(lines, r, cells)
    ensures ParseRows(lines, r, cols, cells).Ok? <==> forall i | r <= i < |lines| :: GoodRow(lines[i], cols)
    ensures ParseRows(lines, r, cols, cells).Ok? ==> CellsOf(lines, |lines|, ParseRows(lines, r, cols, cells).value)
    decreases |lines| - r
  {
    hide ParseToken, Split, ParseRow, CellsOf;
    if r < |lines| {
      var tokens := Split(lines[r]);
      NoRowYet(lines, r, cells);
      ParsedRow(tokens, r, 0, cells);
      if |tokens| == cols && ParseRow(tokens, r, 0, cells).Ok? {
        NextRow(lines, r, cells);
        ParsedRows(lines, r + 1, cols, ParseRow(tokens, r, 0, cells).value);
      }
    }
  }

  lemma NoRowYet(lines: seq<string>, r: nat, cells: map<Position, PieceData>)
    requires r <= |lines| && CellsOf(lines, r, cells)
    ensures forall p | p in cells :: p.row < r
  {
  }

  /** The parser accepts a text exactly if all lines have as many words as the first and every word
      is a dot or names a piece; the board then holds exactly the pieces named, where they are named. */
  lemma ParseAccepts(lines: seq<string>)
    requires lines != []
    ensures var cols := |Split(lines[0])|;
            && (ParseBoard(lines).Ok? <==> forall r | 0 <= r < |lines| :: GoodRow(lines[r], cols))
            && (ParseBoard(lines).Ok? ==>
                  var v := ParseBoard(lines).value;
                  v.rows == |lines| && v.cols == cols && CellsOf(lines, |lines|, v.cells))
  {
    hide ParseRow, Split, GoodRow;
    ParsedRows(lines, 0, |Split(lines[0])|, map[]);
  }

  lemma {:induction false} RowFault(tokens: seq<string>, r: nat, c: nat, cells: map<Position, PieceData>)
    requires c <= |tokens|
    ensures ParseRow(tokens, r, c, cells).Err? <==>
            exists j :: c <= j < |tokens| && tokens[j] != "." && ParseToken(tokens[j]).Err?
    ensures ParseRow(tokens, r, c, cells).Err? ==> ParseRow(tokens, r, c, cells).error == UnknownToken
    decreases |tokens| - c
  {
    hide Until, Past, Lower, KindNamed, ColorNamed;
    if c < |tokens| {
      if tokens[c] == "." {
        RowFault(tokens, r, c + 1, cells);
      } else if ParseToken(tokens[c]).Ok? {
        RowFault(tokens, r, c + 1, cells[Position(r, c) := ParseToken(tokens[c]).value]);
      }
    }
  }

  lemma {:induction false} RowsFault(lines: seq<string>, k: nat, r: nat, cols: nat, cells: map<Position, PieceData>)
    requires k <= r < |lines| && (forall i | k <= i < r :: GoodRow(lines[i], cols)) && !GoodRow(lines[r], cols)
    ensures ParseRows(lines, k, cols, cells)
            == Err(if |Split(lines[r])| != cols then RowWidthMismatch else UnknownToken)
    decreases r - k
  {
    hide ParseToken, Split, ParseRow;
    var tokens := Split(lines[k]);
    RowFault(tokens, k, 0, cells);
    if k < r {
      assert GoodRow(lines[k], cols);
      RowsFault(lines, k + 1, r, cols, ParseRow(tokens, k, 0, cells).value);
    }
  }

  /** Which fault is reported: that of the first bad line; and there, a wrong number of words before a word that
      names no piece. */
  lemma FirstFault(lines: seq<string>, r: nat)
    requires r < |lines| && !GoodRow(lines[r], |Split(lines[0])|)
    requires forall i | 0 <= i < r :: GoodRow(lines[i], |Split(lines[0])|)
    ensures ParseBoard(lines)
            == Err(if |Split(lines[r])| != |Split(lines[0])| then RowWidthMismatch else UnknownToken)
  {
    hide ParseRows, Split, GoodRow;
    RowsFault(lines, 0, r, |Split(lines[0])|, map[]);
  }

  lemma ParsedCell(lines: seq<string>, v: View, r: nat, c: nat)
    requires lines != [] && ParseBoard(lines) == Ok(v) && r < v.rows && c < v.cols
    ensures v.rows == |lines| && c < |Split(lines[r])| && CellIs(v.cells, r, c, Split(lines[r])[c])
    ensures Token(v, r, c) == Split(lines[r])[c]
  {
    hide ParseBoard, Split;
    ParseAccepts(lines);
    assert GoodRow(lines[r], v.cols);
    assert CellIs(v.cells, r, c, Split(lines[r])[c]);
  }

  /** Parse, then print: line by line the same words. */
  lemma ParsePrint(lines: seq<string>, v: View)
    requires ParseBoard(lines) == Ok(v)
    ensures |PrintBoard(v)| == |lines|
    ensures forall r | 0 <= r < |lines| :: Split(PrintBoard(v)[r]) == Split(lines[r])
  {
    hide ParseBoard, Split, Token, CellIs;
    if lines == [] {
      EmptyBoard();
    } else {
      ParseAccepts(lines);
      forall r | 0 <= r < |lines| ensures Split(PrintBoard(v)[r]) == Split(lines[r]) {
        assert GoodRow(lines[r], v.cols);
        forall c | 0 <= c < v.cols ensures RowTokens(v, r)[c] == Split(lines[r])[c] {
          ParsedCell(lines, v, r, c);
        }
        assert RowTokens(v, r) == Split(lines[r]);
        ParsedPrintable(lines, v);
        PrintedRowSplits(v, r);
      }
    }
  }

  lemma EmptyBoard()
    ensures ParseBoard([]) == Ok(View(0, 0, map[]))
  {
  }

  lemma ParsedLabel(token: string)
    requires IsWord(token) && ParseToken(token).Ok? && token != "."
    ensures Denotes(ParseToken(token).value)
    ensures ParseToken(token).value.status.Idle?
  {
  }

  /** A parsed board can be printed: every piece keeps the token it was read from as its label. */
  lemma ParsedPrintable(lines: seq<string>, v: View)
    requires ParseBoard(lines) == Ok(v)
    ensures Printable(v) && forall p | p in v.cells :: v.cells[p].status.Idle?
  {
    hide ParseBoard, Denotes, ParseToken, Words;
    if lines == [] {
      EmptyBoard();
    } else {
      ParseAccepts(lines);
      forall p | p in v.cells ensures v.InBounds(p) && Denotes(v.cells[p]) && v.cells[p].status.Idle? {
        assert GoodRow(lines[p.row], v.cols);
        ParsedCell(lines, v, p.row, p.col);
        WordsAreWords(lines[p.row], []);
        ParsedLabel(Split(lines[p.row])[p.col]);
      }
    }
  }
}
