/** Values shared by the whole model: squares, colours, piece data. */
module Basics {

  datatype Option<+T> = None | Some(value: T)

  type UserId = string

  datatype Color = White | Black {
    function Other(): Color {
      if White? then Black else White
    }
  }

  datatype Kind = King | Queen | Rook | Bishop | Knight | Pawn

  datatype Status = Idle | Moving | Jumping | Captured

  /** A square is named by any two integers; most of them lie off the board. */
  datatype Position = Position(row: int, col: int) {
    /** The square k steps away in direction (dr, dc). */
    function Step(k: int, dr: int, dc: int): Position {
      Position(row + k * dr, col + k * dc)
    }
  }

  /** The observable contents of one piece object. */
  datatype PieceData = PieceData(pieceId: string, color: Color, kind: Kind, status: Status)

  /** What the move rules can see: the size of the board and the piece on each occupied square. */
  datatype View = View(rows: nat, cols: nat, cells: map<Position, PieceData>) {
    predicate InBounds(p: Position) {
      0 <= p.row < rows && 0 <= p.col < cols
    }
  }

  function Sign(x: int): int {
    if x > 0 then 1 else if x < 0 then -1 else 0
  }

  function Abs(x: int): nat {
    if x < 0 then -x else x
  }

  function Max(x: int, y: int): int {
    if x < y then y else x
  }
}
