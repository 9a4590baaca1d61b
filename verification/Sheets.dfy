/** The values of models.py and parameters.py the cutting engine passes around. */
module Sheets {
  import opened Geometry

  /** Trims and blade width; the source rejects negative ones. */
  datatype Params = Params(kerf: nat, top: nat, bottom: nat, left: nat, right: nat)

  /** The part of a sheet pieces may occupy: the sheet minus its trims. */
  function UsableBounds(width: int, height: int, p: Params): Box {
    Box(p.left, p.bottom, width - p.right, height - p.top)
  }

  datatype Piece = Piece(id: string, width: int, height: int, canRotate: bool, priority: int)

  /** The source rejects pieces without positive dimensions. */
  predicate ValidPiece(p: Piece) {
    p.width > 0 && p.height > 0
  }

  datatype Placed = Placed(piece: Piece, x: int, y: int, width: int, height: int, rotated: bool)

  function BoxOf(p: Placed): Box {
    Box(p.x, p.y, p.x + p.width, p.y + p.height)
  }

  function BoxesOf(ps: seq<Placed>): (S: seq<Box>)
    ensures |S| == |ps| && forall i :: 0 <= i < |S| ==> S[i] == BoxOf(ps[i])
  {
    if ps == [] then [] else BoxesOf(ps[..|ps|-1]) + [BoxOf(ps[|ps|-1])]
  }

  function PiecesOf(ps: seq<Placed>): (r: seq<Piece>)
    ensures |r| == |ps| && forall i :: 0 <= i < |r| ==> r[i] == ps[i].piece
  {
    if ps == [] then [] else PiecesOf(ps[..|ps|-1]) + [ps[|ps|-1].piece]
  }

  /** The piece lies in one of its two orientations, and turned only if it may be. */
  predicate Legal(p: Placed) {
    if p.rotated then p.piece.canRotate && p.width == p.piece.height && p.height == p.piece.width
    else p.width == p.piece.width && p.height == p.piece.height
  }
}
