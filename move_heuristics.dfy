/** Inferring the move just played from the differences between the last
    known board and a perceived one (src/chessbot_move_heuristics.py). Two
    shapes are recognised, a plain move (two differences) and a capture
    (three); any other shape is declined and leaves the board alone. */
module MoveHeuristics {
  import opened Wrappers
  import opened Chess
  import opened ChessStuff

  /** `list(filter(keep, ds))`: the differences that pass, in their order. */
  function Filter(ds: seq<Difference>, keep: Difference -> bool): seq<Difference>
  {
    if |ds| == 0 then [] else (if keep(ds[0]) then [ds[0]] else []) + Filter(ds[1..], keep)
  }

  /** The filter keeps exactly the differences that pass, each as often as
      the list holds it. */
  lemma {:induction false} FilterKeeps(ds: seq<Difference>, keep: Difference -> bool)
    ensures forall d :: multiset(Filter(ds, keep))[d] == if keep(d) then multiset(ds)[d] else 0
  {
    if |ds| > 0 {
      var tail := ds[1..];
      FilterKeeps(tail, keep);
      assert ds == [ds[0]] + tail;
      var head := if keep(ds[0]) then [ds[0]] else [];
      assert Filter(ds, keep) == head + Filter(tail, keep);
      forall d
        ensures multiset(Filter(ds, keep))[d] == if keep(d) then multiset(ds)[d] else 0
      {
        assert multiset(Filter(ds, keep)) == multiset(head) + multiset(Filter(tail, keep));
        assert multiset(ds) == multiset([ds[0]]) + multiset(tail);
      }
    }
  }

  /** The filter is non-empty exactly when some difference passes, and its
      first element, which `[0]` reads, is the first difference that does. */
  lemma {:induction false} FilterFirst(ds: seq<Difference>, keep: Difference -> bool)
    ensures |Filter(ds, keep)| > 0 <==> exists k :: 0 <= k < |ds| && keep(ds[k])
    ensures |Filter(ds, keep)| > 0 ==>
      exists k :: 0 <= k < |ds| && keep(ds[k]) && Filter(ds, keep)[0] == ds[k] &&
                  forall j :: 0 <= j < k ==> !keep(ds[j])
  {
    if |ds| > 0 {
      var tail := ds[1..];
      if !keep(ds[0]) {
        FilterFirst(tail, keep);
        assert Filter(ds, keep) == Filter(tail, keep);
        if exists k :: 0 <= k < |ds| && keep(ds[k]) {
          var k :| 0 <= k < |ds| && keep(ds[k]);
          assert tail[k - 1] == ds[k];
        }
        if |Filter(tail, keep)| > 0 {
          var k :| 0 <= k < |tail| && keep(tail[k]) && Filter(tail, keep)[0] == tail[k] &&
                   forall j :: 0 <= j < k ==> !keep(tail[j]);
          assert ds[k + 1] == tail[k];
          forall j | 0 <= j < k + 1
            ensures !keep(ds[j])
          {
            if j > 0 {
              assert ds[j] == tail[j - 1];
            }
          }
        }
      } else {
        assert Filter(ds, keep)[0] == ds[0];
      }
    }
  }

  /** The filter keeps the order of the list: filtering a concatenation
      concatenates the filtered parts. */
  lemma {:induction false} FilterKeepsOrder(xs: seq<Difference>, ys: seq<Difference>, keep: Difference -> bool)
    ensures Filter(xs + ys, keep) == Filter(xs, keep) + Filter(ys, keep)
  {
    if |xs| > 0 {
      assert (xs + ys)[1..] == xs[1..] + ys;
      FilterKeepsOrder(xs[1..], ys, keep);
    } else {
      assert xs + ys == ys;
    }
  }

  /** `xs[0]`, with None where Python raises IndexError on an empty list. */
  function First<T>(xs: seq<T>): Option<T>
  {
    if |xs| == 0 then None else Some(xs[0])
  }

  predicate IsRemoval(d: Difference)
  {
    d.kind == Remove
  }

  predicate IsAddition(d: Difference)
  {
    d.kind == Add
  }

  /** The origin and destination handed to `find_move`. */
  datatype Candidate = Candidate(origin: Square, destination: Square)

  /** The checks `try_update_with_move` makes before asking the rules:
      exactly two differences, the first removal and the first addition
      exist (else IndexError), and they concern the same piece. */
  function MoveCandidate(ds: seq<Difference>): Option<Candidate>
  {
    if |ds| != 2 then None
    else
      match (First(Filter(ds, IsRemoval)), First(Filter(ds, IsAddition)))
      case (Some(removal), Some(addition)) =>
        if removal.piece != addition.piece then None
        else Some(Candidate(removal.square, addition.square))
      case _ => None
  }

  /** The checks `try_update_with_capture` makes before asking the rules:
      exactly three differences; a first addition, a removal on its square
      (the captured piece) and a removal elsewhere (the capturing piece), each
      the first of its filter (else IndexError); the capturing piece is the
      added piece and the captured piece has the other colour. */
  function CaptureCandidate(ds: seq<Difference>): Option<Candidate>
  {
    if |ds| != 3 then None
    else
      var removals := Filter(ds, IsRemoval);
      match First(Filter(ds, IsAddition))
      case None => None
      case Some(addition) =>
        match (First(SquareFilter(removals, addition.square, true)),
               First(SquareFilter(removals, addition.square, false)))
        case (Some(captured), Some(capturing)) =>
          if addition.piece != capturing.piece then None
          else if addition.piece.color == captured.piece.color then None
          else Some(Candidate(capturing.square, addition.square))
        case _ => None
  }

  /** `list(filter(lambda d: d.square == square, ds))` when `onSquare`, and
      the same with `!=` otherwise. */
  function SquareFilter(ds: seq<Difference>, square: Square, onSquare: bool): seq<Difference>
  {
    if |ds| == 0 then []
    else (if (ds[0].square == square) == onSquare then [ds[0]] else []) + SquareFilter(ds[1..], square, onSquare)
  }

  /** The square filter keeps exactly the differences that pass, each as often as
      the list holds it. */
  lemma {:induction false} SquareFilterKeeps(ds: seq<Difference>, square: Square, onSquare: bool)
    ensures forall d :: multiset(SquareFilter(ds, square, onSquare))[d] == if (d.square == square) == onSquare then multiset(ds)[d] else 0
  {
    if |ds| > 0 {
      var tail := ds[1..];
      SquareFilterKeeps(tail, square, onSquare);
      assert ds == [ds[0]] + tail;
      var head := if (ds[0].square == square) == onSquare then [ds[0]] else [];
      assert SquareFilter(ds, square, onSquare) == head + SquareFilter(tail, square, onSquare);
      forall d
        ensures multiset(SquareFilter(ds, square, onSquare))[d] == if (d.square == square) == onSquare then multiset(ds)[d] else 0
      {
        assert multiset(SquareFilter(ds, square, onSquare)) == multiset(head) + multiset(SquareFilter(tail, square, onSquare));
        assert multiset(ds) == multiset([ds[0]]) + multiset(tail);
      }
    }
  }

  /** The square filter is non-empty exactly when some difference passes, and its
      first element, which `[0]` reads, is the first difference that does. */
  lemma {:induction false} SquareFilterFirst(ds: seq<Difference>, square: Square, onSquare: bool)
    ensures |SquareFilter(ds, square, onSquare)| > 0 <==> exists k :: 0 <= k < |ds| && (ds[k].square == square) == onSquare
    ensures |SquareFilter(ds, square, onSquare)| > 0 ==>
      exists k :: 0 <= k < |ds| && (ds[k].square == square) == onSquare && SquareFilter(ds, square, onSquare)[0] == ds[k] &&
                  forall j :: 0 <= j < k ==> (ds[j].square == square) != onSquare
  {
    if |ds| > 0 {
      var tail := ds[1..];
      if (ds[0].square == square) != onSquare {
        SquareFilterFirst(tail, square, onSquare);
        assert SquareFilter(ds, square, onSquare) == SquareFilter(tail, square, onSquare);
        if exists k :: 0 <= k < |ds| && (ds[k].square == square) == onSquare {
          var k :| 0 <= k < |ds| && (ds[k].square == square) == onSquare;
          assert tail[k - 1] == ds[k];
        }
        if |SquareFilter(tail, square, onSquare)| > 0 {
          var k :| 0 <= k < |tail| && (tail[k].square == square) == onSquare && SquareFilter(tail, square, onSquare)[0] == tail[k] &&
                   forall j :: 0 <= j < k ==> (tail[j].square == square) != onSquare;
          assert ds[k + 1] == tail[k];
          forall j | 0 <= j < k + 1
            ensures (ds[j].square == square) != onSquare
          {
            if j > 0 {
              assert ds[j] == tail[j - 1];
            }
          }
        }
      } else {
        assert SquareFilter(ds, square, onSquare)[0] == ds[0];
      }
    }
  }

  /** The square filter keeps the order of the list: filtering a concatenation
      concatenates the filtered parts. */
  lemma {:induction false} SquareFilterKeepsOrder(xs: seq<Difference>, ys: seq<Difference>, square: Square, onSquare: bool)
    ensures SquareFilter(xs + ys, square, onSquare) == SquareFilter(xs, square, onSquare) + SquareFilter(ys, square, onSquare)
  {
    if |xs| > 0 {
      assert (xs + ys)[1..] == xs[1..] + ys;
      SquareFilterKeepsOrder(xs[1..], ys, square, onSquare);
    } else {
      assert xs + ys == ys;
    }
  }

  // ---------------------------------------------------------------------------
  // The two shapes, stated without filters.

  /** A plain move: a piece removed from one square and the same piece (type
      and colour) added on another. */
  predicate IsMove(removal: Difference, addition: Difference)
  {
    removal.kind == Remove && addition.kind == Add && removal.piece == addition.piece
  }

  predicate MoveShape(ds: seq<Difference>, c: Candidate)
  {
    && |ds| == 2
    && ((IsMove(ds[0], ds[1]) && c == Candidate(ds[0].square, ds[1].square))
        || (IsMove(ds[1], ds[0]) && c == Candidate(ds[1].square, ds[0].square)))
  }

  /** A capture: the capturing piece is removed from its square and added on
      the square from which a piece of the other colour is removed. */
  predicate IsCapture(addition: Difference, capturing: Difference, captured: Difference)
  {
    && addition.kind == Add && capturing.kind == Remove && captured.kind == Remove
    && captured.square == addition.square && capturing.square != addition.square
    && capturing.piece == addition.piece && captured.piece.color != addition.piece.color
  }

  predicate CaptureAt(ds: seq<Difference>, i: nat, j: nat, k: nat, c: Candidate)
    requires i < |ds| && j < |ds| && k < |ds|
  {
    IsCapture(ds[i], ds[j], ds[k]) && c == Candidate(ds[j].square, ds[i].square)
  }

  /** The three differences, in some order, are an addition, the capturing
      removal and the captured removal. */
  predicate CaptureShape(ds: seq<Difference>, c: Candidate)
  {
    && |ds| == 3
    && (|| CaptureAt(ds, 0, 1, 2, c) || CaptureAt(ds, 0, 2, 1, c)
        || CaptureAt(ds, 1, 0, 2, c) || CaptureAt(ds, 1, 2, 0, c)
        || CaptureAt(ds, 2, 0, 1, c) || CaptureAt(ds, 2, 1, 0, c))
  }

  lemma FilterPair(a: Difference, b: Difference, keep: Difference -> bool)
    ensures Filter([a, b], keep) == (if keep(a) then [a] else []) + (if keep(b) then [b] else [])
  {
    assert [a, b][1..] == [b];
    assert [b][1..] == [];
    assert Filter([b], keep) == (if keep(b) then [b] else []) + Filter([], keep);
  }

  lemma FilterTriple(a: Difference, b: Difference, c: Difference, keep: Difference -> bool)
    ensures Filter([a, b, c], keep) ==
            (if keep(a) then [a] else []) + (if keep(b) then [b] else []) + (if keep(c) then [c] else [])
  {
    assert [a, b, c][1..] == [b, c];
    FilterPair(b, c, keep);
  }

  /** `try_update_with_move` proposes a candidate exactly for a plain-move
      shape, from the removal square to the addition square. */
  lemma MoveCandidateExactly(ds: seq<Difference>, c: Candidate)
    ensures MoveCandidate(ds) == Some(c) <==> MoveShape(ds, c)
  {
    if |ds| == 2 {
      assert ds == [ds[0], ds[1]];
      FilterPair(ds[0], ds[1], IsRemoval);
      FilterPair(ds[0], ds[1], IsAddition);
    }
  }

  lemma SquareFilterPair(a: Difference, b: Difference, square: Square, onSquare: bool)
    ensures SquareFilter([a, b], square, onSquare) ==
            (if (a.square == square) == onSquare then [a] else []) + (if (b.square == square) == onSquare then [b] else [])
  {
    assert [a, b][1..] == [b];
    assert [b][1..] == [];
    assert SquareFilter([b], square, onSquare) ==
           (if (b.square == square) == onSquare then [b] else []) + SquareFilter([], square, onSquare);
  }

  /** The capture shape of a literal triple, one disjunct per order. */
  predicate CaptureOf(a: Difference, b: Difference, d: Difference, c: Candidate)
  {
    IsCapture(a, b, d) && c == Candidate(b.square, a.square)
  }

  lemma ShapeOfTriple(a: Difference, b: Difference, d: Difference, c: Candidate)
    ensures CaptureShape([a, b, d], c) <==>
      || CaptureOf(a, b, d, c) || CaptureOf(a, d, b, c) || CaptureOf(b, a, d, c)
      || CaptureOf(b, d, a, c) || CaptureOf(d, a, b, c) || CaptureOf(d, b, a, c)
  {
    var ds := [a, b, d];
    assert ds[0] == a && ds[1] == b && ds[2] == d;
  }

  /** The addition comes first; the two removals follow. */
  lemma CaptureAddFirst(a: Difference, b: Difference, d: Difference, c: Candidate)
    requires a.kind == Add && b.kind == Remove && d.kind == Remove
    ensures CaptureCandidate([a, b, d]) == Some(c) <==> CaptureOf(a, b, d, c) || CaptureOf(a, d, b, c)
  {
    FilterTriple(a, b, d, IsRemoval);
    FilterTriple(a, b, d, IsAddition);
    SquareFilterPair(b, d, a.square, true);
    SquareFilterPair(b, d, a.square, false);
  }

  lemma CaptureAddSecond(a: Difference, b: Difference, d: Difference, c: Candidate)
    requires a.kind == Remove && b.kind == Add && d.kind == Remove
    ensures CaptureCandidate([a, b, d]) == Some(c) <==> CaptureOf(b, a, d, c) || CaptureOf(b, d, a, c)
  {
    FilterTriple(a, b, d, IsRemoval);
    FilterTriple(a, b, d, IsAddition);
    SquareFilterPair(a, d, b.square, true);
    SquareFilterPair(a, d, b.square, false);
  }

  lemma CaptureAddThird(a: Difference, b: Difference, d: Difference, c: Candidate)
    requires a.kind == Remove && b.kind == Remove && d.kind == Add
    ensures CaptureCandidate([a, b, d]) == Some(c) <==> CaptureOf(d, a, b, c) || CaptureOf(d, b, a, c)
  {
    FilterTriple(a, b, d, IsRemoval);
    FilterTriple(a, b, d, IsAddition);
    assert Filter([a, b, d], IsRemoval) == [a, b];
    assert Filter([a, b, d], IsAddition) == [d];
    SquareFilterPair(a, b, d.square, true);
    SquareFilterPair(a, b, d.square, false);
  }

  /** Without exactly one addition and two removals nothing is proposed:
      either there is no addition, or at most one removal, which cannot be
      both on and off the addition's square. */
  lemma CaptureNeedsOneAddition(a: Difference, b: Difference, d: Difference)
    requires !(a.kind == Add && b.kind == Remove && d.kind == Remove)
    requires !(a.kind == Remove && b.kind == Add && d.kind == Remove)
    requires !(a.kind == Remove && b.kind == Remove && d.kind == Add)
    ensures CaptureCandidate([a, b, d]) == None
  {
    FilterTriple(a, b, d, IsAddition);
    var additions := Filter([a, b, d], IsAddition);
    if |additions| > 0 {
      FilterTriple(a, b, d, IsRemoval);
      var removals := Filter([a, b, d], IsRemoval);
      var sq := additions[0].square;
      assert |removals| <= 1;
      if |removals| == 1 {
        var x := removals[0];
        assert removals == [x];
        assert [x][1..] == [];
        assert SquareFilter([x], sq, true) == (if x.square == sq then [x] else []) + SquareFilter([], sq, true);
        assert SquareFilter([x], sq, false) == (if x.square != sq then [x] else []) + SquareFilter([], sq, false);
        if x.square == sq {
          assert SquareFilter([x], sq, false) == [];
        } else {
          assert SquareFilter([x], sq, true) == [];
        }
      } else {
        assert removals == [];
      }
    }
  }

  lemma CaptureOfTriple(a: Difference, b: Difference, d: Difference, c: Candidate)
    ensures CaptureCandidate([a, b, d]) == Some(c) <==> CaptureShape([a, b, d], c)
  {
    ShapeOfTriple(a, b, d, c);
    if a.kind == Add && b.kind == Remove && d.kind == Remove {
      CaptureAddFirst(a, b, d, c);
    } else if a.kind == Remove && b.kind == Add && d.kind == Remove {
      CaptureAddSecond(a, b, d, c);
    } else if a.kind == Remove && b.kind == Remove && d.kind == Add {
      CaptureAddThird(a, b, d, c);
    } else {
      CaptureNeedsOneAddition(a, b, d);
    }
  }

  /** `try_update_with_capture` proposes a candidate exactly for a capture
      shape, from the capturing removal's square to the addition's square. */
  lemma CaptureCandidateExactly(ds: seq<Difference>, c: Candidate)
    ensures CaptureCandidate(ds) == Some(c) <==> CaptureShape(ds, c)
  {
    if |ds| == 3 {
      assert ds == [ds[0], ds[1], ds[2]];
      CaptureOfTriple(ds[0], ds[1], ds[2], c);
    }
  }

  /** For two differences, their order does not matter. */
  lemma MoveOrderIrrelevant(a: Difference, b: Difference)
    ensures MoveCandidate([a, b]) == MoveCandidate([b, a])
  {
    match MoveCandidate([a, b])
    case Some(c) =>
      MoveCandidateExactly([a, b], c);
      MoveCandidateExactly([b, a], c);
    case None =>
      match MoveCandidate([b, a])
      case Some(c) =>
        MoveCandidateExactly([a, b], c);
        MoveCandidateExactly([b, a], c);
      case None =>
  }

  /** Two differences of the same kind, or about different pieces, are
      never a plain move. */
  lemma MoveDeclines(a: Difference, b: Difference)
    ensures a.kind == b.kind ==> MoveCandidate([a, b]) == None
    ensures a.piece != b.piece ==> MoveCandidate([a, b]) == None
  {
    if MoveCandidate([a, b]).Some? {
      MoveCandidateExactly([a, b], MoveCandidate([a, b]).value);
    }
  }

  /** Three differences whose pieces all have one colour are never a
      capture, and neither are three differences of which none is on the
      square of another. */
  lemma CaptureDeclines(a: Difference, b: Difference, d: Difference)
    ensures a.piece.color == b.piece.color == d.piece.color ==> CaptureCandidate([a, b, d]) == None
    ensures a.square != b.square && b.square != d.square && a.square != d.square ==>
            CaptureCandidate([a, b, d]) == None
  {
    if CaptureCandidate([a, b, d]).Some? {
      var c := CaptureCandidate([a, b, d]).value;
      CaptureOfTriple(a, b, d, c);
      ShapeOfTriple(a, b, d, c);
    }
  }

  lemma CaptureSwapFirst(a: Difference, b: Difference, d: Difference)
    ensures CaptureCandidate([a, b, d]) == CaptureCandidate([b, a, d])
  {
    match CaptureCandidate([a, b, d])
    case Some(c) =>
      CaptureOfTriple(a, b, d, c);
      CaptureOfTriple(b, a, d, c);
    case None =>
      match CaptureCandidate([b, a, d])
      case Some(c) =>
        CaptureOfTriple(a, b, d, c);
        CaptureOfTriple(b, a, d, c);
      case None =>
  }

  lemma CaptureSwapLast(a: Difference, b: Difference, d: Difference)
    ensures CaptureCandidate([a, b, d]) == CaptureCandidate([a, d, b])
  {
    match CaptureCandidate([a, b, d])
    case Some(c) =>
      CaptureOfTriple(a, b, d, c);
      CaptureOfTriple(a, d, b, c);
    case None =>
      match CaptureCandidate([a, d, b])
      case Some(c) =>
        CaptureOfTriple(a, b, d, c);
        CaptureOfTriple(a, d, b, c);
      case None =>
  }

  /** For three differences, their order does not matter: every rearrangement
      gives the same candidate, or none. */
  lemma CaptureOrderIrrelevant(a: Difference, b: Difference, d: Difference)
    ensures var r := CaptureCandidate([a, b, d]);
      && r == CaptureCandidate([b, a, d]) && r == CaptureCandidate([a, d, b])
      && r == CaptureCandidate([d, b, a]) && r == CaptureCandidate([b, d, a])
      && r == CaptureCandidate([d, a, b])
  {
    CaptureSwapFirst(a, b, d);
    CaptureSwapLast(a, b, d);
    CaptureSwapLast(b, a, d);
    CaptureSwapFirst(a, d, b);
    CaptureSwapLast(d, a, b);
  }

  // ---------------------------------------------------------------------------
  // Asking the rules and updating the shared board.

  /** What `try_update_with_move` returns for a board in position `pos`. */
  function MoveAttempt(rules: Rules, pos: Position, ds: seq<Difference>): Option<Move>
  {
    match MoveCandidate(ds)
    case None => None
    case Some(c) => rules.findMove(pos, c.origin, c.destination)
  }

  /** What `try_update_with_capture` returns for a board in position `pos`. */
  function CaptureAttempt(rules: Rules, pos: Position, ds: seq<Difference>): Option<Move>
  {
    match CaptureCandidate(ds)
    case None => None
    case Some(c) => rules.findMove(pos, c.origin, c.destination)
  }

  /** The move `try_update_board` pushes, if any: nothing for no differences,
      else the move attempt and, only if that declines, the capture attempt. */
  function BoardUpdate(rules: Rules, pos: Position, ds: seq<Difference>): Option<Move>
  {
    if |ds| == 0 then None
    else if MoveAttempt(rules, pos, ds).Some? then MoveAttempt(rules, pos, ds)
    else CaptureAttempt(rules, pos, ds)
  }

  /** The position after pushing the move, if there is one. */
  function Played(rules: Rules, pos: Position, m: Option<Move>): Position
  {
    match m
    case None => pos
    case Some(move) => Pushed(rules, pos, move)
  }

  /** `try_update_board` pushes the move m exactly when the differences have
      a plain-move or a capture shape and the rules accept the move the shape
      names; an empty list never pushes anything. */
  lemma BoardUpdateExactly(rules: Rules, pos: Position, ds: seq<Difference>, m: Move)
    ensures BoardUpdate(rules, pos, ds) == Some(m) <==>
      exists c :: (MoveShape(ds, c) || CaptureShape(ds, c)) && rules.findMove(pos, c.origin, c.destination) == Some(m)
    ensures |ds| == 0 ==> BoardUpdate(rules, pos, ds) == None
  {
    if BoardUpdate(rules, pos, ds) == Some(m) {
      if MoveCandidate(ds).Some? && MoveAttempt(rules, pos, ds).Some? {
        var c := MoveCandidate(ds).value;
        MoveCandidateExactly(ds, c);
      } else {
        var c := CaptureCandidate(ds).value;
        CaptureCandidateExactly(ds, c);
      }
    }
    if exists c :: (MoveShape(ds, c) || CaptureShape(ds, c)) && rules.findMove(pos, c.origin, c.destination) == Some(m) {
      var c :| (MoveShape(ds, c) || CaptureShape(ds, c)) && rules.findMove(pos, c.origin, c.destination) == Some(m);
      MoveCandidateExactly(ds, c);
      CaptureCandidateExactly(ds, c);
      if CaptureShape(ds, c) {
        assert MoveCandidate(ds) == None;
      }
    }
  }

  /** `ChessbotMoveHeuristics`: holds the board it shares with its owner and
      pushes onto it the move it infers. */
  class ChessbotMoveHeuristics {
    const board: Board

    constructor (board: Board)
      ensures this.board == board
    {
      this.board := board;
    }

    /** `try_update_with_move`: the rules' move for a plain-move shape, pushed
        onto the board; None, with the board unchanged, when the shape does
        not fit or the rules reject it. */
    method TryUpdateWithMove(differences: seq<Difference>) returns (r: Option<Move>)
      modifies board
      ensures r == MoveAttempt(board.rules, old(board.Current()), differences)
      ensures board.Current() == Played(board.rules, old(board.Current()), r)
    {
      if |differences| != 2 {
        return None;
      }
      var removal := First(Filter(differences, IsRemoval));
      var addition := First(Filter(differences, IsAddition));
      if removal.None? || addition.None? {
        return None;
      }
      if removal.value.piece != addition.value.piece {
        return None;
      }
      var move := board.FindMove(removal.value.square, addition.value.square);
      if move.None? {
        return None;
      }
      board.Push(move.value);
      return move;
    }

    /** `try_update_with_capture`: the rules' move for a capture shape, pushed
        onto the board; None, with the board unchanged, when the shape does
        not fit or the rules reject it. */
    method TryUpdateWithCapture(differences: seq<Difference>) returns (r: Option<Move>)
      modifies board
      ensures r == CaptureAttempt(board.rules, old(board.Current()), differences)
      ensures board.Current() == Played(board.rules, old(board.Current()), r)
    {
      if |differences| != 3 {
        return None;
      }
      var removals := Filter(differences, IsRemoval);
      var addition := First(Filter(differences, IsAddition));
      if addition.None? {
        return None;
      }
      var add := addition.value;
      var captured := First(SquareFilter(removals, add.square, true));
      var capturing := First(SquareFilter(removals, add.square, false));
      if captured.None? || capturing.None? {
        return None;
      }
      if add.piece != capturing.value.piece {
        return None;
      }
      if add.piece.color == captured.value.piece.color {
        return None;
      }
      var move := board.FindMove(capturing.value.square, add.square);
      if move.None? {
        return None;
      }
      board.Push(move.value);
      return move;
    }

    /** `try_update_board`: tries a plain move, then a capture, and stops at
        the first that succeeds, so at most one move is pushed and the moves
        already on the stack stay. */
    method TryUpdateBoard(differences: seq<Difference>)
      modifies board
      ensures board.Current() ==
              Played(board.rules, old(board.Current()), BoardUpdate(board.rules, old(board.Current()), differences))
      ensures old(board.moveStack) <= board.moveStack
      ensures |board.moveStack| <= |old(board.moveStack)| + 1
    {
      if |differences| == 0 {
        return;
      }
      var move := TryUpdateWithMove(differences);
      if move.Some? {
        return;
      }
      var capture := TryUpdateWithCapture(differences);
      if capture.Some? {
        return;
      }
    }
  }
}
