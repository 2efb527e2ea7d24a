/**
 * The tactic analyzer of utils/tactics.ts: it names the pattern of a move the
 * rules library has just applied and lists the squares to highlight.
 */
module Tactics {
  import opened Types
  import opened Chess
  import opened Strings

  datatype Tactic = Checkmate | Check | Castling | Promotion | EnPassant | Fork | BigCapture

  /** The label shown on the board and appended to the move's log line. */
  function Name(t: Tactic): string {
    match t
    case Checkmate => "CHECKMATE"
    case Check => "CHECK!"
    case Castling => "CASTLING"
    case Promotion => "PROMOTION"
    case EnPassant => "EN PASSANT"
    case Fork => "FORK!"
    case BigCapture => "BIG CAPTURE!"
  }

  function Description(t: Tactic): string {
    match t
    case Checkmate => "게임 종료"
    case Check => "왕이 위협받고 있습니다"
    case Castling => "왕과 룩의 협동 작전"
    case Promotion => "폰의 화려한 변신"
    case EnPassant => "특별한 폰 잡기 규칙"
    case Fork => "두 기물을 동시에 공격!"
    case BigCapture => "중요 기물 제압"
  }

  datatype TacticResult = TacticResult(tactic: Tactic, squaresToHighlight: seq<string>)

  /** getPieceValue: pawn 1, knight 3, bishop 3, rook 5, queen 9, king 100. */
  function PieceValue(k: PieceType): (v: nat)
    ensures v >= 5 <==> k in {Rook, Queen, King}
    ensures v >= 1
  {
    match k
    case Pawn => 1
    case Knight => 3
    case Bishop => 3
    case Rook => 5
    case Queen => 9
    case King => 100
  }

  /** No element of t occurs twice. */
  predicate Distinct<T(==)>(t: seq<T>) {
    forall i, j :: 0 <= i < j < |t| ==> t[i] != t[j]
  }

  /** The eight knight jumps as (file, rank) offsets, in the order the scan visits them. */
  const KnightOffsets: seq<(int, int)> :=
    [(-2, -1), (-2, 1), (-1, -2), (-1, 2), (1, -2), (1, 2), (2, -1), (2, 1)]

  lemma KnightOffsetsDistinct()
    ensures |KnightOffsets| == 8
    ensures Distinct(KnightOffsets)
  {
  }

  /** A piece a fork counts: an opposing king, queen, rook or bishop. */
  predicate IsForkTarget(p: Option<Piece>, mover: Color) {
    p.Some? && p.value.color != mover && p.value.kind in {King, Queen, Rook, Bishop}
  }

  /** The jump o from (f, r) lands on the board on a piece a fork counts. */
  predicate Hits(b: Board, f: int, r: int, mover: Color, o: (int, int)) {
    OnBoard(f + o.0, r + o.1) && IsForkTarget(At(b, f + o.0, r + o.1), mover)
  }

  /** The squares the jumps in offs hit from (f, r), in the order of offs. */
  function Targets(b: Board, f: int, r: int, mover: Color, offs: seq<(int, int)>): seq<string>
    decreases |offs|
  {
    if offs == [] then []
    else
      var prev := Targets(b, f, r, mover, offs[..|offs| - 1]);
      var o := offs[|offs| - 1];
      if Hits(b, f, r, mover, o) then prev + [SquareName(f + o.0, r + o.1)] else prev
  }

  /**
   * The squares a knight on `to` attacks that hold opposing king, queen, rook
   * or bishop. A `to` that is not a square name attacks nothing: the source's
   * coordinate lookup gives undefined and every bounds test fails.
   */
  function ForkSquares(b: Board, to: string, mover: Color): seq<string> {
    match ParseSquare(to)
    case None => []
    case Some((f, r)) => Targets(b, f, r, mover, KnightOffsets)
  }

  /** The name of the square the jump o from (f, r) lands on. */
  function JumpName(f: int, r: int, o: (int, int)): string
    requires OnBoard(f + o.0, r + o.1)
  {
    SquareName(f + o.0, r + o.1)
  }

  /** s is the name of a square some jump in offs hits from (f, r). */
  ghost predicate HitBy(b: Board, f: int, r: int, mover: Color, offs: seq<(int, int)>, s: string) {
    exists k :: 0 <= k < |offs| && Hits(b, f, r, mover, offs[k]) && s == JumpName(f, r, offs[k])
  }

  lemma {:induction false} TargetsLength(b: Board, f: int, r: int, mover: Color, offs: seq<(int, int)>)
    ensures |Targets(b, f, r, mover, offs)| <= |offs|
    decreases |offs|
  {
    if offs != [] {
      TargetsLength(b, f, r, mover, offs[..|offs| - 1]);
    }
  }

  /** The target list holds exactly the names of the hit squares. */
  lemma {:induction false} TargetsMembers(b: Board, f: int, r: int, mover: Color, offs: seq<(int, int)>)
    ensures forall s :: s in Targets(b, f, r, mover, offs) <==> HitBy(b, f, r, mover, offs, s)
    decreases |offs|
  {
    if offs != [] {
      var front := offs[..|offs| - 1];
      var o := offs[|offs| - 1];
      TargetsMembers(b, f, r, mover, front);
      var t := Targets(b, f, r, mover, offs);
      forall s ensures s in t <==> HitBy(b, f, r, mover, offs, s) {
        if s in t {
          if Hits(b, f, r, mover, o) && s == JumpName(f, r, o) {
            assert offs[|offs| - 1] == o;
          } else {
            assert HitBy(b, f, r, mover, front, s);
            var k :| 0 <= k < |front| && Hits(b, f, r, mover, front[k]) && s == JumpName(f, r, front[k]);
            assert offs[k] == front[k];
          }
        }
        if HitBy(b, f, r, mover, offs, s) {
          var k :| 0 <= k < |offs| && Hits(b, f, r, mover, offs[k]) && s == JumpName(f, r, offs[k]);
          if k < |front| {
            assert front[k] == offs[k];
            assert HitBy(b, f, r, mover, front, s);
          }
        }
      }
    }
  }

  /** Scanning one more jump appends its square when it hits and nothing otherwise. */
  lemma TargetsSnoc(b: Board, f: int, r: int, mover: Color, offs: seq<(int, int)>, i: nat)
    requires i < |offs|
    ensures Targets(b, f, r, mover, offs[..i + 1])
         == if Hits(b, f, r, mover, offs[i]) then Targets(b, f, r, mover, offs[..i]) + [JumpName(f, r, offs[i])]
            else Targets(b, f, r, mover, offs[..i])
  {
    assert offs[..i + 1][..i] == offs[..i];
  }

  /** A jump not among offs lands on a square none of them hits. */
  lemma FreshTarget(b: Board, f: int, r: int, mover: Color, offs: seq<(int, int)>, o: (int, int))
    requires o !in offs && OnBoard(f + o.0, r + o.1)
    ensures JumpName(f, r, o) !in Targets(b, f, r, mover, offs)
  {
    TargetsMembers(b, f, r, mover, offs);
    var name := JumpName(f, r, o);
    forall k | 0 <= k < |offs| && Hits(b, f, r, mover, offs[k]) ensures JumpName(f, r, offs[k]) != name {
      assert offs[k] in offs;
      SquareNameInjective(f + offs[k].0, r + offs[k].1, f + o.0, r + o.1);
    }
  }

  /** Appending an element that is not there keeps a sequence distinct. */
  lemma DistinctAppend<T>(t: seq<T>, x: T)
    requires Distinct(t) && x !in t
    ensures Distinct(t + [x])
  {
    var u := t + [x];
    forall i, j | 0 <= i < j < |u| ensures u[i] != u[j] {
      assert u[i] == t[i];
      if j == |t| {
        assert t[i] in t;
      } else {
        assert u[j] == t[j];
      }
    }
  }

  /** With pairwise distinct jumps, no square is listed twice. */
  lemma {:induction false} TargetsDistinct(b: Board, f: int, r: int, mover: Color, offs: seq<(int, int)>)
    requires Distinct(offs)
    ensures Distinct(Targets(b, f, r, mover, offs))
    decreases |offs|
  {
    if offs != [] {
      var front := offs[..|offs| - 1];
      var o := offs[|offs| - 1];
      assert Distinct(front) by {
        forall i, j | 0 <= i < j < |front| ensures front[i] != front[j] {
          assert front[i] == offs[i] && front[j] == offs[j];
        }
      }
      TargetsDistinct(b, f, r, mover, front);
      if Hits(b, f, r, mover, o) {
        assert o !in front by {
          forall k | 0 <= k < |front| ensures front[k] != o {
            assert front[k] == offs[k];
          }
        }
        FreshTarget(b, f, r, mover, front, o);
        DistinctAppend(Targets(b, f, r, mover, front), JumpName(f, r, o));
      }
    }
  }

  /** A `to` that is not a square name yields no fork squares. */
  lemma ForkSquaresOffBoard(b: Board, to: string, mover: Color)
    requires ParseSquare(to).None?
    ensures ForkSquares(b, to, mover) == []
  {
  }

  /**
   * The fork scan from square (f, r): every reported square is a real square
   * holding an opposing king, queen, rook or bishop one knight jump away;
   * every such square is reported; no square twice, so at most eight.
   */
  lemma ForkSquaresSpec(b: Board, to: string, f: int, r: int, mover: Color)
    requires ParseSquare(to) == Some((f, r))
    ensures |ForkSquares(b, to, mover)| <= 8
    ensures Distinct(ForkSquares(b, to, mover))
    ensures forall s :: s in ForkSquares(b, to, mover) ==>
      exists k :: 0 <= k < 8 && Hits(b, f, r, mover, KnightOffsets[k]) && s == JumpName(f, r, KnightOffsets[k])
    ensures forall k :: 0 <= k < 8 && Hits(b, f, r, mover, KnightOffsets[k]) ==>
      JumpName(f, r, KnightOffsets[k]) in ForkSquares(b, to, mover)
  {
    var t := ForkSquares(b, to, mover);
    assert t == Targets(b, f, r, mover, KnightOffsets);
    KnightOffsetsDistinct();
    TargetsLength(b, f, r, mover, KnightOffsets);
    TargetsMembers(b, f, r, mover, KnightOffsets);
    TargetsDistinct(b, f, r, mover, KnightOffsets);
    forall s | s in t
      ensures exists k :: 0 <= k < 8 && Hits(b, f, r, mover, KnightOffsets[k]) && s == JumpName(f, r, KnightOffsets[k])
    {
      assert HitBy(b, f, r, mover, KnightOffsets, s);
    }
    forall k | 0 <= k < 8 && Hits(b, f, r, mover, KnightOffsets[k])
      ensures JumpName(f, r, KnightOffsets[k]) in t
    {
      assert HitBy(b, f, r, mover, KnightOffsets, JumpName(f, r, KnightOffsets[k]));
    }
  }

  /**
   * The fork scan as the source runs it: one pass over the eight jumps that
   * counts and collects the attacked squares.
   */
  method ScanKnightAttacks(b: Board, to: string, mover: Color) returns (attackCount: nat, attackedSquares: seq<string>)
    ensures attackedSquares == ForkSquares(b, to, mover)
    ensures attackCount == |attackedSquares|
  {
    var current := ParseSquare(to);
    if current.None? {
      // every bounds test fails on the undefined coordinates
      return 0, [];
    }
    attackCount, attackedSquares := ScanFrom(b, current.value.0, current.value.1, mover, KnightOffsets);
  }

  /** The loop over the jumps from square (f, r). */
  method ScanFrom(b: Board, f: int, r: int, mover: Color, offs: seq<(int, int)>)
    returns (attackCount: nat, attackedSquares: seq<string>)
    ensures attackedSquares == Targets(b, f, r, mover, offs)
    ensures attackCount == |attackedSquares|
  {
    attackCount := 0;
    attackedSquares := [];
    var i := 0;
    while i < |offs|
      invariant 0 <= i <= |offs|
      invariant attackedSquares == Targets(b, f, r, mover, offs[..i])
      invariant attackCount == |attackedSquares|
    {
      var (df, dr) := offs[i];
      TargetsSnoc(b, f, r, mover, offs, i);
      var nf := f + df;
      var nr := r + dr;
      if nf >= 1 && nf <= 8 && nr >= 1 && nr <= 8 {
        var piece := At(b, nf, nr);
        if IsForkTarget(piece, mover) {
          attackCount := attackCount + 1;
          attackedSquares := attackedSquares + [SquareName(nf, nr)];
        }
      }
      i := i + 1;
    }
    assert offs[..i] == offs;
  }

  predicate IsCastling(move: MoveInfo) {
    Contains(move.san, "O-O")
  }

  predicate IsEnPassant(move: MoveInfo) {
    Contains(move.flags, "e")
  }

  predicate IsFork(after: Position, move: MoveInfo) {
    move.piece == Knight && |ForkSquares(after.board, move.to, move.color)| >= 2
  }

  predicate IsBigCapture(move: MoveInfo) {
    move.captured.Some? && PieceValue(move.captured.value) >= 5
  }

  /** One of the patterns that is returned as soon as it is found. */
  predicate HasPattern(after: Position, move: MoveInfo) {
    IsCastling(move) || move.promotion.Some? || IsEnPassant(move) || IsFork(after, move) || IsBigCapture(move)
  }

  /** The losing king's square on checkmate, or "" when the board has no such king. */
  function LosingKingSquare(after: Position, move: MoveInfo): string {
    match KingSquare(after.board, Opponent(move.color))
    case Some(s) => s
    case None => ""
  }

  /**
   * analyzeMoveTactics, with the order of precedence the code really has:
   * checkmate, castling, promotion, en passant, fork, big capture, and check
   * only when none of those applies.
   */
  function Analyze(after: Position, move: MoveInfo): (r: Option<TacticResult>)
    ensures after.isCheckmate ==> r == Some(TacticResult(Checkmate, [move.to, LosingKingSquare(after, move)]))
    ensures r.Some? ==> |r.value.squaresToHighlight| >= 1
    ensures r.None? <==> !after.isCheckmate && !after.inCheck && !HasPattern(after, move)
  {
    if after.isCheckmate then Some(TacticResult(Checkmate, [move.to, LosingKingSquare(after, move)]))
    else if IsCastling(move) then Some(TacticResult(Castling, [move.from, move.to]))
    else if move.promotion.Some? then Some(TacticResult(Promotion, [move.to]))
    else if IsEnPassant(move) then Some(TacticResult(EnPassant, [move.from, move.to]))
    else if IsFork(after, move) then Some(TacticResult(Fork, [move.to] + ForkSquares(after.board, move.to, move.color)))
    else if IsBigCapture(move) then Some(TacticResult(BigCapture, [move.to]))
    else if after.inCheck then Some(TacticResult(Check, [move.to]))
    else None
  }

  /** analyzeMoveTactics as written: a check is pushed on a list and only returned at the end. */
  method AnalyzeMoveTactics(after: Position, move: MoveInfo) returns (r: Option<TacticResult>)
    ensures r == Analyze(after, move)
  {
    var tactics: seq<TacticResult> := [];
    var to := move.to;
    var from := move.from;
    if after.isCheckmate {
      r := Some(TacticResult(Checkmate, [to, LosingKingSquare(after, move)]));
      return;
    }
    if after.inCheck {
      tactics := tactics + [TacticResult(Check, [to])];
    }
    if Contains(move.san, "O-O") {
      r := Some(TacticResult(Castling, [from, to]));
      return;
    }
    if move.promotion.Some? {
      r := Some(TacticResult(Promotion, [to]));
      return;
    }
    if Contains(move.flags, "e") {
      r := Some(TacticResult(EnPassant, [from, to]));
      return;
    }
    if move.piece == Knight {
      var attackCount, attackedSquares := ScanKnightAttacks(after.board, to, move.color);
      if attackCount >= 2 {
        r := Some(TacticResult(Fork, [to] + attackedSquares));
        return;
      }
    }
    if move.captured.Some? {
      var value := PieceValue(move.captured.value);
      if value >= 5 {
        r := Some(TacticResult(BigCapture, [to]));
        return;
      }
    }
    if |tactics| > 0 {
      r := Some(tactics[0]);
      return;
    }
    r := None;
  }

  /**
   * CHECK! is reported exactly when the position is check (not mate) and no
   * other pattern applies; in particular a checking knight fork is a FORK!.
   */
  lemma CheckIsLast(after: Position, move: MoveInfo)
    ensures (Analyze(after, move).Some? && Analyze(after, move).value.tactic == Check)
        <==> (after.inCheck && !after.isCheckmate && !HasPattern(after, move))
    ensures after.inCheck && !after.isCheckmate && !IsCastling(move) && move.promotion.None?
            && !IsEnPassant(move) && IsFork(after, move)
        ==> Analyze(after, move).value.tactic == Fork
  {
  }

  /** Castling is recognised by "O-O" in the SAN, which O-O-O contains too. */
  lemma CastlingCoversLong(san: string)
    requires Contains(san, "O-O-O")
    ensures Contains(san, "O-O")
  {
    var i :| OccursAt(san, "O-O-O", i);
    assert san[i..i + 3] == san[i..i + 5][..3];
    assert OccursAt(san, "O-O", i);
  }

  /** Castling beats every pattern but checkmate and highlights both squares of the king's move. */
  lemma CastlingPrecedence(after: Position, move: MoveInfo)
    requires !after.isCheckmate && IsCastling(move)
    ensures Analyze(after, move) == Some(TacticResult(Castling, [move.from, move.to]))
  {
  }

  /** Among the rest: promotion, then en passant (flag 'e'), then fork, then big capture. */
  lemma PatternPrecedence(after: Position, move: MoveInfo)
    requires !after.isCheckmate && !IsCastling(move)
    ensures move.promotion.Some? ==> Analyze(after, move) == Some(TacticResult(Promotion, [move.to]))
    ensures move.promotion.None? && IsEnPassant(move)
        ==> Analyze(after, move) == Some(TacticResult(EnPassant, [move.from, move.to]))
    ensures move.promotion.None? && !IsEnPassant(move) && IsFork(after, move)
        ==> Analyze(after, move).value.tactic == Fork
    ensures move.promotion.None? && !IsEnPassant(move) && !IsFork(after, move) && IsBigCapture(move)
        ==> Analyze(after, move) == Some(TacticResult(BigCapture, [move.to]))
  {
  }

  /**
   * FORK! is reported exactly when the earlier patterns do not apply, the
   * moved piece is a knight and at least two attacked squares hold opposing
   * king, queen, rook or bishop; `to` is highlighted, then those squares in
   * jump order.
   */
  lemma ForkReported(after: Position, move: MoveInfo)
    ensures (Analyze(after, move).Some? && Analyze(after, move).value.tactic == Fork)
        <==> (!after.isCheckmate && !IsCastling(move) && move.promotion.None? && !IsEnPassant(move)
              && move.piece == Knight && |ForkSquares(after.board, move.to, move.color)| >= 2)
    ensures Analyze(after, move).Some? && Analyze(after, move).value.tactic == Fork
        ==> Analyze(after, move).value.squaresToHighlight == [move.to] + ForkSquares(after.board, move.to, move.color)
  {
  }

  /**
   * BIG CAPTURE! needs a captured rook or queen (a king, never captured in a
   * legal game, would also qualify); pawn, knight and bishop captures are
   * never reported as such.
   */
  lemma BigCaptureReported(after: Position, move: MoveInfo)
    ensures (Analyze(after, move).Some? && Analyze(after, move).value.tactic == BigCapture)
        <==> (!after.isCheckmate && !IsCastling(move) && move.promotion.None? && !IsEnPassant(move)
              && !IsFork(after, move) && move.captured.Some? && move.captured.value in {Rook, Queen, King})
    ensures move.captured.Some? && move.captured.value in {Pawn, Knight, Bishop}
        ==> Analyze(after, move).None? || Analyze(after, move).value.tactic != BigCapture
  {
  }
}
