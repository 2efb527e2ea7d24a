/**
 * The beginner's guide of utils/gameExplanation.ts: the engine score as a
 * bar value from White's side, and a title, description and status for the
 * position after a move.
 */
module Explanation {
  import opened Types
  import opened Chess
  import opened Strings

  datatype Status = WhiteWinning | BlackWinning | Equal | Check | Mate

  datatype GameExplanation = GameExplanation(title: string, description: string, advantage: real, status: Status)

  /** The guide shown before the first move and after a reset. */
  const Opening: GameExplanation :=
    GameExplanation("게임 시작", "양측이 첫 수를 고민하고 있습니다.", 0.0, Equal)

  function Min(x: int, y: int): int { if x <= y then x else y }
  function Max(x: int, y: int): int { if x >= y then x else y }

  /**
   * calculateAdvantage: the engine's score is from the side to move; the bar
   * is from White's side, saturates at ten pawns and is scaled to -100..100.
   */
  function CalculateAdvantage(centipawns: int, turn: Color): (a: real)
    ensures -100.0 <= a <= 100.0
    ensures turn == White && -1000 <= centipawns <= 1000 ==> a * 10.0 == centipawns as real
    ensures turn == Black && -1000 <= centipawns <= 1000 ==> a * 10.0 == -centipawns as real
  {
    var absoluteScore := if turn == White then centipawns else -centipawns;
    var clamped := Max(-1000, Min(1000, absoluteScore));
    clamped as real / 10.0
  }

  /** The same score read from Black's move is the mirror image of White's. */
  lemma AdvantageMirrors(centipawns: int)
    ensures CalculateAdvantage(centipawns, Black) == -CalculateAdvantage(centipawns, White)
    ensures CalculateAdvantage(-centipawns, Black) == CalculateAdvantage(centipawns, White)
  {
  }

  /** A better score for White never moves the bar towards Black. */
  lemma AdvantageMonotone(c1: int, c2: int)
    requires c1 <= c2
    ensures CalculateAdvantage(c1, White) <= CalculateAdvantage(c2, White)
    ensures CalculateAdvantage(c1, Black) >= CalculateAdvantage(c2, Black)
  {
  }

  /** Ten pawns or more (the engine's mate score included) fill the bar. */
  lemma AdvantageSaturates(centipawns: int, turn: Color)
    requires centipawns >= 1000
    ensures CalculateAdvantage(centipawns, turn) == (if turn == White then 100.0 else -100.0)
  {
  }

  /** The Korean name of a side in the guide's sentences. */
  function ColorName(c: Color): string {
    match c
    case White => "백색"
    case Black => "흑색"
  }

  /** pieceNames of getBeginnerExplanation. */
  function PieceName(k: PieceType): string {
    match k
    case Pawn => "폰(병사)"
    case Knight => "나이트(기사)"
    case Bishop => "비숍(성직자)"
    case Rook => "룩(성)"
    case Queen => "퀸(여왕)"
    case King => "킹(왕)"
  }

  /** The status of a position that is neither mate, draw nor check. */
  function QuietStatus(advantage: real): Status {
    if advantage > 30.0 then WhiteWinning
    else if advantage < -30.0 then BlackWinning
    else Equal
  }

  function QuietTitle(advantage: real): string {
    if advantage > 30.0 then "백색이 유리합니다"
    else if advantage < -30.0 then "흑색이 유리합니다"
    else "박빙의 승부"
  }

  const QuietDescription: string := "양측이 신중하게 수를 두고 있습니다."
  const CastlingText: string := "캐슬링! 왕을 안전한 구석으로 피신시키고 룩을 중앙으로 배치했습니다."
  const PromotionText: string := "폰이 체스판 끝까지 도달하여 강력한 기물로 승진했습니다!"
  const WhitePressText: string := "백색이 강력한 공격으로 상대를 압박하고 있습니다."
  const BlackPressText: string := "흑색이 판을 장악하며 승기를 잡아가고 있습니다."

  function CaptureText(moved: PieceType, captured: PieceType): string {
    PieceName(moved) + "이(가) 상대방의 " + PieceName(captured) + "을(를) 잡았습니다! 중요한 기물 교환이 일어났습니다."
  }

  function RepositionText(moved: PieceType): string {
    PieceName(moved) + "이(가) 더 좋은 위치로 이동하여 기회를 엿보고 있습니다."
  }

  /** The sentence about the last move: capture, then castling, then promotion, then the position. */
  function MoveDescription(m: MoveInfo, advantage: real, status: Status): string {
    if m.captured.Some? then CaptureText(m.piece, m.captured.value)
    else if Contains(m.san, "O-O") then CastlingText
    else if m.promotion.Some? then PromotionText
    else if advantage > 50.0 && status == WhiteWinning then WhitePressText
    else if advantage < -50.0 && status == BlackWinning then BlackPressText
    else RepositionText(m.piece)
  }

  /**
   * getBeginnerExplanation for the position after a move: mate and draw
   * override the engine's bar, check keeps it, and otherwise the bar decides
   * who is better.
   */
  function Explain(pos: Position, lastMove: Option<MoveInfo>, advantage: real): (e: GameExplanation)
    ensures e.status == Mate <==> pos.isCheckmate
    ensures e.status == Check <==> !pos.isCheckmate && !pos.isDraw && pos.inCheck
    ensures pos.isCheckmate ==> e.advantage == (if pos.turn == White then -100.0 else 100.0)
    ensures !pos.isCheckmate && pos.isDraw ==> e.advantage == 0.0 && e.status == Equal
    ensures !pos.isCheckmate && !pos.isDraw ==> e.advantage == advantage
    ensures e.status == WhiteWinning ==> e.advantage > 30.0
    ensures e.status == BlackWinning ==> e.advantage < -30.0
  {
    if pos.isCheckmate then
      GameExplanation(
        "체크메이트! 게임 종료",
        ColorName(Opponent(pos.turn)) + "이(가) 승리했습니다. 왕이 더 이상 도망갈 곳이 없습니다.",
        if pos.turn == White then -100.0 else 100.0,
        Mate)
    else if pos.isDraw then
      GameExplanation("무승부", "더 이상 승부를 가릴 수 없는 상태입니다.", 0.0, Equal)
    else if pos.inCheck then
      GameExplanation(
        "왕이 위험합니다! (체크)",
        ColorName(pos.turn) + " 왕이 공격받고 있습니다. 반드시 피하거나 막아야 합니다!",
        advantage,
        Check)
    else
      var status := QuietStatus(advantage);
      var description := match lastMove
        case None => QuietDescription
        case Some(m) => MoveDescription(m, advantage, status);
      GameExplanation(QuietTitle(advantage), description, advantage, status)
  }

  /**
   * On mate the side that just moved (the one not to move) is named the
   * winner and the bar is pushed fully to its side.
   */
  lemma MateNamesMover(pos: Position, lastMove: Option<MoveInfo>, advantage: real)
    requires pos.isCheckmate
    ensures var e := Explain(pos, lastMove, advantage);
      && StartsWith(e.description, ColorName(Opponent(pos.turn)))
      && (Opponent(pos.turn) == White <==> e.advantage == 100.0)
  {
  }

  /**
   * In a quiet position the status and the bar agree: White is better
   * exactly above 30, Black exactly below -30, and the title says so.
   */
  lemma QuietStatusAgreesWithBar(pos: Position, lastMove: Option<MoveInfo>, advantage: real)
    requires !pos.isCheckmate && !pos.isDraw && !pos.inCheck
    ensures var e := Explain(pos, lastMove, advantage);
      && (e.status == WhiteWinning <==> advantage > 30.0)
      && (e.status == BlackWinning <==> advantage < -30.0)
      && (e.status == Equal <==> -30.0 <= advantage <= 30.0)
      && (e.status == WhiteWinning ==> e.title == "백색이 유리합니다")
      && (e.status == BlackWinning ==> e.title == "흑색이 유리합니다")
  {
  }

  /**
   * The move sentence: a capture is always described as a capture, castling
   * only when nothing was captured, a promotion only when there was neither,
   * and the pressing sentences only beyond half the bar, with the repositioning
   * sentence as the last resort; without a move the neutral sentence stays.
   */
  lemma DescriptionPrecedence(pos: Position, m: MoveInfo, advantage: real)
    requires !pos.isCheckmate && !pos.isDraw && !pos.inCheck
    ensures m.captured.Some? ==> Explain(pos, Some(m), advantage).description == CaptureText(m.piece, m.captured.value)
    ensures m.captured.None? && Contains(m.san, "O-O") ==> Explain(pos, Some(m), advantage).description == CastlingText
    ensures m.captured.None? && !Contains(m.san, "O-O") && m.promotion.Some? ==>
      Explain(pos, Some(m), advantage).description == PromotionText
    ensures m.captured.None? && !Contains(m.san, "O-O") && m.promotion.None? ==>
      Explain(pos, Some(m), advantage).description ==
        (if advantage > 50.0 then WhitePressText
         else if advantage < -50.0 then BlackPressText
         else RepositionText(m.piece))
    ensures Explain(pos, Some(m), advantage).description == WhitePressText ==> advantage > 50.0
    ensures Explain(pos, Some(m), advantage).description == BlackPressText ==> advantage < -50.0
    ensures Explain(pos, None, advantage).description == QuietDescription
  {
  }
}
