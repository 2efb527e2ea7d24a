/**
 * The match screen of components/GameView.tsx: one engine-driven turn
 * (makeMove), the avatars' temporary emotions, the match log, the board
 * highlights and the reset of the screen. Timers are pending events that
 * fire later; the delays themselves are not modelled.
 */
module Match {
  import opened Types
  import opened Chess
  import Strings
  import Constants
  import Tactics
  import Explanation
  import Dialogue
  import Engine

  // ----- Board highlights (lines 152-185) -----

  datatype Style = Style(backgroundColor: Option<string>, boxShadow: Option<string>, animation: Option<string>)

  const MoveHighlight: Style := Style(Some("rgba(255, 255, 0, 0.4)"), None, None)
  const CheckHighlight: Style :=
    Style(None, Some("inset 0 0 10px 4px rgba(220, 38, 38, 0.8)"), Some("pulse-red 1s infinite"))
  const TacticBackground: string := "rgba(255,255,255,0.2)"
  const TacticShadow: string := "inset 0 0 15px rgba(255, 255, 255, 0.8), 0 0 10px rgba(0,0,0,0.5)"

  function Lookup(styles: map<string, Style>, sq: string): Option<Style> {
    if sq in styles then Some(styles[sq]) else None
  }

  /** `{ ...styles[sq], boxShadow, backgroundColor }`: keeps the animation, overwrites the rest. */
  function Highlighted(prev: Option<Style>): (s: Style)
    ensures s.backgroundColor == Some(TacticBackground) && s.boxShadow == Some(TacticShadow)
    ensures s.animation == (if prev.Some? then prev.value.animation else None)
  {
    match prev
    case None => Style(Some(TacticBackground), Some(TacticShadow), None)
    case Some(p) => p.(backgroundColor := Some(TacticBackground), boxShadow := Some(TacticShadow))
  }

  /** Highlighting a square twice is highlighting it once. */
  lemma HighlightedIdempotent(prev: Option<Style>)
    ensures Highlighted(Some(Highlighted(prev))) == Highlighted(prev)
  {
  }

  /** The move's two squares, then the checked king's square replacing its entry. */
  function BaseStyles(m: MoveInfo, after: Position): map<string, Style> {
    var styles := map[m.from := MoveHighlight][m.to := MoveHighlight];
    if after.inCheck then
      match KingSquare(after.board, after.turn)
      case Some(k) => styles[k := CheckHighlight]
      case None => styles
    else styles
  }

  /** The tactic squares highlighted left to right over styles. */
  function WithTactic(styles: map<string, Style>, squares: seq<string>): map<string, Style>
    decreases |squares|
  {
    if squares == [] then styles
    else
      var prev := WithTactic(styles, squares[..|squares| - 1]);
      var sq := squares[|squares| - 1];
      prev[sq := Highlighted(Lookup(prev, sq))]
  }

  /** The style map a move leaves on the board. */
  function SquareStyles(m: MoveInfo, after: Position, tactic: Option<Tactics.TacticResult>): map<string, Style> {
    var base := BaseStyles(m, after);
    match tactic
    case None => base
    case Some(t) => WithTactic(base, t.squaresToHighlight)
  }

  /**
   * Highlighting the tactic squares adds exactly those squares, gives each
   * the tactic background and shadow on top of what it had (so an animation
   * stays), and leaves every other square as it was.
   */
  lemma {:induction false} WithTacticSpec(styles: map<string, Style>, squares: seq<string>)
    ensures WithTactic(styles, squares).Keys == styles.Keys + set s | s in squares
    ensures forall s :: s in squares ==> WithTactic(styles, squares)[s] == Highlighted(Lookup(styles, s))
    ensures forall s :: s in styles && s !in squares ==> WithTactic(styles, squares)[s] == styles[s]
    decreases |squares|
  {
    if squares != [] {
      var front := squares[..|squares| - 1];
      var sq := squares[|squares| - 1];
      WithTacticSpec(styles, front);
      var prev := WithTactic(styles, front);
      var now := WithTactic(styles, squares);
      assert now == prev[sq := Highlighted(Lookup(prev, sq))];
      assert forall s :: s in squares <==> s in front || s == sq;
      if sq in front {
        HighlightedIdempotent(Lookup(styles, sq));
      }
    }
  }

  /**
   * The highlight map of a move: the from and to squares, the checked king's
   * square when it is found, and the tactic squares, and no other square;
   * tactic squares carry the tactic look, the others their base style.
   */
  lemma SquareStylesSpec(m: MoveInfo, after: Position, tactic: Option<Tactics.TacticResult>)
    ensures var styles := SquareStyles(m, after, tactic);
      var king := if after.inCheck then KingSquare(after.board, after.turn) else None;
      var tacticSquares := if tactic.Some? then tactic.value.squaresToHighlight else [];
      && styles.Keys == {m.from, m.to} + (if king.Some? then {king.value} else {}) + (set s | s in tacticSquares)
      && (forall s :: s in tacticSquares ==>
            styles[s].backgroundColor == Some(TacticBackground) && styles[s].boxShadow == Some(TacticShadow))
      && (king.Some? ==> styles[king.value].animation == CheckHighlight.animation)
      && (forall s :: s in styles && s !in tacticSquares && (king.None? || s != king.value) ==> styles[s] == MoveHighlight)
  {
    var base := BaseStyles(m, after);
    var king := if after.inCheck then KingSquare(after.board, after.turn) else None;
    assert king.Some? ==> base[king.value] == CheckHighlight;
    assert base.Keys == {m.from, m.to} + (if king.Some? then {king.value} else {});
    match tactic
    case None =>
    case Some(t) =>
      WithTacticSpec(base, t.squaresToHighlight);
  }

  // ----- Engine answer and move application (lines 120-142) -----

  /** The engine's answer to a request, as makeMove sees it. */
  datatype Answer = Rejected | Waiting | NoMove | BestMove(move: string, evaluation: Engine.Score)

  function AnswerOf(hasWorker: bool, replies: seq<Engine.WorkerMessage>): (a: Answer)
    ensures a == Rejected <==> !hasWorker
    ensures hasWorker ==> (a == Waiting <==> Engine.Run(replies).Listening?)
  {
    if !hasWorker then Rejected
    else match Engine.Run(replies)
      case Listening(_) => Waiting
      case Resolved(mv, ev) => if mv.None? then NoMove else BestMove(mv.value, ev)
  }

  /** The request waits for ever exactly when no reply is a bestmove line. */
  lemma WaitingIffNoBestMove(replies: seq<Engine.WorkerMessage>)
    ensures AnswerOf(true, replies) == Waiting <==> forall i :: 0 <= i < |replies| ==> !Engine.IsBestMove(replies[i])
  {
    Engine.ResolvedIffBestMove(replies);
  }

  /**
   * A resolved answer is the first bestmove line's: no move when that line
   * has no second token, and otherwise that token with the score read from
   * the replies before it.
   */
  lemma AnswerOfFirstBestMove(replies: seq<Engine.WorkerMessage>, i: nat)
    requires i < |replies| && Engine.IsBestMove(replies[i])
    requires forall j :: 0 <= j < i ==> !Engine.IsBestMove(replies[j])
    ensures Engine.Run(replies[..i]).Listening?
    ensures AnswerOf(true, replies) == NoMove <==> Strings.Elem(Strings.Split(replies[i].text, ' '), 1).None?
    ensures Strings.Elem(Strings.Split(replies[i].text, ' '), 1).Some? ==>
      AnswerOf(true, replies) == BestMove(Strings.Elem(Strings.Split(replies[i].text, ' '), 1).value, Engine.Run(replies[..i]).lastScore)
  {
    assert replies == replies[..i] + [Engine.Text(replies[i].text)] + replies[i + 1..];
    Engine.FirstBestMoveDecides(replies[..i], replies[i].text, replies[i + 1..]);
  }

  /** Lines 130-133: from, to and the optional promotion letter of a UCI move string. */
  function ParseEngineMove(bestMove: string): (c: MoveConfig)
    ensures |bestMove| >= 4 ==> c.from == bestMove[..2] && c.to == bestMove[2..4]
    ensures c.promotion.Some? <==> |bestMove| > 4
    ensures |bestMove| > 4 ==> c.promotion.value == [bestMove[4]]
  {
    var from := Strings.Substring(bestMove, 0, 2);
    var to := Strings.Substring(bestMove, 2, 4);
    var promotion := if |bestMove| > 4 then Some(Strings.Substring(bestMove, 4, 5)) else None;
    MoveConfig(from, to, promotion)
  }

  /** How the engine writes a move: the two squares and the promotion letter, if any. */
  function UciString(c: MoveConfig): string {
    c.from + c.to + (if c.promotion.Some? then c.promotion.value else "")
  }

  /** Parsing reads back every move the engine writes. */
  lemma ParseEngineMoveRoundTrip(c: MoveConfig)
    requires |c.from| == 2 && |c.to| == 2 && (c.promotion.Some? ==> |c.promotion.value| == 1)
    ensures ParseEngineMove(UciString(c)) == c
  {
    var s := UciString(c);
    assert s[..2] == c.from;
    assert s[2..4] == c.to;
    if c.promotion.Some? {
      assert s[4..5] == c.promotion.value;
    }
  }

  /**
   * Lines 135-140: the object form first; only if that throws, the raw
   * string; a second throw is swallowed and leaves no move.
   */
  function ApplyTwoStage(bestMove: string, rules: MoveConfig -> MoveAttempt, bySan: string -> MoveAttempt): (r: MoveAttempt)
    ensures !r.Threw?
    ensures rules(ParseEngineMove(bestMove)).Moved? ==> r == rules(ParseEngineMove(bestMove))
    ensures rules(ParseEngineMove(bestMove)).ReturnedNull? ==> r == ReturnedNull
    ensures r.Moved? ==> r == rules(ParseEngineMove(bestMove)) || (rules(ParseEngineMove(bestMove)).Threw? && r == bySan(bestMove))
    ensures rules(ParseEngineMove(bestMove)).Threw? ==>
      r == (if bySan(bestMove).Threw? then ReturnedNull else bySan(bestMove))
  {
    var first := rules(ParseEngineMove(bestMove));
    if first.Threw? then
      var second := bySan(bestMove);
      if second.Threw? then ReturnedNull else second
    else first
  }

  /**
   * Lines 121-127 as run: the request to the engine and its answer, from
   * the worker's replies.
   */
  method AskEngine(hasWorker: bool, replies: seq<Engine.WorkerMessage>, fen: string, elo: int, contempt: int)
    returns (posted: seq<string>, answer: Answer)
    ensures answer == AnswerOf(hasWorker, replies)
    ensures posted == (if hasWorker then Engine.Commands(fen, elo, contempt) else [])
  {
    var request := Engine.GetBestMove(hasWorker, fen, elo, contempt);
    if request.Rejected? {
      return [], Rejected;
    }
    posted := request.commands;
    var resolved, bestMove, evaluation := Engine.ReadReplies(replies);
    if !resolved {
      answer := Waiting;
    } else if bestMove.None? {
      answer := NoMove;
    } else {
      answer := BestMove(bestMove.value, evaluation);
    }
  }

  /** Lines 130-140 as run on the copy of the game. */
  method ApplyEngineMove(bestMove: string, rules: MoveConfig -> MoveAttempt, bySan: string -> MoveAttempt)
    returns (moveResult: MoveAttempt)
    ensures moveResult == ApplyTwoStage(bestMove, rules, bySan)
  {
    var moveConfig := ParseEngineMove(bestMove);
    moveResult := rules(moveConfig);
    if moveResult.Threw? {
      moveResult := bySan(bestMove);
      if moveResult.Threw? {
        moveResult := ReturnedNull;
      }
    }
  }

  /**
   * Lines 121-140 as run: the request, the engine's answer and the move on
   * the copy of the game.
   */
  method FetchMove(hasWorker: bool, replies: seq<Engine.WorkerMessage>,
                   rules: MoveConfig -> MoveAttempt, bySan: string -> MoveAttempt,
                   fen: string, elo: int, contempt: int)
    returns (posted: seq<string>, waiting: bool, played: Option<(MoveInfo, Position, Engine.Score)>)
    ensures posted == (if hasWorker then Engine.Commands(fen, elo, contempt) else [])
    ensures waiting == (AnswerOf(hasWorker, replies) == Waiting)
    ensures played == Played(hasWorker, replies, rules, bySan)
  {
    var answer;
    posted, answer := AskEngine(hasWorker, replies, fen, elo, contempt);
    waiting := answer.Waiting?;
    played := None;
    if answer.BestMove? {
      var moveResult := ApplyEngineMove(answer.move, rules, bySan);
      if moveResult.Moved? {
        played := Some((moveResult.move, moveResult.after, answer.evaluation));
      }
    }
  }

  /** The applied move, the position after it and the engine's score, when the turn gets that far. */
  function Played(hasWorker: bool, replies: seq<Engine.WorkerMessage>,
                  rules: MoveConfig -> MoveAttempt, bySan: string -> MoveAttempt): Option<(MoveInfo, Position, Engine.Score)>
  {
    match AnswerOf(hasWorker, replies)
    case BestMove(mv, ev) =>
      (match ApplyTwoStage(mv, rules, bySan)
       case Moved(m, after) => Some((m, after, ev))
       case _ => None)
    case _ => None
  }

  /** A turn that applies a move had a worker and a bestmove reply. */
  lemma PlayedNeedsAnswer(hasWorker: bool, replies: seq<Engine.WorkerMessage>,
                          rules: MoveConfig -> MoveAttempt, bySan: string -> MoveAttempt)
    ensures Played(hasWorker, replies, rules, bySan).Some? ==>
      hasWorker && Engine.Run(replies).Resolved? && Engine.Run(replies).move.Some?
      && (exists i :: 0 <= i < |replies| && Engine.IsBestMove(replies[i]))
  {
    Engine.ResolvedIffBestMove(replies);
  }

  /** The score comes as a number, not NaN. */
  predicate NumericEvaluation(hasWorker: bool, replies: seq<Engine.WorkerMessage>) {
    AnswerOf(hasWorker, replies).BestMove? ==> AnswerOf(hasWorker, replies).evaluation.Centipawns?
  }

  // ----- Reactions and dialogue (lines 190-258) -----

  /** The situation of a move and the emotions of the side that moved and of its opponent. */
  datatype Reaction = Reaction(situation: Dialogue.Situation, attacker: Emotion, defender: Emotion)

  /**
   * Lines 196-220: checkmate, then check, then capture, then the opening
   * (fewer than six moves), else an outburst on a draw below 0.1.
   */
  function React(after: Position, m: MoveInfo, contempt: int, outburst: Dialogue.Unit): (r: Reaction)
    ensures after.isCheckmate ==> r == Reaction(Dialogue.Winning, Happy, Sad)
    ensures !after.isCheckmate && after.inCheck ==>
      r == Reaction(Dialogue.Check, if contempt > 20 then Angry else Happy, Fearful)
    ensures r.defender == Neutral <==> !after.isCheckmate && !after.inCheck && m.captured.None?
    ensures r.attacker == Neutral <==> r.situation in {Dialogue.Opening, Dialogue.Generic}
  {
    if after.isCheckmate then Reaction(Dialogue.Winning, Happy, Sad)
    else if after.inCheck then Reaction(Dialogue.Check, if contempt > 20 then Angry else Happy, Fearful)
    else if m.captured.Some? then Reaction(Dialogue.Capture, Happy, Anxious)
    else if after.historyLength < 6 then Reaction(Dialogue.Opening, Neutral, Neutral)
    else if outburst < 0.1 then
      (if contempt > 30 then Reaction(Dialogue.Angry, Angry, Neutral) else Reaction(Dialogue.Happy, Happy, Neutral))
    else Reaction(Dialogue.Generic, Neutral, Neutral)
  }

  /**
   * Captures make the mover happy and the opponent anxious; a quiet move
   * after the opening stays generic unless the draw is below 0.1, and then
   * the outburst is anger exactly for a contempt above 30.
   */
  lemma ReactQuiet(after: Position, m: MoveInfo, contempt: int, outburst: Dialogue.Unit)
    requires !after.isCheckmate && !after.inCheck
    ensures m.captured.Some? ==> React(after, m, contempt, outburst) == Reaction(Dialogue.Capture, Happy, Anxious)
    ensures m.captured.None? && after.historyLength < 6 ==> React(after, m, contempt, outburst).situation == Dialogue.Opening
    ensures m.captured.None? && after.historyLength >= 6 ==>
      (React(after, m, contempt, outburst).situation == Dialogue.Generic <==> outburst >= 0.1)
    ensures m.captured.None? && after.historyLength >= 6 && outburst < 0.1 ==>
      (React(after, m, contempt, outburst).attacker == Angry <==> contempt > 30)
  {
  }

  /** The dialogue key of an emotion. */
  function EmotionKey(e: Emotion): Dialogue.Situation {
    match e
    case Happy => Dialogue.Happy
    case Sad => Dialogue.Sad
    case Angry => Dialogue.Angry
    case Fearful => Dialogue.Fearful
    case Anxious => Dialogue.Anxious
    case Neutral => Dialogue.Generic
  }

  /** Lines 227-230: after check, capture or mate, a draw above 0.5 speaks the emotion instead. */
  function DialogueKey(r: Reaction, swap: Dialogue.Unit): (k: Dialogue.Situation) {
    if r.situation in {Dialogue.Check, Dialogue.Capture, Dialogue.Winning} && r.attacker != Neutral && swap > 0.5
    then EmotionKey(r.attacker)
    else r.situation
  }

  /**
   * The key is the situation, or the mover's emotion after check, capture
   * or mate on a draw above 0.5; it is never a key no one reacts with.
   */
  lemma DialogueKeySpec(after: Position, m: MoveInfo, contempt: int, outburst: Dialogue.Unit, swap: Dialogue.Unit)
    ensures var r := React(after, m, contempt, outburst);
      && (DialogueKey(r, swap) != r.situation <==>
            r.situation in {Dialogue.Check, Dialogue.Capture, Dialogue.Winning} && swap > 0.5)
      && (DialogueKey(r, swap) != r.situation ==> DialogueKey(r, swap) == EmotionKey(r.attacker) && r.attacker != Neutral)
  {
  }

  /** Line 246: the opponent answers only when it feels something and the draw is above 0.7. */
  predicate Reacts(r: Reaction, react: Dialogue.Unit) {
    r.defender != Neutral && react > 0.7
  }

  /** The random draws of one turn, in the roles the source uses them for. */
  datatype TurnDraws = TurnDraws(
    outburst: Dialogue.Unit,
    swap: Dialogue.Unit,
    speak: Dialogue.Draws,
    react: Dialogue.Unit,
    reply: Dialogue.Draws)

  /** A chat line waiting on its timer, with the delay it was scheduled with. */
  datatype PendingChat = PendingChat(delay: nat, entry: GameLogEntry)

  /** The chat lines scheduled by one turn, and whether the turn got past both generations. */
  datatype Talk = Talk(scheduled: seq<PendingChat>, completed: bool)

  /**
   * Lines 226-258: the mover's line after 500, the opponent's reply after
   * 1500, an empty line scheduling nothing; a generation that throws ends
   * the turn there.
   */
  function Converse(book: Dialogue.PhraseBook, mover: PlayerProfile, opponent: PlayerProfile, r: Reaction, d: TurnDraws): (t: Talk)
    ensures |t.scheduled| <= 2
    ensures forall i :: 0 <= i < |t.scheduled| ==> t.scheduled[i].entry.kind == ChatLog
    ensures |t.scheduled| == 2 ==> Reacts(r, d.react)
    ensures |t.scheduled| > 0 && t.scheduled[0].delay == 500 ==>
      t.scheduled[0].entry.playerId == mover.id && t.scheduled[0].entry.emotion == Some(r.attacker)
  {
    match Dialogue.Generate(book, mover.mbti, DialogueKey(r, d.swap), opponent.name, mover.relationship, d.speak)
    case None => Talk([], false)
    case Some(line) =>
      var first := if line != "" then [PendingChat(500, GameLogEntry(mover.id, line, ChatLog, Some(r.attacker)))] else [];
      if !Reacts(r, d.react) then Talk(first, true)
      else
        match Dialogue.Generate(book, opponent.mbti, EmotionKey(r.defender), mover.name, opponent.relationship, d.reply)
        case None => Talk(first, false)
        case Some(reply) =>
          Talk(first + (if reply != "" then [PendingChat(1500, GameLogEntry(opponent.id, reply, ChatLog, Some(r.defender)))] else []), true)
  }

  /**
   * What the conversation says: the mover's line at 500 is the generated
   * line for the dialogue key, addressed to the opponent; the reply at 1500
   * exists only when the opponent reacts and is the generated line for its
   * emotion, addressed to the mover; a silent answer schedules nothing, and
   * the turn stops exactly when a generation that runs throws.
   */
  lemma ConverseSpec(book: Dialogue.PhraseBook, mover: PlayerProfile, opponent: PlayerProfile, r: Reaction, d: TurnDraws)
    ensures var t := Converse(book, mover, opponent, r, d);
      var speech := Dialogue.Generate(book, mover.mbti, DialogueKey(r, d.swap), opponent.name, mover.relationship, d.speak);
      var answer := Dialogue.Generate(book, opponent.mbti, EmotionKey(r.defender), mover.name, opponent.relationship, d.reply);
      && (forall i :: 0 <= i < |t.scheduled| ==> t.scheduled[i].delay == 500 || t.scheduled[i].delay == 1500)
      && (forall i :: 0 <= i < |t.scheduled| && t.scheduled[i].delay == 500 ==>
            i == 0 && speech.Some? && t.scheduled[i].entry == GameLogEntry(mover.id, speech.value, ChatLog, Some(r.attacker)))
      && (forall i :: 0 <= i < |t.scheduled| && t.scheduled[i].delay == 1500 ==>
            i == |t.scheduled| - 1 && speech.Some? && Reacts(r, d.react) && answer.Some?
            && t.scheduled[i].entry == GameLogEntry(opponent.id, answer.value, ChatLog, Some(r.defender)))
      && (|t.scheduled| > 0 && t.scheduled[0].delay == 500 <==> speech.Some? && speech.value != "")
      && (|t.scheduled| > 0 && t.scheduled[|t.scheduled| - 1].delay == 1500 <==>
            speech.Some? && Reacts(r, d.react) && answer.Some? && answer.value != "")
      && (!t.completed <==> speech.None? || (Reacts(r, d.react) && answer.None?))
  {
    var t := Converse(book, mover, opponent, r, d);
    var speech := Dialogue.Generate(book, mover.mbti, DialogueKey(r, d.swap), opponent.name, mover.relationship, d.speak);
    var answer := Dialogue.Generate(book, opponent.mbti, EmotionKey(r.defender), mover.name, opponent.relationship, d.reply);
    if speech.Some? {
      var first := if speech.value != "" then [PendingChat(500, GameLogEntry(mover.id, speech.value, ChatLog, Some(r.attacker)))] else [];
      if Reacts(r, d.react) && answer.Some? {
        var second := if answer.value != "" then [PendingChat(1500, GameLogEntry(opponent.id, answer.value, ChatLog, Some(r.defender)))] else [];
        assert t == Talk(first + second, true);
      } else {
        assert t.scheduled == first;
      }
    } else {
      assert t == Talk([], false);
    }
  }

  // ----- Log lines (lines 188, 260-267) -----

  /** The move's SAN, followed by the tactic's label in brackets when there is one. */
  function MoveLogText(m: MoveInfo, tactic: Option<Tactics.TacticResult>): (s: string)
    ensures Strings.StartsWith(s, m.san)
    ensures tactic.None? ==> s == m.san
    ensures tactic.Some? ==> s[|m.san|..] == " [" + Tactics.Name(tactic.value.tactic) + "]"
  {
    m.san + (if tactic.Some? then " [" + Tactics.Name(tactic.value.tactic) + "]" else "")
  }

  /** The closing message: the mover's win by mate, then a draw, then a plain game over. */
  function GameOverText(after: Position, mover: PlayerProfile): string {
    if after.isCheckmate then mover.name + " 승리 (체크메이트)"
    else if after.isDraw then "무승부"
    else "게임 종료"
  }

  /**
   * The mate message names the mover and no other message does; draw and
   * plain game over are told apart.
   */
  lemma GameOverTextSpec(after: Position, mover: PlayerProfile)
    ensures after.isCheckmate <==>
      Strings.StartsWith(GameOverText(after, mover), mover.name) && GameOverText(after, mover)[|mover.name|..] == " 승리 (체크메이트)"
    ensures !after.isCheckmate && after.isDraw ==> GameOverText(after, mover) == "무승부"
    ensures !after.isCheckmate && !after.isDraw ==> GameOverText(after, mover) == "게임 종료"
  {
    var t := GameOverText(after, mover);
    if !after.isCheckmate && Strings.StartsWith(t, mover.name) {
      assert |t| < |mover.name| + |" 승리 (체크메이트)"|;
    }
  }

  /** advantagePercent (line 296): the bar's fill, 50 at equality. */
  function AdvantagePercent(advantage: real): (p: real)
    ensures 0.0 <= p <= 100.0
    ensures -50.0 <= advantage <= 50.0 ==> p == 50.0 + advantage
    ensures advantage >= 50.0 ==> p == 100.0
    ensures advantage <= -50.0 ==> p == 0.0
  {
    var shifted := 50.0 + advantage;
    var low := if shifted >= 0.0 then shifted else 0.0;
    if low <= 100.0 then low else 100.0
  }

  /** A mate empties or fills the bar towards the winner; a draw centres it. */
  lemma BarAfterMoveSpec(after: Position, m: MoveInfo, advantage: real)
    ensures after.isCheckmate ==>
      AdvantagePercent(Explanation.Explain(after, Some(m), advantage).advantage) == (if after.turn == White then 0.0 else 100.0)
    ensures !after.isCheckmate && after.isDraw ==>
      AdvantagePercent(Explanation.Explain(after, Some(m), advantage).advantage) == 50.0
  {
  }

  // ----- The screen as a value -----

  /** Every state cell of the match screen (timers as pending flags and chat lines). */
  datatype Screen = Screen(
    game: Position,
    currentFen: string,
    isPlaying: bool,
    processing: bool,
    logs: seq<GameLogEntry>,
    tacticAlert: Option<Tactics.TacticResult>,
    squareStyles: map<string, Style>,
    explanation: Explanation.GameExplanation,
    whiteEmotion: Emotion,
    blackEmotion: Emotion,
    /** A timer that sets the emotion back to neutral is pending. */
    whiteRevertPending: bool,
    blackRevertPending: bool,
    /** A timer that clears the tactic banner is pending. */
    tacticClearPending: bool,
    chats: seq<PendingChat>)

  /**
   * The board text matches the game (or is the "start" placeholder of a
   * fresh game); no avatar keeps an emotion and the banner no tactic without
   * a timer to clear it; only chat lines wait on timers.
   */
  predicate Invariant(s: Screen) {
    && (s.currentFen == "start" || s.currentFen == s.game.fen)
    && (s.whiteEmotion != Neutral ==> s.whiteRevertPending)
    && (s.blackEmotion != Neutral ==> s.blackRevertPending)
    && (s.tacticAlert.Some? ==> s.tacticClearPending)
    && (forall i :: 0 <= i < |s.chats| ==> s.chats[i].entry.kind == ChatLog)
  }

  function EmotionOf(s: Screen, c: Color): Emotion {
    if c == White then s.whiteEmotion else s.blackEmotion
  }

  function RevertPending(s: Screen, c: Color): bool {
    if c == White then s.whiteRevertPending else s.blackRevertPending
  }

  /** Line 111: a turn does nothing once over, while paused or while one is running. */
  predicate Blocked(s: Screen) {
    s.game.isGameOver || s.game.isDraw || !s.isPlaying || s.processing
  }

  /** The state before the first render's effect: a fresh game, paused, nothing pending. */
  const Initial: Screen :=
    Screen(StartPosition(), "start", false, false, [], None, map[], Explanation.Opening,
           Neutral, Neutral, false, false, false, [])

  /**
   * The reset effect (lines 73-95): a fresh game, paused, with an empty log
   * and board; the emotion timers are cancelled, but a pending banner clear
   * and pending chat lines are not.
   */
  function ResetScreen(s: Screen): (t: Screen)
    ensures Invariant(s) ==> Invariant(t)
    ensures t.game == StartPosition() && t.currentFen == "start" && !t.isPlaying && !t.processing
    ensures t.logs == [] && t.tacticAlert.None? && t.squareStyles == map[] && t.explanation == Explanation.Opening
    ensures EmotionOf(t, White) == Neutral && EmotionOf(t, Black) == Neutral
    ensures !RevertPending(t, White) && !RevertPending(t, Black)
    ensures t.tacticClearPending == s.tacticClearPending && t.chats == s.chats
  {
    Screen(StartPosition(), "start", false, false, [], None, map[], Explanation.Opening,
           Neutral, Neutral, false, false, s.tacticClearPending, s.chats)
  }

  /**
   * triggerEmotion (lines 98-108): the colour shows the emotion and its one
   * pending revert replaces any earlier one; the other colour is untouched.
   */
  function Triggered(s: Screen, c: Color, e: Emotion): (t: Screen)
    ensures Invariant(s) ==> Invariant(t)
    ensures EmotionOf(t, c) == e && RevertPending(t, c)
    ensures EmotionOf(t, Opponent(c)) == EmotionOf(s, Opponent(c))
    ensures RevertPending(t, Opponent(c)) == RevertPending(s, Opponent(c))
    ensures t == s.(whiteEmotion := t.whiteEmotion, blackEmotion := t.blackEmotion,
                    whiteRevertPending := t.whiteRevertPending, blackRevertPending := t.blackRevertPending)
  {
    if c == White then s.(whiteEmotion := e, whiteRevertPending := true)
    else s.(blackEmotion := e, blackRevertPending := true)
  }

  /** A revert timer fires (line 104): the colour is neutral again. */
  function Reverted(s: Screen, c: Color): (t: Screen)
    ensures Invariant(s) ==> Invariant(t)
    ensures EmotionOf(t, c) == Neutral && !RevertPending(t, c)
    ensures EmotionOf(t, Opponent(c)) == EmotionOf(s, Opponent(c))
    ensures RevertPending(t, Opponent(c)) == RevertPending(s, Opponent(c))
  {
    if c == White then s.(whiteEmotion := Neutral, whiteRevertPending := false)
    else s.(blackEmotion := Neutral, blackRevertPending := false)
  }

  /** The banner timer fires (line 182). */
  function Cleared(s: Screen): (t: Screen)
    ensures Invariant(s) ==> Invariant(t)
    ensures t.tacticAlert.None? && !t.tacticClearPending
  {
    s.(tacticAlert := None, tacticClearPending := false)
  }

  /** addLog (lines 55-64): one entry at the end, nothing else changes. */
  function Logged(s: Screen, entry: GameLogEntry): (t: Screen)
    ensures Invariant(s) ==> Invariant(t)
    ensures t.logs == s.logs + [entry] && t == s.(logs := t.logs)
  {
    s.(logs := s.logs + [entry])
  }

  /** The timer of pending chat line i fires: the line joins the log and leaves the queue. */
  function Posted(s: Screen, i: nat): (t: Screen)
    requires i < |s.chats|
    ensures Invariant(s) ==> Invariant(t) && s.chats[i].entry.kind == ChatLog
    ensures t.logs == s.logs + [s.chats[i].entry]
    ensures |t.chats| == |s.chats| - 1
    ensures multiset(t.chats) + multiset{s.chats[i]} == multiset(s.chats)
  {
    assert s.chats == s.chats[..i] + [s.chats[i]] + s.chats[i + 1..];
    s.(logs := s.logs + [s.chats[i].entry], chats := s.chats[..i] + s.chats[i + 1..])
  }

  /**
   * Lines 143-185 for an applied move: the guide for the new position, the
   * tactic banner (whose clear timer is restarted) and the highlights.
   */
  function Guided(s: Screen, m: MoveInfo, after: Position, centipawns: int, turn: Color,
                  tactic: Option<Tactics.TacticResult>): (t: Screen)
    ensures Invariant(s) ==> Invariant(t)
    ensures t.explanation == Explanation.Explain(after, Some(m), Explanation.CalculateAdvantage(centipawns, turn))
    ensures t.squareStyles == SquareStyles(m, after, tactic)
    ensures tactic.Some? ==> t.tacticAlert == tactic && t.tacticClearPending
    ensures tactic.None? ==> t.tacticAlert == s.tacticAlert && t.tacticClearPending == s.tacticClearPending
    ensures t == s.(explanation := t.explanation, squareStyles := t.squareStyles,
                    tacticAlert := t.tacticAlert, tacticClearPending := t.tacticClearPending)
  {
    s.(explanation := Explanation.Explain(after, Some(m), Explanation.CalculateAdvantage(centipawns, turn)),
       squareStyles := SquareStyles(m, after, tactic),
       tacticAlert := if tactic.Some? then tactic else s.tacticAlert,
       tacticClearPending := tactic.Some? || s.tacticClearPending)
  }

  /** Lines 187-188: the copy becomes the game and the move is logged under the mover. */
  function Placed(s: Screen, m: MoveInfo, after: Position, mover: PlayerProfile, tactic: Option<Tactics.TacticResult>): (t: Screen)
    ensures Invariant(s) ==> Invariant(t)
    ensures t.game == after && t.currentFen == after.fen
    ensures t.logs == s.logs + [GameLogEntry(mover.id, MoveLogText(m, tactic), MoveLog, None)]
    ensures t == s.(game := after, currentFen := after.fen, logs := t.logs)
  {
    s.(game := after, currentFen := after.fen, logs := s.logs + [GameLogEntry(mover.id, MoveLogText(m, tactic), MoveLog, None)])
  }

  /** Lines 223-224: the mover's emotion, then the opponent's; a neutral one triggers nothing. */
  function Emoted(s: Screen, turn: Color, r: Reaction): (t: Screen)
    ensures Invariant(s) ==> Invariant(t)
    ensures EmotionOf(t, turn) == (if r.attacker != Neutral then r.attacker else EmotionOf(s, turn))
    ensures EmotionOf(t, Opponent(turn)) == (if r.defender != Neutral then r.defender else EmotionOf(s, Opponent(turn)))
    ensures RevertPending(t, turn) == (r.attacker != Neutral || RevertPending(s, turn))
    ensures RevertPending(t, Opponent(turn)) == (r.defender != Neutral || RevertPending(s, Opponent(turn)))
    ensures t == s.(whiteEmotion := t.whiteEmotion, blackEmotion := t.blackEmotion,
                    whiteRevertPending := t.whiteRevertPending, blackRevertPending := t.blackRevertPending)
  {
    var s1 := if r.attacker != Neutral then Triggered(s, turn, r.attacker) else s;
    if r.defender != Neutral then Triggered(s1, Opponent(turn), r.defender) else s1
  }

  /** The chat lines of the turn join the queue of pending lines. */
  function Scheduled(s: Screen, talk: Talk): (t: Screen)
    ensures Invariant(s) && (forall i :: 0 <= i < |talk.scheduled| ==> talk.scheduled[i].entry.kind == ChatLog) ==> Invariant(t)
    ensures t.chats == s.chats + talk.scheduled && t == s.(chats := t.chats)
  {
    s.(chats := s.chats + talk.scheduled)
  }

  /** The closing message of lines 260-266, as its own log entry. */
  function GameOverEntry(after: Position, mover: PlayerProfile): GameLogEntry {
    GameLogEntry("system", GameOverText(after, mover), SystemLog, None)
  }

  /**
   * Lines 260-266, reached only when the dialogue did not throw: a finished
   * game stops playing and says how it ended.
   */
  function Closed(s: Screen, after: Position, mover: PlayerProfile, reached: bool): (t: Screen)
    ensures Invariant(s) ==> Invariant(t)
    ensures t.isPlaying == (s.isPlaying && !(reached && after.isGameOver))
    ensures t.logs == s.logs + (if reached && after.isGameOver then [GameOverEntry(after, mover)] else [])
    ensures t == s.(isPlaying := t.isPlaying, logs := t.logs)
  {
    if reached && after.isGameOver then s.(isPlaying := false, logs := s.logs + [GameOverEntry(after, mover)])
    else s
  }

  function MoverOf(s: Screen, white: PlayerProfile, black: PlayerProfile): PlayerProfile {
    if s.game.turn == White then white else black
  }

  function WaiterOf(s: Screen, white: PlayerProfile, black: PlayerProfile): PlayerProfile {
    if s.game.turn == White then black else white
  }

  /** Lines 143-267 once the copy holds the move: show it, react, talk, and close a finished game. */
  function AfterMove(s: Screen, white: PlayerProfile, black: PlayerProfile, book: Dialogue.PhraseBook,
                     m: MoveInfo, after: Position, centipawns: int, d: TurnDraws): Screen
  {
    var turn := s.game.turn;
    var mover := MoverOf(s, white, black);
    var r := React(after, m, Constants.Traits(mover.mbti).contempt, d.outburst);
    var talk := Converse(book, mover, WaiterOf(s, white, black), r, d);
    var tactic := Tactics.Analyze(after, m);
    var shown := Placed(Guided(s, m, after, centipawns, turn, tactic), m, after, mover, tactic);
    Closed(Scheduled(Emoted(shown, turn, r), talk), after, mover, talk.completed)
  }

  /** The new screen and the commands sent to the engine. */
  datatype TurnResult = TurnResult(screen: Screen, posted: seq<string>)

  /**
   * makeMove (lines 110-274): `replies` are the worker's messages after the
   * request, `rules` and `bySan` the rules library's answers for the copy
   * of the game, `d` the random draws.
   */
  function AfterTurn(s: Screen, white: PlayerProfile, black: PlayerProfile, book: Dialogue.PhraseBook,
                     hasWorker: bool, replies: seq<Engine.WorkerMessage>,
                     rules: MoveConfig -> MoveAttempt, bySan: string -> MoveAttempt, d: TurnDraws): TurnResult
    requires NumericEvaluation(hasWorker, replies)
  {
    if Blocked(s) then TurnResult(s, [])
    else
      var mover := MoverOf(s, white, black);
      var posted := if hasWorker then Engine.Commands(s.game.fen, mover.elo, Constants.Traits(mover.mbti).contempt) else [];
      if AnswerOf(hasWorker, replies) == Waiting then TurnResult(s.(processing := true), posted)
      else match Played(hasWorker, replies, rules, bySan)
        case None => TurnResult(s, posted)
        case Some((m, after, ev)) => TurnResult(AfterMove(s, white, black, book, m, after, ev.cp, d), posted)
  }

  /** A turn keeps the screen's invariant. */
  lemma AfterTurnInvariant(s: Screen, white: PlayerProfile, black: PlayerProfile, book: Dialogue.PhraseBook,
                           hasWorker: bool, replies: seq<Engine.WorkerMessage>,
                           rules: MoveConfig -> MoveAttempt, bySan: string -> MoveAttempt, d: TurnDraws)
    requires NumericEvaluation(hasWorker, replies)
    requires Invariant(s)
    ensures Invariant(AfterTurn(s, white, black, book, hasWorker, replies, rules, bySan, d).screen)
  {
  }

  /**
   * A blocked turn changes nothing and sends nothing; otherwise the
   * commands go out exactly when there is a worker, and the turn is left in
   * progress exactly when no bestmove line ever arrives.
   */
  lemma AfterTurnEngine(s: Screen, white: PlayerProfile, black: PlayerProfile, book: Dialogue.PhraseBook,
                        hasWorker: bool, replies: seq<Engine.WorkerMessage>,
                        rules: MoveConfig -> MoveAttempt, bySan: string -> MoveAttempt, d: TurnDraws)
    requires NumericEvaluation(hasWorker, replies)
    ensures var t := AfterTurn(s, white, black, book, hasWorker, replies, rules, bySan, d);
      && (Blocked(s) ==> t == TurnResult(s, []))
      && (!Blocked(s) ==> (t.posted != [] <==> hasWorker))
      && (!Blocked(s) && hasWorker ==>
            t.posted == Engine.Commands(s.game.fen, MoverOf(s, white, black).elo,
                                        Constants.Traits(MoverOf(s, white, black).mbti).contempt))
      && (!Blocked(s) ==> (t.screen.processing <==>
            hasWorker && forall i :: 0 <= i < |replies| ==> !Engine.IsBestMove(replies[i])))
  {
    WaitingIffNoBestMove(replies);
  }

  /** When no move is applied, only the in-progress flag can differ. */
  lemma AfterTurnNoMove(s: Screen, white: PlayerProfile, black: PlayerProfile, book: Dialogue.PhraseBook,
                        hasWorker: bool, replies: seq<Engine.WorkerMessage>,
                        rules: MoveConfig -> MoveAttempt, bySan: string -> MoveAttempt, d: TurnDraws)
    requires NumericEvaluation(hasWorker, replies)
    requires Played(hasWorker, replies, rules, bySan).None?
    ensures AfterTurn(s, white, black, book, hasWorker, replies, rules, bySan, d).screen.(processing := s.processing) == s
  {
  }

  /**
   * An applied move: the game and board text follow it, the guide explains
   * it with the engine's score, the highlights and the banner show its
   * tactic, both sides' emotions are triggered as the reaction says, the
   * conversation is queued, the move is logged under the mover and, when
   * the conversation went through and the game is over, play stops with the
   * closing message as the last entry.
   */
  lemma AfterTurnMove(s: Screen, white: PlayerProfile, black: PlayerProfile, book: Dialogue.PhraseBook,
                      hasWorker: bool, replies: seq<Engine.WorkerMessage>,
                      rules: MoveConfig -> MoveAttempt, bySan: string -> MoveAttempt, d: TurnDraws)
    requires NumericEvaluation(hasWorker, replies)
    requires !Blocked(s) && Played(hasWorker, replies, rules, bySan).Some?
    ensures
      var t := AfterTurn(s, white, black, book, hasWorker, replies, rules, bySan, d).screen;
      var (m, after, ev) := Played(hasWorker, replies, rules, bySan).value;
      var turn := s.game.turn;
      var mover := MoverOf(s, white, black);
      var tactic := Tactics.Analyze(after, m);
      var r := React(after, m, Constants.Traits(mover.mbti).contempt, d.outburst);
      var talk := Converse(book, mover, WaiterOf(s, white, black), r, d);
      var over := talk.completed && after.isGameOver;
      && t.game == after && t.currentFen == after.fen && !t.processing
      && t.explanation == Explanation.Explain(after, Some(m), Explanation.CalculateAdvantage(ev.cp, turn))
      && t.squareStyles == SquareStyles(m, after, tactic)
      && t.tacticAlert == (if tactic.Some? then tactic else s.tacticAlert)
      && EmotionOf(t, turn) == (if r.attacker != Neutral then r.attacker else EmotionOf(s, turn))
      && EmotionOf(t, Opponent(turn)) == (if r.defender != Neutral then r.defender else EmotionOf(s, Opponent(turn)))
      && t.chats == s.chats + talk.scheduled
      && t.logs == s.logs + [GameLogEntry(mover.id, MoveLogText(m, tactic), MoveLog, None)]
                   + (if over then [GameOverEntry(after, mover)] else [])
      && t.isPlaying == !over
  {
    var (m, after, ev) := Played(hasWorker, replies, rules, bySan).value;
    assert AfterTurn(s, white, black, book, hasWorker, replies, rules, bySan, d).screen
      == AfterMove(s, white, black, book, m, after, ev.cp, d);
  }

  /** A turn never rewrites the log: it appends at most the move and the closing message. */
  lemma AfterTurnLogGrows(s: Screen, white: PlayerProfile, black: PlayerProfile, book: Dialogue.PhraseBook,
                                  hasWorker: bool, replies: seq<Engine.WorkerMessage>,
                                  rules: MoveConfig -> MoveAttempt, bySan: string -> MoveAttempt, d: TurnDraws)
    requires NumericEvaluation(hasWorker, replies)
    ensures var t := AfterTurn(s, white, black, book, hasWorker, replies, rules, bySan, d).screen;
      && |s.logs| <= |t.logs| && t.logs[..|s.logs|] == s.logs
      && |t.logs| <= |s.logs| + 2
  {
    if !Blocked(s) && Played(hasWorker, replies, rules, bySan).Some? {
      AfterTurnMove(s, white, black, book, hasWorker, replies, rules, bySan, d);
    } else if Played(hasWorker, replies, rules, bySan).None? {
      AfterTurnNoMove(s, white, black, book, hasWorker, replies, rules, bySan, d);
    }
  }

  // ----- The screen as the component holds it -----

  class GameView {
    const white: PlayerProfile
    const black: PlayerProfile
    const book: Dialogue.PhraseBook

    var game: Position
    var currentFen: string
    var isPlaying: bool
    var processing: bool
    var logs: seq<GameLogEntry>
    var tacticAlert: Option<Tactics.TacticResult>
    var squareStyles: map<string, Style>
    var explanation: Explanation.GameExplanation
    var whiteEmotion: Emotion
    var blackEmotion: Emotion
    var whiteRevertPending: bool
    var blackRevertPending: bool
    var tacticClearPending: bool
    var chats: seq<PendingChat>

    /** The screen's state cells as one value. */
    function State(): Screen
      reads this
    {
      Screen(game, currentFen, isPlaying, processing, logs, tacticAlert, squareStyles, explanation,
             whiteEmotion, blackEmotion, whiteRevertPending, blackRevertPending, tacticClearPending, chats)
    }

    predicate Valid()
      reads this
    {
      Invariant(State())
    }

    /** The state the screen starts in; no timer is pending yet. */
    constructor (white: PlayerProfile, black: PlayerProfile, book: Dialogue.PhraseBook)
      ensures Valid()
      ensures this.white == white && this.black == black && this.book == book
      ensures State() == Initial
    {
      this.white := white;
      this.black := black;
      this.book := book;
      game := StartPosition();
      currentFen := "start";
      isPlaying := false;
      processing := false;
      logs := [];
      tacticAlert := None;
      squareStyles := map[];
      explanation := Explanation.Opening;
      whiteEmotion := Neutral;
      blackEmotion := Neutral;
      whiteRevertPending := false;
      blackRevertPending := false;
      tacticClearPending := false;
      chats := [];
    }

    /** The reset effect (lines 73-95). */
    method Reset()
      requires Valid()
      modifies this
      ensures Valid()
      ensures State() == ResetScreen(old(State()))
    {
      game := StartPosition();
      currentFen := "start";
      logs := [];
      isPlaying := false;
      tacticAlert := None;
      squareStyles := map[];
      explanation := Explanation.Opening;
      whiteEmotion := Neutral;
      blackEmotion := Neutral;
      whiteRevertPending := false;
      blackRevertPending := false;
      processing := false;
    }

    /** The start button (line 552). */
    method Play()
      requires Valid()
      modifies this`isPlaying
      ensures Valid()
      ensures State() == old(State()).(isPlaying := true)
    {
      isPlaying := true;
    }

    /** The pause button (line 556). */
    method Pause()
      requires Valid()
      modifies this`isPlaying
      ensures Valid()
      ensures State() == old(State()).(isPlaying := false)
    {
      isPlaying := false;
    }

    /** addLog (lines 55-64). */
    method AddLog(playerId: string, message: string, kind: LogKind, emotion: Option<Emotion>)
      modifies this`logs
      ensures State() == Logged(old(State()), GameLogEntry(playerId, message, kind, emotion))
    {
      logs := logs + [GameLogEntry(playerId, message, kind, emotion)];
    }

    /** triggerEmotion (lines 98-108). */
    method TriggerEmotion(c: Color, e: Emotion)
      requires Valid()
      modifies this`whiteEmotion, this`blackEmotion, this`whiteRevertPending, this`blackRevertPending
      ensures Valid()
      ensures State() == Triggered(old(State()), c, e)
    {
      if c == White {
        whiteEmotion := e;
        whiteRevertPending := true;
      } else {
        blackEmotion := e;
        blackRevertPending := true;
      }
    }

    /** The revert timer of a colour fires. */
    method RevertEmotion(c: Color)
      requires Valid() && RevertPending(State(), c)
      modifies this`whiteEmotion, this`blackEmotion, this`whiteRevertPending, this`blackRevertPending
      ensures Valid()
      ensures State() == Reverted(old(State()), c)
    {
      if c == White {
        whiteEmotion := Neutral;
        whiteRevertPending := false;
      } else {
        blackEmotion := Neutral;
        blackRevertPending := false;
      }
    }

    /** The banner timer fires. */
    method ClearTactic()
      requires Valid() && tacticClearPending
      modifies this`tacticAlert, this`tacticClearPending
      ensures Valid()
      ensures State() == Cleared(old(State()))
    {
      tacticAlert := None;
      tacticClearPending := false;
    }

    /** The timer of pending chat line i fires. */
    method PostChat(i: nat)
      requires Valid() && i < |chats|
      modifies this`logs, this`chats
      ensures Valid()
      ensures State() == Posted(old(State()), i)
    {
      logs := logs + [chats[i].entry];
      chats := chats[..i] + chats[i + 1..];
    }

    /** Lines 143-185: the guide, the tactic banner and the highlights. */
    method ShowMove(m: MoveInfo, after: Position, centipawns: int, turn: Color, tactic: Option<Tactics.TacticResult>)
      requires Valid()
      modifies this`explanation, this`tacticAlert, this`tacticClearPending, this`squareStyles
      ensures Valid()
      ensures State() == Guided(old(State()), m, after, centipawns, turn, tactic)
    {
      var advantage := Explanation.CalculateAdvantage(centipawns, turn);
      var guide := Explanation.Explain(after, Some(m), advantage);
      var newSquareStyles := PaintSquares(m, after, tactic);
      ghost var t := Guided(State(), m, after, centipawns, turn, tactic);
      explanation := guide;
      squareStyles := newSquareStyles;
      tacticAlert := if tactic.Some? then tactic else tacticAlert;
      tacticClearPending := tactic.Some? || tacticClearPending;
      assert State() == t;
    }

    /** Lines 187-188: the copy becomes the game, and the move is logged. */
    method PlaceMove(m: MoveInfo, after: Position, mover: PlayerProfile, tactic: Option<Tactics.TacticResult>)
      requires Valid()
      modifies this`game, this`currentFen, this`logs
      ensures Valid()
      ensures State() == Placed(old(State()), m, after, mover, tactic)
    {
      game := after;
      currentFen := after.fen;
      AddLog(mover.id, MoveLogText(m, tactic), MoveLog, None);
    }

    /** Lines 223-224. */
    method Emote(turn: Color, r: Reaction)
      requires Valid()
      modifies this`whiteEmotion, this`blackEmotion, this`whiteRevertPending, this`blackRevertPending
      ensures Valid()
      ensures State() == Emoted(old(State()), turn, r)
    {
      if r.attacker != Neutral {
        TriggerEmotion(turn, r.attacker);
      }
      if r.defender != Neutral {
        TriggerEmotion(Opponent(turn), r.defender);
      }
    }

    /** Lines 226-258: the turn's conversation joins the pending lines. */
    method Chat(mover: PlayerProfile, opponent: PlayerProfile, r: Reaction, d: TurnDraws) returns (completed: bool)
      requires Valid()
      modifies this`chats
      ensures Valid()
      ensures State() == Scheduled(old(State()), Converse(book, mover, opponent, r, d))
      ensures completed == Converse(book, mover, opponent, r, d).completed
    {
      var talk := Converse(book, mover, opponent, r, d);
      chats := chats + talk.scheduled;
      completed := talk.completed;
    }

    /** Lines 260-266. */
    method CloseIfOver(after: Position, mover: PlayerProfile, reached: bool)
      requires Valid()
      modifies this`isPlaying, this`logs
      ensures Valid()
      ensures State() == Closed(old(State()), after, mover, reached)
    {
      if reached && after.isGameOver {
        isPlaying := false;
        AddLog("system", GameOverText(after, mover), SystemLog, None);
      }
    }

    /** Lines 143-267 once the copy holds the move. */
    method PlayMove(m: MoveInfo, after: Position, centipawns: int, d: TurnDraws)
      requires Valid()
      modifies this`explanation, this`tacticAlert, this`tacticClearPending, this`squareStyles,
               this`game, this`currentFen, this`logs, this`whiteEmotion, this`blackEmotion,
               this`whiteRevertPending, this`blackRevertPending, this`chats, this`isPlaying
      ensures Valid()
      ensures State() == AfterMove(old(State()), white, black, book, m, after, centipawns, d)
    {
      var turn := game.turn;
      var currentPlayer := if turn == White then white else black;
      var opponentPlayer := if turn == White then black else white;
      var contempt := Constants.Traits(currentPlayer.mbti).contempt;
      var tactic := Tactics.AnalyzeMoveTactics(after, m);
      ShowMove(m, after, centipawns, turn, tactic);
      PlaceMove(m, after, currentPlayer, tactic);
      var r := React(after, m, contempt, d.outburst);
      Emote(turn, r);
      var completed := Chat(currentPlayer, opponentPlayer, r, d);
      CloseIfOver(after, currentPlayer, completed);
    }

    /** makeMove (lines 110-274); returns the commands sent to the engine. */
    method Turn(hasWorker: bool, replies: seq<Engine.WorkerMessage>,
                rules: MoveConfig -> MoveAttempt, bySan: string -> MoveAttempt, d: TurnDraws)
      returns (posted: seq<string>)
      requires Valid()
      requires NumericEvaluation(hasWorker, replies)
      modifies this
      ensures Valid()
      ensures State() == AfterTurn(old(State()), white, black, book, hasWorker, replies, rules, bySan, d).screen
      ensures posted == AfterTurn(old(State()), white, black, book, hasWorker, replies, rules, bySan, d).posted
    {
      posted := [];
      if game.isGameOver || game.isDraw || !isPlaying || processing {
        return;
      }
      posted := RunTurn(hasWorker, replies, rules, bySan, d);
    }

    /** makeMove past its guard at line 111. */
    method RunTurn(hasWorker: bool, replies: seq<Engine.WorkerMessage>,
                   rules: MoveConfig -> MoveAttempt, bySan: string -> MoveAttempt, d: TurnDraws)
      returns (posted: seq<string>)
      requires Valid() && !Blocked(State())
      requires NumericEvaluation(hasWorker, replies)
      modifies this
      ensures Valid()
      ensures State() == AfterTurn(old(State()), white, black, book, hasWorker, replies, rules, bySan, d).screen
      ensures posted == AfterTurn(old(State()), white, black, book, hasWorker, replies, rules, bySan, d).posted
    {
      processing := true;
      var currentPlayer := if game.turn == White then white else black;
      var waiting, played;
      posted, waiting, played := FetchMove(hasWorker, replies, rules, bySan, game.fen, currentPlayer.elo,
                                           Constants.Traits(currentPlayer.mbti).contempt);
      if waiting {
        // the promise never settles: the turn stays in progress
        return;
      }
      // a rejected request, `undefined.substring` or no move all end in the finally block
      processing := false;
      if played.Some? {
        var (m, after, ev) := played.value;
        PlayMove(m, after, ev.cp, d);
      }
    }
  }

  /** The forEach of lines 172-178 over the base highlights. */
  method PaintSquares(m: MoveInfo, after: Position, tactic: Option<Tactics.TacticResult>)
    returns (styles: map<string, Style>)
    ensures styles == SquareStyles(m, after, tactic)
  {
    styles := map[];
    styles := styles[m.from := MoveHighlight];
    styles := styles[m.to := MoveHighlight];
    if after.inCheck {
      var kingSquare := KingSquare(after.board, after.turn);
      if kingSquare.Some? {
        styles := styles[kingSquare.value := CheckHighlight];
      }
    }
    if tactic.Some? {
      var squares := tactic.value.squaresToHighlight;
      ghost var base := styles;
      var i := 0;
      while i < |squares|
        invariant 0 <= i <= |squares|
        invariant styles == WithTactic(base, squares[..i])
      {
        assert squares[..i + 1][..i] == squares[..i];
        var sq := squares[i];
        styles := styles[sq := Highlighted(Lookup(styles, sq))];
        i := i + 1;
      }
      assert squares[..i] == squares;
    }
  }
}
