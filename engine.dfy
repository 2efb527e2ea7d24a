/**
 * The engine side of services/stockfishService.ts: the commands a move
 * request sends, the skill level, and the fold of the engine's replies (UCI
 * `info ... score` and `bestmove` lines) into the move and its score.
 */
module Engine {
  import opened Types
  import opened Strings

  /** A score in centipawns from the side to move; parseInt may give NaN. */
  datatype Score = Centipawns(cp: int) | NotANumber

  /** What a worker message event carries: a text line, or anything else. */
  datatype WorkerMessage = Text(text: string) | NonText

  /**
   * The score after reading the tokens of an info line: "score cp N" sets N,
   * "score mate M" sets 10000 when M > 0 and -10000 otherwise (NaN included),
   * anything else keeps the last score.
   */
  function ScoreFromTokens(parts: seq<string>, last: Score): (s: Score) {
    match SeqIndexOf(parts, "score")
    case None => last
    case Some(k) =>
      var kind := Elem(parts, k + 1);
      var val := ParseInt(Elem(parts, k + 2));
      if kind == Some("cp") then
        (match val case Some(v) => Centipawns(v) case None => NotANumber)
      else if kind == Some("mate") then
        (if val.Some? && val.value > 0 then Centipawns(10000) else Centipawns(-10000))
      else last
  }

  /** Lines 53-67: only a line starting with "info" and mentioning "score" is read. */
  function ReadInfo(msg: string, last: Score): (s: Score)
    ensures !(StartsWith(msg, "info") && Contains(msg, "score")) ==> s == last
    ensures !Contains(msg, "score") ==> s == last
  {
    if StartsWith(msg, "info") && Contains(msg, "score") then ScoreFromTokens(Split(msg, ' '), last) else last
  }

  /**
   * The state of one request's handler: still listening with the last score,
   * or resolved with the second token of the bestmove line (None when the
   * line has no such token) and the score.
   */
  datatype Listener = Listening(lastScore: Score) | Resolved(move: Option<string>, evaluation: Score)

  /** The state when the handler is attached: no move, score 0. */
  const Attached: Listener := Listening(Centipawns(0))

  /** One message event; a resolved handler has been removed and sees nothing. */
  function Step(l: Listener, msg: WorkerMessage): (r: Listener)
    ensures l.Resolved? ==> r == l
    ensures msg.NonText? ==> r == l
    ensures l.Listening? && msg.Text? ==> (r.Resolved? <==> StartsWith(msg.text, "bestmove"))
  {
    match l
    case Resolved(_, _) => l
    case Listening(last) =>
      match msg
      case NonText => l
      case Text(m) =>
        var score := ReadInfo(m, last);
        if StartsWith(m, "bestmove") then Resolved(Elem(Split(m, ' '), 1), score) else Listening(score)
  }

  /** The handler state after the messages in order. */
  function RunFrom(l: Listener, msgs: seq<WorkerMessage>): Listener
    decreases |msgs|
  {
    if msgs == [] then l else Step(RunFrom(l, msgs[..|msgs| - 1]), msgs[|msgs| - 1])
  }

  function Run(msgs: seq<WorkerMessage>): Listener {
    RunFrom(Attached, msgs)
  }

  predicate IsBestMove(msg: WorkerMessage) {
    msg.Text? && StartsWith(msg.text, "bestmove")
  }

  /** Reading a + b is reading a, then b. */
  lemma {:induction false} RunFromAppend(l: Listener, a: seq<WorkerMessage>, b: seq<WorkerMessage>)
    ensures RunFrom(l, a + b) == RunFrom(RunFrom(l, a), b)
    decreases |b|
  {
    if b == [] {
      assert a + b == a;
    } else {
      assert (a + b)[..|a + b| - 1] == a + b[..|b| - 1];
      assert (a + b)[|a + b| - 1] == b[|b| - 1];
      RunFromAppend(l, a, b[..|b| - 1]);
    }
  }

  /** Once resolved, the handler is removed: later messages change nothing. */
  lemma {:induction false} ResolvedIgnoresRest(l: Listener, msgs: seq<WorkerMessage>)
    requires l.Resolved?
    ensures RunFrom(l, msgs) == l
    decreases |msgs|
  {
    if msgs != [] {
      ResolvedIgnoresRest(l, msgs[..|msgs| - 1]);
    }
  }

  /** The request resolves exactly when some message is a bestmove line. */
  lemma {:induction false} ResolvedIffBestMove(msgs: seq<WorkerMessage>)
    ensures Run(msgs).Resolved? <==> exists i :: 0 <= i < |msgs| && IsBestMove(msgs[i])
    decreases |msgs|
  {
    if msgs != [] {
      var front := msgs[..|msgs| - 1];
      ResolvedIffBestMove(front);
      if exists i :: 0 <= i < |front| && IsBestMove(front[i]) {
        var i :| 0 <= i < |front| && IsBestMove(front[i]);
        assert msgs[i] == front[i];
      }
      if exists i :: 0 <= i < |msgs| && IsBestMove(msgs[i]) {
        var i :| 0 <= i < |msgs| && IsBestMove(msgs[i]);
        if i < |front| {
          assert front[i] == msgs[i];
        }
      }
    }
  }

  /**
   * The first bestmove line decides the result: its second token and the
   * score read before it, whatever comes after.
   */
  lemma FirstBestMoveDecides(before: seq<WorkerMessage>, line: string, after: seq<WorkerMessage>)
    requires forall i :: 0 <= i < |before| ==> !IsBestMove(before[i])
    requires StartsWith(line, "bestmove")
    ensures Run(before).Listening?
    ensures Run(before + [Text(line)] + after) == Resolved(Elem(Split(line, ' '), 1), Run(before).lastScore)
  {
    ResolvedIffBestMove(before);
    BestMoveIsNotInfo(line);
    RunFromAppend(Attached, before, [Text(line)]);
    assert RunFrom(Attached, before + [Text(line)]) == RunFrom(Run(before), [Text(line)]);
    assert [Text(line)][..0] == [];
    RunFromAppend(Attached, before + [Text(line)], after);
    ResolvedIgnoresRest(Run(before + [Text(line)]), after);
  }

  /**
   * The handler as the source runs it, one message event after another,
   * updating the captured bestMove and lastScore and detaching itself on the
   * first bestmove line.
   */
  method ReadReplies(msgs: seq<WorkerMessage>) returns (resolved: bool, bestMove: Option<string>, lastScore: Score)
    ensures resolved <==> Run(msgs).Resolved?
    ensures resolved ==> Run(msgs) == Resolved(bestMove, lastScore)
    ensures !resolved ==> Run(msgs) == Listening(lastScore)
  {
    resolved := false;
    bestMove := Some("");
    lastScore := Centipawns(0);
    var i := 0;
    while i < |msgs|
      invariant 0 <= i <= |msgs|
      invariant resolved ==> Run(msgs[..i]) == Resolved(bestMove, lastScore)
      invariant !resolved ==> Run(msgs[..i]) == Listening(lastScore)
    {
      assert msgs[..i + 1][..i] == msgs[..i];
      if !resolved {
        var msg := msgs[i];
        if msg.Text? && StartsWith(msg.text, "info") && Contains(msg.text, "score") {
          var parts := Split(msg.text, ' ');
          var scoreIndex := SeqIndexOf(parts, "score");
          if scoreIndex.Some? {
            var kind := Elem(parts, scoreIndex.value + 1);
            var val := ParseInt(Elem(parts, scoreIndex.value + 2));
            if kind == Some("cp") {
              lastScore := if val.Some? then Centipawns(val.value) else NotANumber;
            } else if kind == Some("mate") {
              lastScore := if val.Some? && val.value > 0 then Centipawns(10000) else Centipawns(-10000);
            }
          }
        }
        if msg.Text? && StartsWith(msg.text, "bestmove") {
          resolved := true;
          bestMove := Elem(Split(msg.text, ' '), 1);
        }
      }
      i := i + 1;
    }
    assert msgs[..i] == msgs;
  }

  /** Concatenation keeps an occurrence of p on either side. */
  lemma ContainsConcat(a: string, b: string, p: string)
    ensures Contains(a, p) ==> Contains(a + b, p)
    ensures Contains(b, p) ==> Contains(a + b, p)
  {
    if Contains(a, p) {
      var i :| OccursAt(a, p, i);
      assert (a + b)[i..i + |p|] == a[i..i + |p|];
      assert OccursAt(a + b, p, i);
    }
    if Contains(b, p) {
      var i :| OccursAt(b, p, i);
      assert (a + b)[|a| + i..|a| + i + |p|] == b[i..i + |p|];
      assert OccursAt(a + b, p, |a| + i);
    }
  }

  /** A joined line contains each of its pieces and starts with the first. */
  lemma {:induction false} JoinContains(parts: seq<string>, sep: char, k: nat)
    requires |parts| >= 1 && k < |parts|
    ensures Contains(Join(parts, sep), parts[k])
    ensures StartsWith(Join(parts, sep), parts[0])
    decreases |parts|
  {
    assert OccursAt(parts[0], parts[0], 0);
    if |parts| > 1 {
      ContainsConcat(parts[0], [sep] + Join(parts[1..], sep), parts[0]);
      assert Join(parts, sep) == parts[0] + ([sep] + Join(parts[1..], sep));
      if k > 0 {
        JoinContains(parts[1..], sep, k - 1);
        ContainsConcat(parts[0] + [sep], Join(parts[1..], sep), parts[k]);
        assert Join(parts, sep) == (parts[0] + [sep]) + Join(parts[1..], sep);
      }
    }
  }

  /** A written integer holds no space. */
  lemma DecimalStringNoSpace(n: int)
    ensures ' ' !in DecimalString(n)
  {
  }

  predicate Words(parts: seq<string>) {
    forall i :: 0 <= i < |parts| ==> ' ' !in parts[i]
  }

  /** The tokens of an info line hold no space. */
  lemma InfoWords(pre: seq<string>, kind: string, n: int, post: seq<string>)
    requires Words(pre) && Words(post) && ' ' !in kind
    ensures Words(["info"] + pre + ["score", kind, DecimalString(n)] + post)
  {
    var parts := ["info"] + pre + ["score", kind, DecimalString(n)] + post;
    var k := |pre| + 1;
    DecimalStringNoSpace(n);
    forall i | 0 <= i < |parts| ensures ' ' !in parts[i] {
      if 0 < i < k { assert parts[i] == pre[i - 1]; }
      else if i > k + 2 { assert parts[i] == post[i - k - 3]; }
      else if i == k + 2 { assert parts[i] == DecimalString(n); }
    }
  }

  /**
   * The tokens of an info line "info <pre> score <kind> <n> <post>" (no
   * "score" token in pre): the line splits back into its words, is read as
   * an info line, and its first "score" token is the one after pre.
   */
  lemma InfoLineTokens(pre: seq<string>, kind: string, n: int, post: seq<string>)
    requires Words(pre) && Words(post) && ' ' !in kind
    requires forall i :: 0 <= i < |pre| ==> pre[i] != "score"
    ensures var parts := ["info"] + pre + ["score", kind, DecimalString(n)] + post;
      var line := Join(parts, ' ');
      && StartsWith(line, "info") && Contains(line, "score")
      && Split(line, ' ') == parts
      && SeqIndexOf(parts, "score") == Some(|pre| + 1)
      && Elem(parts, |pre| + 2) == Some(kind) && Elem(parts, |pre| + 3) == Some(DecimalString(n))
  {
    var parts := ["info"] + pre + ["score", kind, DecimalString(n)] + post;
    var k := |pre| + 1;
    assert parts[0] == "info" && parts[k] == "score" && parts[k + 1] == kind && parts[k + 2] == DecimalString(n);
    InfoWords(pre, kind, n, post);
    SplitJoin(parts, ' ');
    JoinContains(parts, ' ', k);
    forall j | 0 <= j < k ensures parts[j] != "score" {
      if j > 0 { assert parts[j] == pre[j - 1]; }
    }
  }

  /**
   * An info line "info <pre> score <kind> <n> <post>" (no "score" token in
   * pre): kind cp sets the score to n, kind mate to +-10000 by n's sign, any
   * other kind leaves the score as it was.
   */
  lemma InfoLine(pre: seq<string>, kind: string, n: int, post: seq<string>, last: Score)
    requires Words(pre) && Words(post) && ' ' !in kind
    requires forall i :: 0 <= i < |pre| ==> pre[i] != "score"
    ensures var line := Join(["info"] + pre + ["score", kind, DecimalString(n)] + post, ' ');
      && (kind == "cp" ==> ReadInfo(line, last) == Centipawns(n))
      && (kind == "mate" ==> ReadInfo(line, last) == Centipawns(if n > 0 then 10000 else -10000))
      && (kind != "cp" && kind != "mate" ==> ReadInfo(line, last) == last)
  {
    var parts := ["info"] + pre + ["score", kind, DecimalString(n)] + post;
    var line := Join(parts, ' ');
    InfoLineTokens(pre, kind, n, post);
    ParseIntDecimal(n);
    assert ReadInfo(line, last) == ScoreFromTokens(parts, last);
    ScoreAt(parts, |pre| + 1, kind, n, last);
  }

  /** The tokens after the first "score" decide the score: cp sets it, mate saturates it, any other kind keeps it. */
  lemma ScoreAt(parts: seq<string>, k: nat, kind: string, n: int, last: Score)
    requires SeqIndexOf(parts, "score") == Some(k)
    requires Elem(parts, k + 1) == Some(kind) && ParseInt(Elem(parts, k + 2)) == Some(n)
    ensures kind == "cp" ==> ScoreFromTokens(parts, last) == Centipawns(n)
    ensures kind == "mate" ==> ScoreFromTokens(parts, last) == Centipawns(if n > 0 then 10000 else -10000)
    ensures kind != "cp" && kind != "mate" ==> ScoreFromTokens(parts, last) == last
  {
  }

  /** A bestmove line is never read as an info line. */
  lemma BestMoveIsNotInfo(line: string)
    requires StartsWith(line, "bestmove")
    ensures !StartsWith(line, "info")
  {
    assert line[0] == 'b';
  }

  /** A bestmove line "bestmove <mv> <post>" resolves with mv and keeps the score. */
  lemma BestMoveLine(mv: string, post: seq<string>, last: Score)
    requires ' ' !in mv && Words(post)
    ensures Step(Listening(last), Text(Join(["bestmove", mv] + post, ' '))) == Resolved(Some(mv), last)
  {
    var parts := ["bestmove", mv] + post;
    assert Words(parts) by {
      forall i | 0 <= i < |parts| ensures ' ' !in parts[i] {
        if i > 1 { assert parts[i] == post[i - 2]; }
      }
    }
    var line := Join(parts, ' ');
    SplitJoin(parts, ' ');
    assert Elem(Split(line, ' '), 1) == Some(mv);
    JoinContains(parts, ' ', 0);
    BestMoveIsNotInfo(line);
    assert ReadInfo(line, last) == last;
  }

  /** A bare "bestmove" resolves with an undefined move. */
  lemma BareBestMove(last: Score)
    ensures Step(Listening(last), Text("bestmove")) == Resolved(None, last)
  {
    SplitJoin(["bestmove"], ' ');
    assert Split("bestmove", ' ') == ["bestmove"];
    BestMoveIsNotInfo("bestmove");
  }

  function IntMin(x: int, y: int): int { if x <= y then x else y }
  function IntMax(x: int, y: int): int { if x >= y then x else y }

  /** skillLevel: a fifth of the rating, rounded down and clamped to the engine's 0..20. */
  function SkillLevel(difficulty: int): (s: int)
    ensures 0 <= s <= 20
    ensures 0 <= difficulty < 105 ==> s * 5 <= difficulty < s * 5 + 5
    ensures difficulty >= 100 ==> s == 20
    ensures difficulty < 5 ==> s == 0
  {
    IntMax(0, IntMin(20, difficulty / 5))
  }

  /** A higher rating never lowers the skill level. */
  lemma SkillLevelMonotone(d1: int, d2: int)
    requires d1 <= d2
    ensures SkillLevel(d1) <= SkillLevel(d2)
  {
  }

  /** The four commands of one request, in the order they are posted. */
  function Commands(fen: string, difficulty: int, contempt: int): (c: seq<string>) {
    [ "setoption name Contempt value " + DecimalString(contempt),
      "position fen " + fen,
      "setoption name Skill Level value " + DecimalString(SkillLevel(difficulty)),
      "go movetime 800" ]
  }

  /** The outcome of starting a request: rejected, or commands posted to the worker. */
  datatype Request = Rejected(reason: string) | Posted(commands: seq<string>)

  /** getBestMove up to the point where it waits for replies. */
  function GetBestMove(hasWorker: bool, fen: string, difficulty: int, contempt: int): (r: Request)
    ensures !hasWorker <==> r == Rejected("Stockfish not initialized")
    ensures hasWorker ==> r.Posted? && |r.commands| == 4
    ensures hasWorker ==> StartsWith(r.commands[1], "position fen ") && r.commands[1][13..] == fen
    ensures hasWorker ==> r.commands[3] == "go movetime 800"
  {
    if !hasWorker then Rejected("Stockfish not initialized") else Posted(Commands(fen, difficulty, contempt))
  }

  /** The skill command carries a number the Skill Level option accepts, written so that it reads back. */
  lemma SkillCommand(fen: string, difficulty: int, contempt: int)
    ensures var c := Commands(fen, difficulty, contempt);
      && StartsWith(c[2], "setoption name Skill Level value ")
      && ParseInt(Some(c[2][33..])) == Some(SkillLevel(difficulty))
      && 0 <= SkillLevel(difficulty) <= 20
      && ParseInt(Some(c[0][30..])) == Some(contempt)
  {
    var c := Commands(fen, difficulty, contempt);
    assert c[2][33..] == DecimalString(SkillLevel(difficulty));
    assert c[0][30..] == DecimalString(contempt);
    ParseIntDecimal(SkillLevel(difficulty));
    ParseIntDecimal(contempt);
  }
}
