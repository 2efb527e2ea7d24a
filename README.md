# chessSimulator core in Dafny

This project models the core of chessSimulator. That app sets two
personality-typed players against each other through a chess engine. The
players react with emotions and chat lines, and a beginner's guide explains
each move. The chess rules library and the engine search are not part of
the core. Their answers about a position or a move are inputs of the model:
a board, the check, mate, draw and game-over flags, the SAN, the move flags,
the history length, and the engine's text replies. Each `Math.random()`
draw is a parameter, a real in `[0, 1)`.

One module per source file:

- `Types` models types.ts: personality types, emotions, profiles and log entries.
- `Chess` is the rules-library boundary. It holds the board in `board()` order, square names, the king lookup and the start position.
- `Strings` models the JavaScript string builtins the core uses, with their JavaScript meaning:
  - `includes`, `startsWith`, `indexOf`, `substring`
  - `split` and `join`
  - `replace`, both with and without its `$` expansion
  - `parseInt`
- `Constants` models constants.ts: the traits table and the relationship labels with their reciprocal map.
- `Tactics` models utils/tactics.ts: the pattern chain, and the knight fork scan as a loop.
- `Explanation` models utils/gameExplanation.ts: the bar value and the guide text.
- `Dialogue` models services/dialogueGenerator.ts: silence, pool choice, fallback, template pick and placeholder fill.
- `Engine` models services/stockfishService.ts:
  - the reply handler, as a fold over the worker's messages and as the loop the source runs;
  - the skill level;
  - the four commands a request posts;
  - the rejection when there is no worker.
- `Setup` models App.tsx: the `App` class holding the two profiles, the mutual switch and the step.
- `Match` models components/GameView.tsx:
  - the highlight map;
  - the engine answer and the two-stage move application;
  - reactions, the dialogue key and the conversation;
  - log texts and the advantage bar;
  - the screen.

The screen exists twice in `Match`:

- as a value, `Screen`, whose transition functions carry the properties;
- as the `GameView` class, whose fields the methods update in place. Each method ensures that its new `State()` is the matching transition of the old one.

Timers are pending events:

- a flag per avatar for its pending revert to neutral;
- a flag for the pending clear of the tactic banner;
- a queue of chat lines waiting on their delays.

Each fires through its own method.

Notes on behaviour that the code's own comments or layout could suggest otherwise:

- CHECK! is returned last, after every other pattern. The comment at utils/tactics.ts:31 numbers it second, but the code pushes it on a list at line 36 and returns it at line 131 only when nothing earlier returned.
- The body of the reset effect (components/GameView.tsx:73-95) clears only the two avatar timers and leaves the tactic-banner timer and the pending chat lines alone. In the app that is harmless: the reset button (components/GameView.tsx:560) calls App's `resetGame` (App.tsx:68-70), which returns to the setup step, and App.tsx:94 then stops rendering the view. The surviving timers update an unmounted component, and their updates are lost.
- A request that never sees a `bestmove` line is never resolved or rejected (services/stockfishService.ts:48-74), so the turn stays in progress for ever.

## Model

| member | source | states |
|---|---|---|
| Chess.SquareName | utils/tactics.ts:96 | a square name is a file letter a-h followed by a rank digit 1-8 |
| Chess.SquareNameInjective | utils/tactics.ts:96 | different on-board coordinates give different square names |
| Chess.FileOf | utils/tactics.ts:85 | a file letter maps to 1..8 and back, and any other character has no file |
| Chess.RankOf | utils/tactics.ts:86 | a rank digit maps to 1..8 and back, and any other character has no rank |
| Chess.ParseSquare | utils/tactics.ts:89-90 | coordinates are found only for a string starting with a square name, and they are that square's |
| Chess.ParseSquareName | utils/tactics.ts:85-96 | parsing a square's name gives back its coordinates |
| Chess.IndexSquareName | utils/tactics.ts:27 | the name of position i of the board() order is an on-board square that parses back to file i mod 8 + 1, rank 8 - i div 8 |
| Chess.IndexSquareAt | utils/tactics.ts:27 | position i of the board() order holds the piece that the lookup by file and rank finds on that square |
| Chess.KingSquareFrom | components/GameView.tsx:160 | the found square holds the king of that colour; none is found exactly when no square holds it |
| Chess.KingSquareFirst | components/GameView.tsx:160 | like `find`, the square found is that of the first king of that colour in board() order |
| Chess.StartPosition | components/GameView.tsx:74 | a fresh game has White to move, no moves and is not over |
| Chess.Opponent | utils/gameExplanation.ts:37 | the other colour is never the same colour |
| Strings.IndexOfFrom | utils/tactics.ts:44 | the result is the first occurrence at or after k, and none is missed |
| Strings.IndexOf | services/stockfishService.ts:53 | `indexOf` finds the first occurrence, and none exists before it |
| Strings.Contains | utils/tactics.ts:44 | `includes` holds exactly when the pattern occurs somewhere |
| Strings.Substring | components/GameView.tsx:130-132 | `substring` is the slice for in-range ends, with the ends swapped when reversed |
| Strings.Split | services/stockfishService.ts:54 | `split` gives at least one piece, and no piece holds the separator |
| Strings.JoinSplit | services/stockfishService.ts:54 | joining the pieces of a split gives back the message |
| Strings.SplitAfterWord | services/stockfishService.ts:54 | a separator-free word in front of a text extends the text's first piece |
| Strings.SplitJoin | services/stockfishService.ts:54 | splitting a joined line of separator-free words gives back the words |
| Strings.SeqIndexOf | services/stockfishService.ts:55 | the array `indexOf` finds the first equal token, and none exists before it |
| Strings.Elem | services/stockfishService.ts:57-58 | an index reads a token exactly when it is in range |
| Strings.ReplaceFirstAt | services/dialogueGenerator.ts:57-59 | only the first occurrence is replaced, and everything after it, later occurrences included, is kept |
| Strings.ReplaceFirstAbsent | services/dialogueGenerator.ts:57-59 | without an occurrence the text is unchanged |
| Strings.ExpandLiteral | services/dialogueGenerator.ts:57-59 | a replacement text without `$` expands to itself |
| Strings.JsReplaceFirstLiteral | services/dialogueGenerator.ts:57-59 | for a replacement without `$`, JavaScript's replace equals literal insertion |
| Strings.DollarAmpersandCounterexample | services/dialogueGenerator.ts:58 | replacing with `$&` re-inserts the placeholder instead of the text `$&` |
| Strings.TrimStart | services/stockfishService.ts:58 | `parseInt`'s skip of leading white space leaves a suffix that starts with no white space |
| Strings.DigitValue | services/stockfishService.ts:58 | a digit's value is below the radix |
| Strings.DigitRun | services/stockfishService.ts:58 | the run is the longest all-digit prefix |
| Strings.DigitRunDigits | services/stockfishService.ts:58 | every character of the run is a digit of the radix |
| Strings.NatDigits | services/stockfishService.ts:81-83 | a written number has at least one digit and no leading zero |
| Strings.NatDigitsValue | services/stockfishService.ts:81-83 | the digits of n denote n |
| Strings.DigitRunAll | services/stockfishService.ts:58 | a string made only of digits is read to its end |
| Strings.ParseUnsignedDigits | services/stockfishService.ts:58 | a digit string without a leading zero reads as the number it denotes |
| Strings.TrimStartNumber | services/stockfishService.ts:58 | a string starting with a digit or a minus sign has no white space to skip |
| Strings.ParseSignedDigits | services/stockfishService.ts:58 | a string starting with a digit is read with no sign |
| Strings.ParseSignedNegated | services/stockfishService.ts:58 | a leading minus sign negates the number read after it |
| Strings.ParseIntDecimal | services/stockfishService.ts:58 | `parseInt` reads back every integer written in decimal, negatives included |
| Constants.Traits | constants.ts:5-29 | the table is defined for all sixteen types, with contempt in -100..100 and chat frequency in 0..1 |
| Constants.Reciprocal | App.tsx:38 | a key maps to its reciprocal, and any other label stays itself |
| Constants.MapKeys | constants.ts:49-65 | the map's keys are exactly the fifteen labels |
| Constants.MapIsInvolution | constants.ts:49-65 | every value is a key, and mapping twice gives back the key |
| Constants.ReciprocalInvolution | constants.ts:49-65 | taking the reciprocal twice gives back any label |
| Constants.OptionsAreKeys | constants.ts:31-65 | every offered label is a key, and the value "무관심" is not offered |
| Tactics.PieceValue | utils/tactics.ts:11-14 | a value is at least 5 exactly for rook, queen and king |
| Tactics.KnightOffsetsDistinct | utils/tactics.ts:80-83 | the eight knight jumps are pairwise distinct |
| Tactics.TargetsLength | utils/tactics.ts:92-105 | the scan lists at most one square per jump |
| Tactics.TargetsMembers | utils/tactics.ts:92-105 | a listed square is exactly one that an on-board jump hits with an opposing king, queen, rook or bishop |
| Tactics.FreshTarget | utils/tactics.ts:92-105 | a jump not yet scanned lands on a square not yet listed |
| Tactics.DistinctAppend | utils/tactics.ts:101 | pushing a square not yet listed keeps the list duplicate-free |
| Tactics.TargetsDistinct | utils/tactics.ts:92-105 | distinct jumps list no square twice |
| Tactics.TargetsSnoc | utils/tactics.ts:92-105 | one more jump adds its square exactly when it hits, after the squares found so far |
| Tactics.ForkSquaresOffBoard | utils/tactics.ts:89-95 | a `to` that is not a square name attacks nothing |
| Tactics.ForkSquaresSpec | utils/tactics.ts:80-105 | the attacked squares are at most eight and distinct, and they are exactly the on-board jump squares holding an opposing king, queen, rook or bishop |
| Tactics.ScanKnightAttacks | utils/tactics.ts:89-105 | the scan collects exactly the fork squares and counts them |
| Tactics.ScanFrom | utils/tactics.ts:92-105 | the loop over a list of jumps collects exactly the hit squares, in jump order, and counts them |
| Tactics.Analyze | utils/tactics.ts:16-134 | mate gives CHECKMATE with `to` and the losing king's square (or ""); no result exactly when there is no mate, no check and no other pattern |
| Tactics.AnalyzeMoveTactics | utils/tactics.ts:16-134 | the early-return chain, with CHECK! pushed and returned last, computes Analyze |
| Tactics.CheckIsLast | utils/tactics.ts:32-41 | CHECK! is reported exactly for a check with no mate and no other pattern; a checking knight fork is FORK! |
| Tactics.CastlingCoversLong | utils/tactics.ts:44 | a SAN containing O-O-O contains O-O |
| Tactics.CastlingPrecedence | utils/tactics.ts:44-51 | castling beats everything but mate and highlights from and to |
| Tactics.PatternPrecedence | utils/tactics.ts:54-128 | the remaining order is promotion, then en passant, then fork, then big capture |
| Tactics.ForkReported | utils/tactics.ts:75-114 | FORK! exactly for a knight with at least two fork squares and no earlier pattern; `to` is highlighted, then the squares in jump order |
| Tactics.BigCaptureReported | utils/tactics.ts:118-127 | BIG CAPTURE! exactly for a captured rook, queen or king with no earlier pattern; never for a pawn, knight or bishop |
| Explanation.CalculateAdvantage | utils/gameExplanation.ts:15-24 | the bar lies in -100..100 and is cp/10 from White's side within ten pawns |
| Explanation.AdvantageMirrors | utils/gameExplanation.ts:17 | the same score read for Black is the negated score for White |
| Explanation.AdvantageMonotone | utils/gameExplanation.ts:17-23 | the bar does not decrease in cp for White and does not increase for Black |
| Explanation.AdvantageSaturates | utils/gameExplanation.ts:22 | ten pawns or more, mate scores included, fill the bar |
| Explanation.Explain | utils/gameExplanation.ts:26-100 | the status is mate exactly on mate; the bar is forced to ±100 on mate and 0 on a draw, and otherwise passed through; the winning statuses agree with the thresholds |
| Explanation.MateNamesMover | utils/gameExplanation.ts:36-44 | on mate the side not to move is named the winner and the bar goes to its side |
| Explanation.QuietStatusAgreesWithBar | utils/gameExplanation.ts:66-75 | in a quiet position White is winning exactly above 30, Black exactly below -30, equal in between, and the title says so |
| Explanation.DescriptionPrecedence | utils/gameExplanation.ts:77-97 | capture, then castling, then promotion, then the pressing texts beyond half the bar, then the repositioning text; without a move the default text stays |
| Dialogue.EmotionalThresholdUnused | services/dialogueGenerator.ts:18-23 | only generic chatter is ever silenced, on a draw above the capped plain frequency; the raised threshold is never consulted |
| Dialogue.ChosenPool | services/dialogueGenerator.ts:28-46 | with both pools non-empty the type's pool is used exactly below 0.75; a single non-empty pool is used; otherwise the pool is empty |
| Dialogue.Templates | services/dialogueGenerator.ts:48-52 | the chosen pool, else the type's generic list when it is defined, else nothing |
| Dialogue.PickIndex | services/dialogueGenerator.ts:54 | the floor of the draw times the length is always an index of the list |
| Dialogue.FillAsWrittenAgrees | services/dialogueGenerator.ts:57-59 | for names without `$`, the as-written fill equals the literal one |
| Dialogue.FillAsWrittenCounterexample | services/dialogueGenerator.ts:57-59 | an opponent named `$&` shows up as "{name}" under the as-written fill |
| Dialogue.FillPlain | services/dialogueGenerator.ts:57-59 | a template without placeholders is said as it is |
| Dialogue.NoEarlierOccurrence | services/dialogueGenerator.ts:57-59 | no placeholder starts inside a text without "{" |
| Dialogue.FillTemplate | services/dialogueGenerator.ts:57-59 | "a{name}m{relationship}b" reads a, the name, m, the relationship and b |
| Dialogue.Generate | services/dialogueGenerator.ts:8-60 | silence gives ""; the call throws exactly when the fallback generic list is empty; with nothing to fall back on it gives ""; otherwise it gives a filled template of the pool |
| Dialogue.GenerateTotal | services/dialogueGenerator.ts:48-52 | a type with a generic line never throws; with no lines at all the answer is "" |
| Dialogue.PoolPreference | services/dialogueGenerator.ts:35-41 | with both pools non-empty, the result is a filled line of the type's pool below 0.75 and of the relationship's pool otherwise |
| Dialogue.SilenceDrawIrrelevant | services/dialogueGenerator.ts:21-23 | outside the generic situation the silence draw changes nothing |
| Engine.ReadInfo | services/stockfishService.ts:53-67 | a line that does not start with "info" or lacks "score" leaves the score |
| Engine.Step | services/stockfishService.ts:48-74 | a removed handler ignores everything; a message that is not text changes nothing; a text line resolves exactly when it starts with "bestmove" |
| Engine.RunFromAppend | services/stockfishService.ts:48-74 | reading two runs of messages is reading one, then the other |
| Engine.ResolvedIgnoresRest | services/stockfishService.ts:70 | after the handler is removed, later messages change nothing |
| Engine.ResolvedIffBestMove | services/stockfishService.ts:69-73 | the request resolves exactly when some message is a bestmove line |
| Engine.FirstBestMoveDecides | services/stockfishService.ts:69-72 | the first bestmove line decides: its second token and the score seen before it |
| Engine.ReadReplies | services/stockfishService.ts:48-74 | the handler run over the messages ends in the state of the fold |
| Engine.ContainsConcat | services/stockfishService.ts:53 | an occurrence in either part is an occurrence in the whole line |
| Engine.JoinContains | services/stockfishService.ts:53 | a joined line contains each token and starts with the first |
| Engine.DecimalStringNoSpace | services/stockfishService.ts:54 | a written integer holds no space |
| Engine.InfoLineTokens | services/stockfishService.ts:53-57 | an info line splits into its words, and its first "score" token is the one after pre |
| Engine.InfoWords | services/stockfishService.ts:54 | the words of an info line hold no space, so splitting recovers them |
| Engine.ScoreAt | services/stockfishService.ts:55-66 | with "score" first at k, "cp" takes the next number, "mate" takes plus or minus 10000 by its sign, any other kind keeps the score |
| Engine.InfoLine | services/stockfishService.ts:53-66 | "score cp N" sets N; "score mate M" sets 10000 for M > 0 and -10000 otherwise; any other kind keeps the score |
| Engine.BestMoveIsNotInfo | services/stockfishService.ts:53-69 | a bestmove line is never read as an info line |
| Engine.BestMoveLine | services/stockfishService.ts:69-72 | "bestmove mv ..." resolves with mv and keeps the last score |
| Engine.BareBestMove | services/stockfishService.ts:71 | a bare "bestmove" resolves with an undefined move |
| Engine.SkillLevel | services/stockfishService.ts:79 | the level lies in 0..20, is the floor of a fifth within range, 20 from 100 up and 0 below 5 |
| Engine.SkillLevelMonotone | services/stockfishService.ts:79 | a higher rating never lowers the level |
| Engine.GetBestMove | services/stockfishService.ts:38-84 | without a worker the request is rejected with its reason and nothing is posted; otherwise four commands are posted, the position carrying the FEN and the last one the search |
| Engine.SkillCommand | services/stockfishService.ts:79-83 | the skill and contempt commands carry numbers that read back as the level and the contempt |
| Setup.Apply | App.tsx:34 | the edited field takes the value, and every other field stays |
| Setup.Partner | App.tsx:37-40 | in mutual mode a relationship edit rewrites the other label to the reciprocal; otherwise the other profile is unchanged |
| Setup.ConsistentSymmetric | App.tsx:33-51 | reciprocal consistency reads the same from either player |
| Setup.EditKeepsConsistent | App.tsx:33-51 | in mutual mode, an edit of either player keeps the labels consistent |
| Setup.InitialConsistent | App.tsx:9-25 | both starting players are "라이벌", which is its own reciprocal |
| Setup.App.constructor | App.tsx:27-31 | the app starts on the setup step with the initial players in mutual mode |
| Setup.App.UpdatePlayer1 | App.tsx:33-41 | player 1 takes the edit, player 2 follows through the map in mutual mode, and consistency is kept |
| Setup.App.UpdatePlayer2 | App.tsx:43-51 | the same edit from player 2's side |
| Setup.App.ToggleRelationshipMode | App.tsx:53-62 | switching on rewrites player 2's label to player 1's reciprocal; switching off changes neither profile |
| Setup.App.StartGame | App.tsx:64-66 | the step becomes the game |
| Setup.App.ResetGame | App.tsx:68-70 | the step becomes the setup |
| Match.Highlighted | components/GameView.tsx:173-177 | the tactic background and shadow overwrite the square's style, and its animation stays |
| Match.HighlightedIdempotent | components/GameView.tsx:172-178 | highlighting a square twice is highlighting it once |
| Match.WithTacticSpec | components/GameView.tsx:172-178 | exactly the tactic squares are added, each with the tactic look on its earlier style; all other squares are unchanged |
| Match.SquareStylesSpec | components/GameView.tsx:152-178 | the map holds from, to, the checked king when found and the tactic squares, and no other square |
| Match.PaintSquares | components/GameView.tsx:152-178 | the loop over the tactic squares builds the style map of the move |
| Match.AnswerOf | components/GameView.tsx:125 | the request is rejected exactly without a worker and waits exactly while the handler listens |
| Match.AnswerOfFirstBestMove | components/GameView.tsx:125-126 | a resolved answer is the first bestmove line's: no move without a second token, otherwise that token and the score read before that line |
| Match.WaitingIffNoBestMove | components/GameView.tsx:125 | the turn waits for ever exactly when no reply is a bestmove line |
| Match.ParseEngineMove | components/GameView.tsx:130-133 | from is chars 0-1, to is chars 2-3, and a promotion char 4 exists exactly beyond length 4 |
| Match.ParseEngineMoveRoundTrip | components/GameView.tsx:130-133 | parsing reads back every move written in UCI form |
| Match.ApplyTwoStage | components/GameView.tsx:135-140 | the object form wins unless it throws; then the raw string decides, and a second throw leaves no move; nothing ever throws out |
| Match.AskEngine | components/GameView.tsx:121-125 | the commands are posted exactly with a worker, and the answer is the fold's |
| Match.ApplyEngineMove | components/GameView.tsx:128-140 | the nested try blocks compute the two-stage application |
| Match.FetchMove | components/GameView.tsx:121-142 | the posted commands, the waiting flag and the applied move |
| Match.PlayedNeedsAnswer | components/GameView.tsx:125-142 | an applied move needs a worker and a bestmove reply |
| Match.React | components/GameView.tsx:190-220 | mate gives winning/happy/sad; check gives angry above contempt 20, else happy, with fearful; the defender is neutral exactly without mate, check or capture |
| Match.ReactQuiet | components/GameView.tsx:205-220 | a capture gives happy/anxious; the opening comes next; then an outburst exactly below 0.1, angry exactly above contempt 30 |
| Match.DialogueKeySpec | components/GameView.tsx:227-230 | the key differs from the situation exactly after check, capture or mate on a draw above 0.5, and then it is the mover's emotion |
| Match.Converse | components/GameView.tsx:226-258 | at most two chat lines, both chat entries; two only when the opponent reacts; the mover's line carries the mover's id and emotion |
| Match.ConverseSpec | components/GameView.tsx:226-258 | the 500 line is the mover's generated line for the dialogue key; the 1500 line exists only when the opponent reacts and is its generated line for its emotion; silent answers schedule nothing; the turn stops exactly when a generation throws |
| Match.MoveLogText | components/GameView.tsx:188 | the SAN, followed by " [name]" exactly when there is a tactic |
| Match.GameOverTextSpec | components/GameView.tsx:260-267 | the mover's win message exactly on mate, then "무승부" for a draw, else "게임 종료" |
| Match.AdvantagePercent | components/GameView.tsx:296 | the fill lies in 0..100 and is 50 plus the bar within range |
| Match.BarAfterMoveSpec | components/GameView.tsx:296 | after mate the fill is empty or full for the winner; after a draw it is centred |
| Match.ResetScreen | components/GameView.tsx:73-95 | a fresh, paused game with an empty log and board, neutral avatars and no pending reverts; the banner timer and chat lines survive |
| Match.Triggered | components/GameView.tsx:98-108 | the colour shows the emotion with one pending revert, and the other colour is untouched |
| Match.Reverted | components/GameView.tsx:102 | the colour is neutral again, and the other colour is untouched |
| Match.Cleared | components/GameView.tsx:182 | the banner is empty with no timer pending |
| Match.Logged | components/GameView.tsx:55-64 | one entry is appended, and nothing else changes |
| Match.Posted | components/GameView.tsx:240-242 | the fired chat line joins the log and leaves the queue, and the rest of the queue is kept |
| Match.Guided | components/GameView.tsx:143-185 | the guide explains the move with the engine's score, the highlights are the move's, and a tactic replaces the banner and restarts its timer |
| Match.Placed | components/GameView.tsx:186-188 | the copy becomes the game, the board text follows it, and the move is logged under the mover |
| Match.Emoted | components/GameView.tsx:222-224 | each side's emotion is triggered unless neutral |
| Match.Scheduled | components/GameView.tsx:239-257 | the turn's chat lines join the queue |
| Match.Closed | components/GameView.tsx:260-267 | a finished game stops playing and logs its closing message, if the dialogue got that far |
| Match.AfterTurnInvariant | components/GameView.tsx:110-274 | a turn keeps the screen invariant |
| Match.AfterTurnEngine | components/GameView.tsx:110-125 | a blocked turn changes and posts nothing; otherwise commands go out exactly with a worker, and the turn stays in progress exactly when no bestmove arrives |
| Match.AfterTurnNoMove | components/GameView.tsx:135-142 | without an applied move only the in-progress flag can differ |
| Match.AfterTurnMove | components/GameView.tsx:142-267 | an applied move sets game, text, guide, highlights, banner, both emotions, queued chat and log entries, and stops play on a completed game over |
| Match.AfterTurnLogGrows | components/GameView.tsx:110-274 | a turn keeps the whole log as a prefix and appends at most two entries |
| Match.GameView.constructor | components/GameView.tsx:23-49 | the screen starts in the initial state |
| Match.GameView.Reset | components/GameView.tsx:73-95 | the reset effect, as ResetScreen |
| Match.GameView.Play | components/GameView.tsx:552 | playing starts, and nothing else changes |
| Match.GameView.Pause | components/GameView.tsx:556 | playing stops, and nothing else changes |
| Match.GameView.AddLog | components/GameView.tsx:55-64 | addLog, as Logged |
| Match.GameView.TriggerEmotion | components/GameView.tsx:98-108 | triggerEmotion, as Triggered |
| Match.GameView.RevertEmotion | components/GameView.tsx:102 | the revert timer, as Reverted |
| Match.GameView.ClearTactic | components/GameView.tsx:182 | the banner timer, as Cleared |
| Match.GameView.PostChat | components/GameView.tsx:240-242 | a chat timer, as Posted |
| Match.GameView.ShowMove | components/GameView.tsx:143-185 | guide, banner and highlights, as Guided |
| Match.GameView.PlaceMove | components/GameView.tsx:186-188 | game, board text and move log, as Placed |
| Match.GameView.Emote | components/GameView.tsx:222-224 | both emotions, as Emoted |
| Match.GameView.Chat | components/GameView.tsx:226-258 | the conversation queued, as Scheduled, and whether the turn got past it |
| Match.GameView.CloseIfOver | components/GameView.tsx:260-267 | the closing, as Closed |
| Match.GameView.PlayMove | components/GameView.tsx:143-267 | the steps of an applied move, composed as AfterMove |
| Match.GameView.Turn | components/GameView.tsx:110-274 | makeMove: the new screen and the posted commands are those of AfterTurn |
| Match.GameView.RunTurn | components/GameView.tsx:113-273 | makeMove past its guard, as AfterTurn |

## Left out

- The chess rules library is not modelled: legality, FEN and SAN generation, `board()`, `get`, `move`, history. Its answers are inputs. `rules` and `bySan` stand for the library's two `move` calls on the copy; a throw is the `Threw` answer.
- History length is a free input. The copy rebuilt from a FEN at components/GameView.tsx:128 may make the opening branch shadow the outburst in practice; the model neither asserts nor excludes that.
- Loading and driving the engine worker is not modelled: fetch, Blob, Worker, the "uci"/"uciok" handshake (services/stockfishService.ts:18-36), `terminate`, and the search itself. The worker's existence is the `hasWorker` input, and its replies are a message sequence.
- Timer delays and their interleaving are not modelled. Pending reverts, the banner clear and chat lines are events that fire through their own methods; the 500 and 1500 delays are kept as data only.
- Match.GameView.Reset: runs the reset effect on a live screen, keeping the pending chat lines and banner timer, which `PostChat` and `ClearTactic` may then fire into the fresh log. The app never does this: the effect runs only when the view mounts, with nothing pending, and the reset button unmounts the view instead (App.tsx:68-70, :94). Unmounting is not modelled.
- The pacing effect of components/GameView.tsx:276-281, which calls `makeMove` 1200 ms after each change, is not modelled; each call is one `Turn`.
- The request to the engine and its answer happen in one step of the model (`Turn`). In the source, a reset, a pause or a timer can run during the `await` at components/GameView.tsx:125, after the guard of line 111; such an interleaving with a request in flight is not represented.
- Match.GameView.Turn: requires a numeric engine score (`NumericEvaluation`). A "score cp" token that `parseInt` reads as NaN makes the source compute a NaN bar, which the real-valued model does not represent.
- Match.AfterTurn: carries the same numeric-score requirement as Turn.
- Match.GameView.RunTurn: carries the same numeric-score requirement as Turn.
- JavaScript `number` arithmetic runs on unbounded integers and exact reals. There is no IEEE rounding, and `parseInt` is not limited to 2^53.
- Dialogue.Generate: fills templates with the corrected literal `Fill`, not the `$`-expanding JavaScript `replace` of services/dialogueGenerator.ts:57-59, so the conversation of `Match.Converse`, `Match.AfterTurn` and `Match.GameView.Turn` is that of the corrected program. The two agree whenever neither the name nor the relationship holds a `$` (`Dialogue.FillAsWrittenAgrees`); the difference is the row under "## Findings".
- Dialogue.Generate: an empty generic list is modelled as the throw it causes (None), which ends the turn before the game-over message. It is not excluded by a precondition.
- Lookups by inherited object keys (a relationship named like an Object prototype member) are not modelled; the tables are maps.
- Log entry ids (random base-36) and timestamps are not modelled.
- The `'기물'` fallback for an unknown piece letter cannot arise, because piece kinds form a closed type.
- The phrase tables of data/dialogues.ts and data/relationships.ts are not modelled; they import content that is not available. They are the `PhraseBook` input, so facts about particular labels (such as "무관심" having no lines) are stated only through pool emptiness.
- Rendering is not modelled: JSX, CSS classes, `getAvatarClass`, tactic colours, the board and overlay markup, the log auto-scroll, components/PlayerSetup.tsx and components/Button.tsx. The banner colour text of a tactic is not kept.
- `console.error` on a failed turn has no log effect in the source and none in the model.

## Findings

| source | as written | input that shows it | evidently intended | confidence | as-written member | corrected member |
|---|---|---|---|---|---|---|
| services/dialogueGenerator.ts:57-59 | `replace` with a string replacement expands `$&`, `$$`, `` $` `` and `$'` inside the inserted player name | template "{name}" with opponent name "$&" shows "{name}" instead of "$&" | the name and relationship inserted literally | not executed | Dialogue.FillAsWrittenCounterexample | Dialogue.FillTemplate |
