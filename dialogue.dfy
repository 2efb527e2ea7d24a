/**
 * The chat line generator of services/dialogueGenerator.ts: a player may stay
 * silent, otherwise a template is drawn from their personality's lines or
 * from their relationship's lines and the two placeholders are filled in.
 */
module Dialogue {
  import opened Types
  import opened Strings
  import Constants

  /** The keys of a DialogueSet: the game situations and the emotions. */
  datatype Situation =
    Opening | Check | Capture | Winning | Losing | Generic | Happy | Sad | Angry | Fearful | Anxious

  /** A set of chat templates; a situation without an entry is undefined in the source. */
  type DialogueSet = map<Situation, seq<string>>

  /**
   * The phrase data the generator reads: lines per personality type and per
   * relationship label. The data files are inputs of this model.
   */
  datatype PhraseBook = PhraseBook(byType: map<MBTI, DialogueSet>, byRelationship: map<string, DialogueSet>)

  /** A value of Math.random(). */
  type Unit = r: real | 0.0 <= r < 1.0

  /** The three random draws one call may make: silence, pool choice, template pick. */
  datatype Draws = Draws(silence: Unit, pool: Unit, pick: Unit)

  function RMin(x: real, y: real): real { if x <= y then x else y }

  predicate IsEmotional(s: Situation) {
    s in {Situation.Happy, Situation.Sad, Situation.Angry, Situation.Fearful}
  }

  /** The speaking threshold: the type's chat frequency, half again for the emotions. */
  function Threshold(m: MBTI, s: Situation): real {
    if IsEmotional(s) then Constants.Traits(m).chatFrequency * 1.5 else Constants.Traits(m).chatFrequency
  }

  /** The draw above the (capped) threshold silences only generic chatter. */
  predicate StaysSilent(m: MBTI, s: Situation, r: Unit) {
    r > RMin(Threshold(m, s), 0.95) && s == Generic
  }

  /**
   * The raised threshold of the emotions is never consulted: silence needs
   * the generic situation, whose threshold is the plain chat frequency.
   */
  lemma EmotionalThresholdUnused(m: MBTI, s: Situation, r: Unit)
    ensures StaysSilent(m, s, r) <==> s == Generic && r > RMin(Constants.Traits(m).chatFrequency, 0.95)
    ensures IsEmotional(s) ==> !StaysSilent(m, s, r)
  {
  }

  /** `set?.[s] || []`: the lines for s, or none. */
  function Quotes(d: Option<DialogueSet>, s: Situation): seq<string> {
    if d.Some? && s in d.value then d.value[s] else []
  }

  function TypeSet(book: PhraseBook, m: MBTI): Option<DialogueSet> {
    if m in book.byType then Some(book.byType[m]) else None
  }

  function RelationshipSet(book: PhraseBook, relationship: string): Option<DialogueSet> {
    if relationship in book.byRelationship then Some(book.byRelationship[relationship]) else None
  }

  /**
   * The pool of lines 28-46: with both pools non-empty the personality's wins
   * three times in four, otherwise whichever is non-empty.
   */
  function ChosenPool(book: PhraseBook, m: MBTI, s: Situation, relationship: string, pool: Unit): (t: seq<string>)
    ensures var mq := Quotes(TypeSet(book, m), s); var rq := Quotes(RelationshipSet(book, relationship), s);
      && (t == [] <==> mq == [] && rq == [])
      && (mq != [] && (rq == [] || pool < 0.75) ==> t == mq)
      && (rq != [] && (mq == [] || pool >= 0.75) ==> t == rq)
  {
    var mbtiQuotes := Quotes(TypeSet(book, m), s);
    var relQuotes := Quotes(RelationshipSet(book, relationship), s);
    if |mbtiQuotes| > 0 && |relQuotes| > 0 then
      (if pool < 0.75 then mbtiQuotes else relQuotes)
    else if |mbtiQuotes| > 0 then mbtiQuotes
    else if |relQuotes| > 0 then relQuotes
    else []
  }

  /**
   * The templates drawn from: the chosen pool, or else the personality's
   * generic lines when they are defined (possibly an empty list); None when
   * there is nothing to fall back on and the generator answers "".
   */
  function Templates(book: PhraseBook, m: MBTI, s: Situation, relationship: string, pool: Unit): (t: Option<seq<string>>)
    ensures ChosenPool(book, m, s, relationship, pool) != [] ==> t == Some(ChosenPool(book, m, s, relationship, pool))
    ensures ChosenPool(book, m, s, relationship, pool) == [] ==>
      (t.Some? <==> TypeSet(book, m).Some? && Generic in TypeSet(book, m).value)
    ensures t.Some? && t.value == [] ==> ChosenPool(book, m, s, relationship, pool) == []
  {
    var templates := ChosenPool(book, m, s, relationship, pool);
    if |templates| != 0 then Some(templates)
    else match TypeSet(book, m)
      case Some(lines) => if Generic in lines then Some(lines[Generic]) else None
      case None => None
  }

  /** `Math.floor(r * n)`: always an index of a list of n elements. */
  function PickIndex(r: Unit, n: nat): (i: nat)
    requires n > 0
    ensures i < n
    ensures i as real <= r * n as real < i as real + 1.0
  {
    assert 0.0 <= r * n as real by {
      assert 0.0 <= r && 0.0 < n as real;
    }
    assert r * n as real < n as real by {
      assert (1.0 - r) * n as real > 0.0;
    }
    (r * n as real).Floor
  }

  /** The interpolation with both placeholders inserted literally. */
  function Fill(template: string, opponentName: string, relationship: string): string {
    ReplaceFirst(ReplaceFirst(template, "{name}", opponentName), "{relationship}", relationship)
  }

  /** The interpolation as written: JavaScript's replace also expands "$" patterns in the names. */
  function FillAsWritten(template: string, opponentName: string, relationship: string): string {
    JsReplaceFirst(JsReplaceFirst(template, "{name}", opponentName), "{relationship}", relationship)
  }

  /** Names without "$" are inserted the same way by both interpolations. */
  lemma FillAsWrittenAgrees(template: string, opponentName: string, relationship: string)
    requires '$' !in opponentName && '$' !in relationship
    ensures FillAsWritten(template, opponentName, relationship) == Fill(template, opponentName, relationship)
  {
    JsReplaceFirstLiteral(template, "{name}", opponentName);
    JsReplaceFirstLiteral(ReplaceFirst(template, "{name}", opponentName), "{relationship}", relationship);
  }

  /** An opponent named "$&" is shown as the placeholder itself instead of the name. */
  lemma FillAsWrittenCounterexample()
    ensures FillAsWritten("{name}", "$&", "라이벌") == "{name}"
    ensures Fill("{name}", "$&", "라이벌") == "$&"
  {
    DollarAmpersandCounterexample();
    assert !Contains("{name}", "{relationship}");
    assert !Contains("$&", "{relationship}");
  }

  /** A template without placeholders is said as it is. */
  lemma FillPlain(template: string, opponentName: string, relationship: string)
    requires !Contains(template, "{name}") && !Contains(template, "{relationship}")
    ensures Fill(template, opponentName, relationship) == template
  {
    ReplaceFirstAbsent(template, "{name}", opponentName);
    ReplaceFirstAbsent(template, "{relationship}", relationship);
  }

  /** No placeholder can start inside a text without a "{". */
  lemma NoEarlierOccurrence(s: string, p: string, a: string)
    requires |p| > 0 && p[0] == '{' && '{' !in a && |a| <= |s| && s[..|a|] == a
    ensures forall j :: 0 <= j < |a| ==> !OccursAt(s, p, j)
  {
    forall j | 0 <= j < |a| ensures !OccursAt(s, p, j) {
      assert a[j] in a;
      assert s[j] == a[j];
    }
  }

  /**
   * A template "a{name}m{relationship}b" whose text before the second
   * placeholder has no "{" (nor has the name) reads a, the opponent's name,
   * m, the relationship and b.
   */
  lemma FillTemplate(a: string, m: string, b: string, opponentName: string, relationship: string)
    requires '{' !in a && '{' !in m && '{' !in opponentName
    ensures Fill(a + "{name}" + m + "{relationship}" + b, opponentName, relationship)
         == a + opponentName + m + relationship + b
  {
    var s := a + "{name}" + m + "{relationship}" + b;
    var rest := m + "{relationship}" + b;
    assert s == a + "{name}" + rest;
    NoEarlierOccurrence(s, "{name}", a);
    ReplaceFirstAt(s, "{name}", opponentName, a, rest);
    var s1 := a + opponentName + m + "{relationship}" + b;
    assert ReplaceFirst(s, "{name}", opponentName) == s1;
    var front := a + opponentName + m;
    assert s1 == front + "{relationship}" + b;
    assert '{' !in front by {
      assert forall c :: c in front ==> c in a || c in opponentName || c in m;
    }
    NoEarlierOccurrence(s1, "{relationship}", front);
    ReplaceFirstAt(s1, "{relationship}", relationship, front, b);
  }

  /**
   * generateDialogue. "" is the silent answer; None is the call that throws:
   * a defined but empty generic list falls through to `undefined.replace`.
   */
  function Generate(book: PhraseBook, m: MBTI, s: Situation, opponentName: string, relationship: string, d: Draws)
    : (r: Option<string>)
    ensures StaysSilent(m, s, d.silence) ==> r == Some("")
    ensures r.None? <==> !StaysSilent(m, s, d.silence) && Templates(book, m, s, relationship, d.pool) == Some([])
    ensures !StaysSilent(m, s, d.silence) && Templates(book, m, s, relationship, d.pool).None? ==> r == Some("")
    ensures var t := Templates(book, m, s, relationship, d.pool);
      !StaysSilent(m, s, d.silence) && t.Some? && t.value != [] ==>
        exists i :: 0 <= i < |t.value| && r == Some(Fill(t.value[i], opponentName, relationship))
  {
    if StaysSilent(m, s, d.silence) then Some("")
    else match Templates(book, m, s, relationship, d.pool)
      case None => Some("")
      case Some(templates) =>
        if |templates| == 0 then None
        else
          var i := PickIndex(d.pick, |templates|);
          Some(Fill(templates[i], opponentName, relationship))
  }

  /**
   * The call never throws when the personality has at least one generic
   * line, and without any line at all it answers "".
   */
  lemma GenerateTotal(book: PhraseBook, m: MBTI, s: Situation, opponentName: string, relationship: string, d: Draws)
    ensures m in book.byType && Generic in book.byType[m] && book.byType[m][Generic] != []
        ==> Generate(book, m, s, opponentName, relationship, d).Some?
    ensures m !in book.byType && Quotes(RelationshipSet(book, relationship), s) == []
        ==> Generate(book, m, s, opponentName, relationship, d) == Some("")
  {
  }

  /**
   * With lines for the situation in both pools, the personality's pool is
   * used on a draw below 0.75 and the relationship's otherwise: the result
   * is one of that pool's lines, filled in.
   */
  lemma PoolPreference(book: PhraseBook, m: MBTI, s: Situation, opponentName: string, relationship: string, d: Draws)
    requires !StaysSilent(m, s, d.silence)
    requires
      var mq := Quotes(TypeSet(book, m), s);
      var rq := Quotes(RelationshipSet(book, relationship), s);
      mq != [] && rq != []
    ensures var pool := if d.pool < 0.75 then Quotes(TypeSet(book, m), s) else Quotes(RelationshipSet(book, relationship), s);
      exists i :: 0 <= i < |pool| && Generate(book, m, s, opponentName, relationship, d) == Some(Fill(pool[i], opponentName, relationship))
  {
    var pool := if d.pool < 0.75 then Quotes(TypeSet(book, m), s) else Quotes(RelationshipSet(book, relationship), s);
    assert ChosenPool(book, m, s, relationship, d.pool) == pool;
    var i := PickIndex(d.pick, |pool|);
    assert Generate(book, m, s, opponentName, relationship, d) == Some(Fill(pool[i], opponentName, relationship));
  }

  /**
   * Outside the generic situation the silence draw changes nothing: every
   * other situation always gets a line when one exists.
   */
  lemma SilenceDrawIrrelevant(book: PhraseBook, m: MBTI, s: Situation, opponentName: string, relationship: string,
                              d: Draws, silence: Unit)
    requires s != Generic
    ensures Generate(book, m, s, opponentName, relationship, d)
         == Generate(book, m, s, opponentName, relationship, d.(silence := silence))
  {
  }
}
