/**
 * The setup screen state of App.tsx: two player profiles, the mutual
 * relationship switch, and the sync of relationship labels through the
 * reciprocal map while the switch is on.
 */
module Setup {
  import opened Types
  import Constants

  /** The first player as the app starts. */
  const InitialPlayer1: PlayerProfile :=
    PlayerProfile("p1", "앨리스", INTJ, "라이벌", "https://picsum.photos/200", 50)

  /** The second player as the app starts. */
  const InitialPlayer2: PlayerProfile :=
    PlayerProfile("p2", "밥", ESFP, "라이벌", "https://picsum.photos/201", 50)

  datatype Step = SetupStep | GameStep

  /** One `(field, value)` edit of a profile. */
  datatype FieldUpdate =
    | SetId(id: string)
    | SetName(name: string)
    | SetMbti(mbti: MBTI)
    | SetRelationship(relationship: string)
    | SetAvatarUrl(avatarUrl: string)
    | SetElo(elo: int)

  /** `{ ...prev, [field]: value }`: the edited field takes the value, the others stay. */
  function Apply(p: PlayerProfile, u: FieldUpdate): (q: PlayerProfile)
    ensures u.SetId? ==> q == p.(id := u.id)
    ensures u.SetName? ==> q == p.(name := u.name)
    ensures u.SetMbti? ==> q == p.(mbti := u.mbti)
    ensures u.SetRelationship? ==> q == p.(relationship := u.relationship)
    ensures u.SetAvatarUrl? ==> q == p.(avatarUrl := u.avatarUrl)
    ensures u.SetElo? ==> q == p.(elo := u.elo)
  {
    match u
    case SetId(v) => p.(id := v)
    case SetName(v) => p.(name := v)
    case SetMbti(v) => p.(mbti := v)
    case SetRelationship(v) => p.(relationship := v)
    case SetAvatarUrl(v) => p.(avatarUrl := v)
    case SetElo(v) => p.(elo := v)
  }

  /**
   * The other player's profile after an edit: in mutual mode a relationship
   * edit rewrites the other label to the reciprocal; nothing else touches it.
   */
  function Partner(other: PlayerProfile, u: FieldUpdate, isMutual: bool): (q: PlayerProfile)
    ensures isMutual && u.SetRelationship? ==> q == other.(relationship := Constants.Reciprocal(u.relationship))
    ensures !(isMutual && u.SetRelationship?) ==> q == other
  {
    if isMutual && u.SetRelationship? then other.(relationship := Constants.Reciprocal(u.relationship)) else other
  }

  /** Both labels agree through the reciprocal map, read from either side. */
  predicate Consistent(p1: PlayerProfile, p2: PlayerProfile) {
    p2.relationship == Constants.Reciprocal(p1.relationship)
  }

  /** Consistency does not depend on which player is read first. */
  lemma ConsistentSymmetric(p1: PlayerProfile, p2: PlayerProfile)
    ensures Consistent(p1, p2) <==> Consistent(p2, p1)
  {
    Constants.ReciprocalInvolution(p1.relationship);
    Constants.ReciprocalInvolution(p2.relationship);
  }

  /** An edit of either player in mutual mode leaves the two labels consistent. */
  lemma EditKeepsConsistent(p1: PlayerProfile, p2: PlayerProfile, u: FieldUpdate)
    requires Consistent(p1, p2)
    ensures Consistent(Apply(p1, u), Partner(p2, u, true))
    ensures Consistent(Partner(p1, u, true), Apply(p2, u))
  {
    if u.SetRelationship? {
      Constants.ReciprocalInvolution(u.relationship);
    }
  }

  /** The two starting players are already consistent: "라이벌" is its own reciprocal. */
  lemma InitialConsistent()
    ensures Consistent(InitialPlayer1, InitialPlayer2)
    ensures Consistent(InitialPlayer2, InitialPlayer1)
  {
    assert Constants.MutualRelationshipMap["라이벌"] == "라이벌";
  }

  class App {
    var step: Step
    var player1: PlayerProfile
    var player2: PlayerProfile
    var isMutual: bool

    /** In mutual mode the labels are kept reciprocal. */
    predicate Valid()
      reads this
    {
      isMutual ==> Consistent(player1, player2)
    }

    constructor ()
      ensures Valid()
      ensures step == SetupStep && player1 == InitialPlayer1 && player2 == InitialPlayer2 && isMutual
    {
      step := SetupStep;
      player1 := InitialPlayer1;
      player2 := InitialPlayer2;
      isMutual := true;
      InitialConsistent();
    }

    /** updatePlayer1. */
    method UpdatePlayer1(u: FieldUpdate)
      requires Valid()
      modifies this`player1, this`player2
      ensures Valid()
      ensures player1 == Apply(old(player1), u)
      ensures player2 == Partner(old(player2), u, isMutual)
    {
      player1 := Apply(player1, u);
      if isMutual && u.SetRelationship? {
        var reciprocal := Constants.Reciprocal(u.relationship);
        player2 := player2.(relationship := reciprocal);
      }
      if isMutual {
        EditKeepsConsistent(old(player1), old(player2), u);
      }
    }

    /** updatePlayer2: the same edit from the other side. */
    method UpdatePlayer2(u: FieldUpdate)
      requires Valid()
      modifies this`player1, this`player2
      ensures Valid()
      ensures player2 == Apply(old(player2), u)
      ensures player1 == Partner(old(player1), u, isMutual)
    {
      player2 := Apply(player2, u);
      if isMutual && u.SetRelationship? {
        var reciprocal := Constants.Reciprocal(u.relationship);
        player1 := player1.(relationship := reciprocal);
      }
      if isMutual {
        EditKeepsConsistent(old(player1), old(player2), u);
      }
    }

    /**
     * toggleRelationshipMode: switching on rewrites the second label to the
     * reciprocal of the first; switching off changes neither profile.
     */
    method ToggleRelationshipMode()
      modifies this`isMutual, this`player2
      ensures Valid()
      ensures isMutual == !old(isMutual)
      ensures player2 == (if isMutual then old(player2).(relationship := Constants.Reciprocal(player1.relationship)) else old(player2))
    {
      var newMode := !isMutual;
      isMutual := newMode;
      if newMode {
        var reciprocal := Constants.Reciprocal(player1.relationship);
        player2 := player2.(relationship := reciprocal);
      }
    }

    method StartGame()
      modifies this`step
      ensures step == GameStep
    {
      step := GameStep;
    }

    method ResetGame()
      modifies this`step
      ensures step == SetupStep
    {
      step := SetupStep;
    }
  }
}
