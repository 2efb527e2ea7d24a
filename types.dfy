/** The records of types.ts: personality types, emotions, player profiles and log entries. */
module Types {

  datatype Option<+T> = None | Some(value: T)

  /** The sixteen personality types (types.ts, enum MBTI). */
  datatype MBTI =
    | INTJ | INTP | ENTJ | ENTP
    | INFJ | INFP | ENFJ | ENFP
    | ISTJ | ISFJ | ESTJ | ESFJ
    | ISTP | ISFP | ESTP | ESFP

  /** The emotion tags an avatar can show. */
  datatype Emotion = Neutral | Happy | Sad | Angry | Fearful | Anxious

  /** A participant as set up before the match; `elo` is the 1..100 engine strength. */
  datatype PlayerProfile = PlayerProfile(
    id: string,
    name: string,
    mbti: MBTI,
    relationship: string,
    avatarUrl: string,
    elo: int)

  datatype LogKind = MoveLog | ChatLog | SystemLog

  /** One line of the match log. The source's random id and wall-clock timestamp are not kept. */
  datatype GameLogEntry = GameLogEntry(
    playerId: string,
    message: string,
    kind: LogKind,
    emotion: Option<Emotion>)
}
