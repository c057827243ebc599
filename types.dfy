/** The records and enumerations of types.ts that the modelled code reads and writes. */
module Types {
  import opened Wrappers

  datatype Language = En | Pl

  datatype Difficulty = Easy | Medium | Hard | Extreme

  /** Background ambience presets. */
  datatype Preset = Quiet | Office | Intense

  datatype Scenario = Scenario(
    id: string,
    name: string,
    description: string,
    systemInstruction: string,
    difficulty: Difficulty,
    voiceName: Option<string>,
    /** Declared required, but analysis falls back when it is missing. */
    objectives: Option<seq<string>>,
    durationMinutes: nat,
    ambience: Option<Preset>,
    /** An absent `isDaily` reads as false wherever it is read. */
    isDaily: bool)

  datatype ConnectionState = Disconnected | Connecting | Connected | Error

  datatype InputMode = VAD | PTT

  datatype Role = User | Ai

  /** The `id` string `${role}-${now}-${Math.random()}`, kept as its three parts. */
  datatype ItemId = ItemId(role: Role, createdAt: int, nonce: real)

  datatype TranscriptItem = TranscriptItem(id: ItemId, role: Role, text: string, isPartial: bool, timestamp: int)

  datatype Metrics = Metrics(clarity: int, persuasion: int, empathy: int, resilience: int)

  datatype Outcome = Success | Failure | Neutral

  datatype CriticalMoment = CriticalMoment(quote: string, feedback: string, positive: bool)
  datatype ObjectiveResult = ObjectiveResult(objective: string, completed: bool, feedback: string)
  datatype Suggestion = Suggestion(context: string, userSaid: string, betterResponse: string, reason: string)
  datatype SentimentPoint = SentimentPoint(segment: string, score: int, reason: string)

  datatype AnalysisResult = AnalysisResult(
    score: int,
    metrics: Metrics,
    feedback: string,
    strengths: seq<string>,
    improvements: seq<string>,
    criticalMoments: seq<CriticalMoment>,
    objectiveResults: seq<ObjectiveResult>,
    suggestions: seq<Suggestion>,
    sentimentTrend: seq<SentimentPoint>,
    outcome: Outcome)

  /** A saved history row: the analysis plus the fields saveHistory adds.
      The `id` is `Date.now().toString()`, kept as the number. */
  datatype HistoryEntry = HistoryEntry(result: AnalysisResult, id: int, scenarioName: string, timestamp: int, feedbackShort: string)

  /** The `lastPlayedDate` string: `''`, or an ISO day kept as a day number. */
  datatype PlayDate = Blank | Day(n: int)

  datatype UserProfile = UserProfile(
    xp: int,
    level: int,
    title: string,
    activeTitle: Option<string>,
    battlesWon: nat,
    battlesLost: nat,
    achievements: seq<string>,
    skills: seq<string>,
    skillPoints: int,
    currentStreak: nat,
    lastPlayedDate: PlayDate)

  datatype Achievement = Achievement(id: string, name: string)

  datatype Skill = Skill(id: string, cost: nat)

  datatype BossMood = Analytical | Impatient | Impressed | MoodNeutral

  datatype InsightKind = Positive | Negative | NeutralInsight

  datatype TacticalInsight = TacticalInsight(text: string, kind: InsightKind, mood: Option<BossMood>, timestamp: int)
}
