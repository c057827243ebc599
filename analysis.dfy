/** utils/analysis.ts: the dialogue handed to the analysis model, the prompt
    around it, and the fallback report when the model call or its JSON fails.
    The model itself is a parameter: a function from prompt to parsed reply. */
module Analysis {
  import opened Wrappers
  import opened Text
  import opened Types

  const NoConversation: string := "No conversation to analyze."

  const DefaultObjectives: seq<string> := ["Maintain professionalism", "Communicate clearly", "Achieve the goal"]

  /** The transcript filter: final items whose text is not blank. */
  predicate Kept(t: TranscriptItem) {
    !t.isPartial && Trim(t.text) != []
  }

  /** Some item of the transcript makes it into the dialogue. */
  predicate HasConversation(transcript: seq<TranscriptItem>) {
    exists t :: t in transcript && Kept(t)
  }

  function Speaker(role: Role): string {
    if role == User then "Employee" else "Boss"
  }

  function Line(t: TranscriptItem): (line: string)
    ensures |line| > |t.text| && EndsWith(line, t.text)
  {
    Speaker(t.role) + ": " + t.text
  }

  /** The kept items, in transcript order. */
  function DialogueItems(transcript: seq<TranscriptItem>): (r: seq<TranscriptItem>)
    ensures |r| <= |transcript|
    ensures forall t :: t in r <==> t in transcript && Kept(t)
  {
    if transcript == [] then []
    else (if Kept(transcript[0]) then [transcript[0]] else []) + DialogueItems(transcript[1..])
  }

  /** Filtering keeps transcript order: it distributes over concatenation. */
  lemma {:induction false} DialogueItemsAppend(a: seq<TranscriptItem>, b: seq<TranscriptItem>)
    ensures DialogueItems(a + b) == DialogueItems(a) + DialogueItems(b)
  {
    if a == [] {
      assert a + b == b;
    } else {
      assert (a + b)[1..] == a[1..] + b;
      DialogueItemsAppend(a[1..], b);
    }
  }

  function Lines(items: seq<TranscriptItem>): (r: seq<string>)
    ensures |r| == |items| && forall i :: 0 <= i < |items| ==> r[i] == Line(items[i])
  {
    seq(|items|, i requires 0 <= i < |items| => Line(items[i]))
  }

  /** The dialogue: one line per kept item, joined by newlines. */
  function Dialogue(transcript: seq<TranscriptItem>): string {
    Join(Lines(DialogueItems(transcript)), "\n")
  }

  /** The dialogue is empty exactly when no item survives the filter. */
  lemma DialogueEmptyIff(transcript: seq<TranscriptItem>)
    ensures Dialogue(transcript) == [] <==> forall t :: t in transcript ==> !Kept(t)
  {
    var items := DialogueItems(transcript);
    JoinEmpty(Lines(items), "\n");
    if items != [] {
      assert Lines(items)[0] != [];
      assert items[0] in transcript && Kept(items[0]);
    }
  }

  /** `scenario.objectives || [defaults]`: an empty list is kept, only a missing one defaults. */
  function Objectives(scenario: Scenario): (r: seq<string>)
    ensures scenario.objectives.Some? ==> r == scenario.objectives.value
    ensures scenario.objectives.None? ==> r == DefaultObjectives
  {
    scenario.objectives.GetOr(DefaultObjectives)
  }

  function ObjectiveLines(objectives: seq<string>): (r: seq<string>)
    ensures |r| == |objectives|
    ensures forall i :: 0 <= i < |r| ==> r[i] == NatToString(i + 1) + ". " + objectives[i]
  {
    seq(|objectives|, i requires 0 <= i < |objectives| => NatToString(i + 1) + ". " + objectives[i])
  }

  /** Objective `i` is numbered `i + 1`: the digits before the first `.` read back as `i + 1`. */
  lemma ObjectiveNumbering(objectives: seq<string>, i: nat)
    requires i < |objectives|
    ensures var line := ObjectiveLines(objectives)[i];
      var k := IndexOf(line, '.');
      && k < |line|
      && (forall j :: 0 <= j < k ==> IsDigit(line[j]))
      && ParseDigits(line[..k]) == i + 1
  {
    var line := ObjectiveLines(objectives)[i];
    var digits := NatToString(i + 1);
    assert line == digits + ['.'] + ([' '] + objectives[i]);
    IndexOfAfterDigits(digits, [' '] + objectives[i]);
    NatToStringRoundTrip(i + 1);
  }

  function LanguageName(lang: Language): string {
    if lang == Pl then "Polish" else "English"
  }

  /** The parts of the prompt that depend on the battle (the template text around them is left out). */
  datatype Prompt = Prompt(scenarioName: string, context: string, languageName: string, objectives: seq<string>, dialogue: string)

  /** What `generateAnalysis` sends, or the error it throws before calling the model. */
  function AnalysisRequest(transcript: seq<TranscriptItem>, scenario: Scenario, lang: Language): (r: Result<Prompt, string>)
    ensures r.Err? <==> !HasConversation(transcript)
    ensures r.Err? ==> r.error == NoConversation
    ensures r.Ok? ==> r.value.dialogue == Dialogue(transcript) && r.value.objectives == ObjectiveLines(Objectives(scenario))
    ensures r.Ok? ==> r.value.languageName == (if lang == Pl then "Polish" else "English")
  {
    var dialogue := Dialogue(transcript);
    DialogueEmptyIff(transcript);
    if dialogue == [] then Err(NoConversation)
    else Ok(Prompt(scenario.name, scenario.description, LanguageName(lang), ObjectiveLines(Objectives(scenario)), dialogue))
  }

  /** The report returned when the call, an empty reply or the JSON parse fails. */
  function Fallback(lang: Language): (r: AnalysisResult)
    ensures r.score == 0 && r.metrics == Metrics(0, 0, 0, 0) && r.outcome == Neutral
    ensures r.strengths == [] && r.improvements == [] && r.criticalMoments == [] && r.suggestions == []
    ensures r.sentimentTrend == [] && r.objectiveResults == []
    ensures r.feedback == if lang == Pl then "Nie można wygenerować analizy z powodu błędu." else "Could not generate analysis due to an error."
  {
    AnalysisResult(0, Metrics(0, 0, 0, 0),
      if lang == Pl then "Nie można wygenerować analizy z powodu błędu." else "Could not generate analysis due to an error.",
      [], [], [], [], [], [], Neutral)
  }

  /** `generateAnalysis`; `model` stands for the remote call and the JSON parse, `None` for any failure. */
  function GenerateAnalysis(transcript: seq<TranscriptItem>, scenario: Scenario, lang: Language,
                            model: Prompt -> Option<AnalysisResult>): (r: Result<AnalysisResult, string>)
    ensures !HasConversation(transcript) ==> r == Err(NoConversation)
    ensures HasConversation(transcript) ==>
      var prompt := AnalysisRequest(transcript, scenario, lang).value;
      r == Ok(if model(prompt).Some? then model(prompt).value else Fallback(lang))
  {
    match AnalysisRequest(transcript, scenario, lang)
    case Err(e) => Err(e)
    case Ok(prompt) => Ok(model(prompt).GetOr(Fallback(lang)))
  }
}
