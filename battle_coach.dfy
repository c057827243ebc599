/** components/BattleCoach.tsx: tactic detection on the latest user line and the silence warning. */
module BattleCoach {
  import opened Wrappers
  import opened Text
  import opened Types

  datatype Combo = PerfectMirroring | TacticalLabeling

  datatype Hint = SyncBoost | SignalLoss

  datatype HintType = NeutralHint | Warning | SuccessHint

  const LabelPhrases: seq<string> := ["it seems like", "it sounds like", "wydaje się, że", "brzmi to jak"]

  /** Milliseconds of silence before the warning. */
  const SilenceLimitMs: int := 5000

  predicate FinalUser(t: TranscriptItem) {
    t.role == User && !t.isPartial
  }

  /** The index of the latest final user item: `[...transcript].reverse().find(...)`. */
  function LastFinalUser(transcript: seq<TranscriptItem>): (k: Option<nat>)
    ensures k.Some? ==> (k.value < |transcript| && FinalUser(transcript[k.value])
      && forall j :: k.value < j < |transcript| ==> !FinalUser(transcript[j]))
    ensures k.None? ==> forall j :: 0 <= j < |transcript| ==> !FinalUser(transcript[j])
  {
    if transcript == [] then None
    else if FinalUser(transcript[|transcript| - 1]) then Some(|transcript| - 1)
    else LastFinalUser(transcript[..|transcript| - 1])
  }

  /** A user word the mirroring test keeps: spoken by the AI too, and longer than three UTF-16 code units. */
  predicate Shared(w: string, aiWords: seq<string>) {
    w in aiWords && Utf16Length(w) > 3
  }

  /** `userWords.filter(w => aiWords.includes(w) && w.length > 3)`. */
  function Overlap(userWords: seq<string>, aiWords: seq<string>): (r: seq<string>)
    ensures |r| <= |userWords|
    ensures forall w :: w in r <==> w in userWords && Shared(w, aiWords)
  {
    if userWords == [] then []
    else (if Shared(userWords[0], aiWords) then [userWords[0]] else []) + Overlap(userWords[1..], aiWords)
  }

  predicate Labels(text: string) {
    exists p :: p in LabelPhrases && Contains(text, p)
  }

  /** The mirroring test on the lower-cased user text: a question, with the item before
      the last one spoken by the AI, sharing at least two words longer than three code units. */
  predicate Mirrors(transcript: seq<TranscriptItem>, text: string) {
    && EndsWith(text, "?")
    && |transcript| > 1
    && transcript[|transcript| - 2].role == Ai
    && |Overlap(Split(ReplaceFirst(text, '?'), ' '), Split(ToLower(transcript[|transcript| - 2].text), ' '))| >= 2
  }

  /** The combo detected for the current transcript, if any. */
  function DetectTactic(transcript: seq<TranscriptItem>): (r: Option<Combo>)
  {
    match LastFinalUser(transcript)
    case None => None
    case Some(k) =>
      var text := ToLower(transcript[k].text);
      var labelled := Contains(text, LabelPhrases[0]) || Contains(text, LabelPhrases[1])
        || Contains(text, LabelPhrases[2]) || Contains(text, LabelPhrases[3]);
      if labelled then Some(TacticalLabeling)
      else if Mirrors(transcript, text) then Some(PerfectMirroring)
      else None
  }

  /** What `DetectTactic` finds: labeling overrides mirroring, and nothing without a final user line. */
  lemma DetectTacticMeaning(transcript: seq<TranscriptItem>)
    ensures var r := DetectTactic(transcript);
      LastFinalUser(transcript).None? ==> r.None?
    ensures var r := DetectTactic(transcript);
      LastFinalUser(transcript).Some? ==>
      var text := ToLower(transcript[LastFinalUser(transcript).value].text);
      && (Labels(text) <==> r == Some(TacticalLabeling))
      && (r == Some(PerfectMirroring) <==> !Labels(text) && Mirrors(transcript, text))
  {
    if LastFinalUser(transcript).Some? {
      LabelsAnyOfFour(ToLower(transcript[LastFinalUser(transcript).value].text));
    }
  }

  lemma LabelsAnyOfFour(text: string)
    ensures Labels(text) <==> (Contains(text, LabelPhrases[0]) || Contains(text, LabelPhrases[1])
      || Contains(text, LabelPhrases[2]) || Contains(text, LabelPhrases[3]))
  {
    if Labels(text) {
      var p :| p in LabelPhrases && Contains(text, p);
    }
  }

  /** The overlap counts positions, not distinct words: it reaches two exactly when two
      positions of the user's words hold shared words. */
  lemma OverlapTwoPositions(userWords: seq<string>, aiWords: seq<string>)
    ensures |Overlap(userWords, aiWords)| >= 2 <==>
      exists i, j :: 0 <= i < j < |userWords| && Shared(userWords[i], aiWords) && Shared(userWords[j], aiWords)
  {
    if |Overlap(userWords, aiWords)| >= 2 {
      TwoFromOverlap(userWords, aiWords);
    }
    if exists i, j :: 0 <= i < j < |userWords| && Shared(userWords[i], aiWords) && Shared(userWords[j], aiWords) {
      var i, j :| 0 <= i < j < |userWords| && Shared(userWords[i], aiWords) && Shared(userWords[j], aiWords);
      OverlapFromTwo(userWords, aiWords, i, j);
    }
  }

  lemma {:induction false} TwoFromOverlap(userWords: seq<string>, aiWords: seq<string>)
    requires |Overlap(userWords, aiWords)| >= 2
    ensures exists i, j :: 0 <= i < j < |userWords| && Shared(userWords[i], aiWords) && Shared(userWords[j], aiWords)
  {
    var rest := Overlap(userWords[1..], aiWords);
    if Shared(userWords[0], aiWords) {
      var w := rest[0];
      assert w in rest;
      var j :| 0 <= j < |userWords[1..]| && userWords[1..][j] == w;
      assert userWords[j + 1] == w;
    } else {
      TwoFromOverlap(userWords[1..], aiWords);
      var i, j :| 0 <= i < j < |userWords[1..]| && Shared(userWords[1..][i], aiWords) && Shared(userWords[1..][j], aiWords);
      assert userWords[i + 1] == userWords[1..][i] && userWords[j + 1] == userWords[1..][j];
    }
  }

  lemma {:induction false} OverlapFromTwo(userWords: seq<string>, aiWords: seq<string>, i: nat, j: nat)
    requires i < j < |userWords| && Shared(userWords[i], aiWords) && Shared(userWords[j], aiWords)
    ensures |Overlap(userWords, aiWords)| >= 2
  {
    var rest := Overlap(userWords[1..], aiWords);
    if i == 0 {
      assert userWords[1..][j - 1] == userWords[j];
      assert userWords[j] in rest;
    } else {
      OverlapFromTwo(userWords[1..], aiWords, i - 1, j - 1);
    }
  }

  /** `[...transcript].reverse().find(...)`, as a walk back from the end. */
  method FindLastFinalUser(transcript: seq<TranscriptItem>) returns (k: Option<nat>)
    ensures k == LastFinalUser(transcript)
  {
    var n := |transcript|;
    while n > 0 && !FinalUser(transcript[n - 1])
      invariant 0 <= n <= |transcript|
      invariant LastFinalUser(transcript[..n]) == LastFinalUser(transcript)
    {
      assert transcript[..n][..n - 1] == transcript[..n - 1];
      n := n - 1;
    }
    if n == 0 {
      return None;
    }
    assert transcript[..n][n - 1] == transcript[n - 1];
    k := Some(n - 1);
  }

  /** The detection effect's steps in the order it runs them: mirroring first, then labeling overrides it. */
  method Detect(transcript: seq<TranscriptItem>) returns (r: Option<Combo>)
    ensures r == DetectTactic(transcript)
  {
    var found := FindLastFinalUser(transcript);
    if found.None? {
      return None;
    }
    var text := ToLower(transcript[found.value].text);
    r := None;
    if Mirrors(transcript, text) {
      r := Some(PerfectMirroring);
    }
    if Contains(text, LabelPhrases[0]) || Contains(text, LabelPhrases[1])
      || Contains(text, LabelPhrases[2]) || Contains(text, LabelPhrases[3])
    {
      r := Some(TacticalLabeling);
    }
  }

  /** The coach overlay's state: the hint line, its style, the combo banner and the silence start. */
  class Coach {
    var hint: Option<Hint>
    var hintType: HintType
    var combo: Option<Combo>
    var silenceStart: Option<int>

    constructor ()
      ensures hint == None && hintType == NeutralHint && combo == None && silenceStart == None
    {
      hint, hintType, combo, silenceStart := None, NeutralHint, None, None;
    }

    /** The detection effect, run when the transcript changes. */
    method OnTranscript(transcript: seq<TranscriptItem>)
      modifies this
      ensures var d := DetectTactic(transcript);
        && combo == (if d.Some? then d else old(combo))
        && hint == (if d.Some? then Some(SyncBoost) else old(hint))
        && hintType == (if d.Some? then SuccessHint else old(hintType))
        && silenceStart == old(silenceStart)
    {
      var detected := Detect(transcript);
      if detected.Some? {
        combo := detected;
        hint := Some(SyncBoost);
        hintType := SuccessHint;
      }
    }

    /** The 4-second timeout after a combo. */
    method OnComboTimeout()
      modifies this
      ensures combo == None && hint == None
      ensures hintType == old(hintType) && silenceStart == old(silenceStart)
    {
      combo := None;
      hint := None;
    }

    /** The silence effect at time `now` (milliseconds). */
    method OnSilenceCheck(isAiSpeaking: bool, isUserSpeaking: bool, transcript: seq<TranscriptItem>, now: int)
      modifies this
      ensures isAiSpeaking || isUserSpeaking ==>
        silenceStart == None && hint == None && hintType == old(hintType) && combo == old(combo)
      ensures !isAiSpeaking && !isUserSpeaking ==>
        && silenceStart == Some(old(silenceStart).GetOr(now))
        && combo == old(combo)
        && (if now - silenceStart.value > SilenceLimitMs && |transcript| > 0 && transcript[|transcript| - 1].role == Ai
            then hint == Some(SignalLoss) && hintType == Warning
            else hint == old(hint) && hintType == old(hintType))
    {
      if !isAiSpeaking && !isUserSpeaking {
        if silenceStart.None? {
          silenceStart := Some(now);
        }
        // (now - start) / 1000 > 5, over exact reals
        if (now - silenceStart.value) as real / 1000.0 > 5.0 && |transcript| > 0 && transcript[|transcript| - 1].role == Ai {
          hint := Some(SignalLoss);
          hintType := Warning;
        }
      } else {
        silenceStart := None;
        hint := None;
      }
    }
  }
}
