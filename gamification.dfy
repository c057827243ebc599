/** utils/gamification.ts: levels, titles, XP gain, achievements and the starting profile. */
module Gamification {
  import opened Wrappers
  import opened Types

  const Titles: seq<string> := [
    "Intern", "Probationary", "Associate", "Senior Associate", "Team Lead", "Manager",
    "Director", "VP", "C-Suite", "CEO", "Chairman", "Master Negotiator", "Wolf of AI Street"]

  const XpPerLevel: int := 500

  /** The catalogue, in the order `checkNewAchievements` tests it. */
  const AchievementsList: seq<Achievement> := [
    Achievement("first_blood", "First Blood"),
    Achievement("negotiator", "The Negotiator"),
    Achievement("silver_tongue", "Silver Tongue"),
    Achievement("iron_will", "Iron Will"),
    Achievement("godslayer", "Godslayer"),
    Achievement("resilient", "Resilient"),
    Achievement("veteran", "Veteran"),
    Achievement("streaker", "Consistent")]

  const SkillTree: seq<Skill> := [
    Skill("mirroring_pro", 1), Skill("empathy_shield", 1), Skill("closer", 2),
    Skill("zen_master", 2), Skill("high_roller", 3)]

  /** `Math.floor(xp / 500) + 1`. */
  function CalculateLevel(xp: int): (level: int)
    ensures (level - 1) * XpPerLevel <= xp < level * XpPerLevel
    ensures xp >= 0 ==> level >= 1
  {
    xp / XpPerLevel + 1
  }

  lemma LevelMonotone(a: int, b: int)
    requires a <= b
    ensures CalculateLevel(a) <= CalculateLevel(b)
  {
    var la, lb := CalculateLevel(a), CalculateLevel(b);
    assert (la - 1) * XpPerLevel < lb * XpPerLevel;
  }

  /** `TITLES[min(level - 1, TITLES.length - 1)]`. */
  function GetTitle(level: int): (title: string)
    requires level >= 1
    ensures title in Titles
    ensures level <= |Titles| ==> title == Titles[level - 1]
    ensures level >= |Titles| ==> title == "Wolf of AI Street"
  {
    Titles[if level - 1 < |Titles| - 1 then level - 1 else |Titles| - 1]
  }

  function GetNextLevelXp(level: int): int {
    level * XpPerLevel
  }

  /** The xp `getNextLevelXp` shows is the least xp that reaches the next level. */
  lemma NextLevelXpIsThreshold(level: int, xp: int)
    ensures CalculateLevel(GetNextLevelXp(level)) == level + 1
    ensures xp < GetNextLevelXp(level) ==> CalculateLevel(xp) <= level
  {
    var l := CalculateLevel(GetNextLevelXp(level));
    assert (l - 1) * XpPerLevel <= level * XpPerLevel < l * XpPerLevel;
    if xp < GetNextLevelXp(level) {
      var lx := CalculateLevel(xp);
      assert (lx - 1) * XpPerLevel < level * XpPerLevel;
    }
  }

  function OutcomeBonus(outcome: Outcome): int {
    match outcome
    case Success => 100
    case Failure => 20
    case Neutral => 0
  }

  /** Difficulty multipliers 1, 1.2, 1.5 and 2.0 as exact rationals. */
  function Multiplier(d: Difficulty): (m: real)
    ensures 1.0 <= m <= 2.0
  {
    match d
    case Easy => 1.0
    case Medium => 1.2
    case Hard => 1.5
    case Extreme => 2.0
  }

  function Floor(x: real): int {
    x.Floor
  }

  /** `Math.floor(base * multiplier)`. */
  function Scale(base: int, multiplier: real): int {
    Floor(base as real * multiplier)
  }

  /** The XP a finished battle is worth. */
  function XpGain(score: int, outcome: Outcome, difficulty: Difficulty, isDaily: bool, activeSkills: seq<string>): int {
    var scaled := Scale(2 * score + OutcomeBonus(outcome), Multiplier(difficulty));
    var boosted := if "high_roller" in activeSkills && outcome == Success then Scale(scaled, 1.2) else scaled;
    boosted + (if isDaily then 100 else 0)
  }

  /** `calculateXpGain`, step by step. */
  method CalculateXpGain(score: int, outcome: Outcome, difficulty: Difficulty, isDaily: bool, activeSkills: seq<string>)
    returns (finalXp: int)
    ensures finalXp == XpGain(score, outcome, difficulty, isDaily, activeSkills)
    ensures score >= 0 ==> finalXp >= 2 * score
  {
    var base := score * 2;
    if outcome == Success { base := base + 100; }
    if outcome == Failure { base := base + 20; }
    var multiplier := 1.0;
    if difficulty == Medium { multiplier := 1.2; }
    if difficulty == Hard { multiplier := 1.5; }
    if difficulty == Extreme { multiplier := 2.0; }
    assert base == 2 * score + OutcomeBonus(outcome) && multiplier == Multiplier(difficulty);
    finalXp := Scale(base, multiplier);
    if "high_roller" in activeSkills && outcome == Success {
      finalXp := Scale(finalXp, 1.2);
    }
    if isDaily { finalXp := finalXp + 100; }
    if score >= 0 {
      XpGainAtLeastTwiceScore(score, outcome, difficulty, isDaily, activeSkills);
    }
  }

  lemma XpGainAtLeastTwiceScore(score: int, outcome: Outcome, difficulty: Difficulty, isDaily: bool, activeSkills: seq<string>)
    requires score >= 0
    ensures XpGain(score, outcome, difficulty, isDaily, activeSkills) >= 2 * score
  {
    var base := 2 * score + OutcomeBonus(outcome);
    var scaled := Scale(base, Multiplier(difficulty));
    assert base as real * Multiplier(difficulty) >= base as real;
    assert scaled >= base;
    if "high_roller" in activeSkills && outcome == Success {
      assert scaled as real * 1.2 >= scaled as real;
    }
  }

  /** The daily flag adds exactly 100, after every multiplier. */
  lemma DailyAddsExactlyHundred(score: int, outcome: Outcome, difficulty: Difficulty, activeSkills: seq<string>)
    ensures XpGain(score, outcome, difficulty, true, activeSkills) == XpGain(score, outcome, difficulty, false, activeSkills) + 100
  {
  }

  /** `high_roller` matters only on a win: otherwise the active skills do not change the gain. */
  lemma HighRollerOnlyOnSuccess(score: int, outcome: Outcome, difficulty: Difficulty, isDaily: bool, skills1: seq<string>, skills2: seq<string>)
    requires outcome != Success || (("high_roller" in skills1) == ("high_roller" in skills2))
    ensures XpGain(score, outcome, difficulty, isDaily, skills1) == XpGain(score, outcome, difficulty, isDaily, skills2)
  {
  }

  /** Harder scenarios never pay less for the same non-negative base. */
  lemma HarderPaysMore(score: int, outcome: Outcome, d1: Difficulty, d2: Difficulty, isDaily: bool, activeSkills: seq<string>)
    requires score >= 0
    requires Multiplier(d1) <= Multiplier(d2)
    ensures XpGain(score, outcome, d1, isDaily, activeSkills) <= XpGain(score, outcome, d2, isDaily, activeSkills)
  {
    var base := (2 * score + OutcomeBonus(outcome)) as real;
    assert base >= 0.0;
    assert base * Multiplier(d1) <= base * Multiplier(d2);
    var s1, s2 := Scale(2 * score + OutcomeBonus(outcome), Multiplier(d1)), Scale(2 * score + OutcomeBonus(outcome), Multiplier(d2));
    assert s1 <= s2;
    assert s1 as real * 1.2 <= s2 as real * 1.2;
  }

  /** The condition `checkNewAchievements` tests for each catalogue id. */
  predicate Earned(id: string, profile: UserProfile, result: AnalysisResult, scenario: Scenario) {
    if id == "first_blood" then true
    else if id == "negotiator" then result.outcome == Success
    else if id == "silver_tongue" then result.score >= 90
    else if id == "iron_will" then result.outcome == Success && scenario.difficulty == Hard
    else if id == "godslayer" then result.outcome == Success && scenario.difficulty == Extreme
    else if id == "resilient" then result.outcome == Failure
    else if id == "veteran" then CalculateLevel(profile.xp + 100) >= 5
    else if id == "streaker" then profile.currentStreak >= 3
    else false
  }

  /** The catalogue entries earned by this battle and not yet owned, in catalogue order. */
  function Eligible(catalogue: seq<Achievement>, profile: UserProfile, result: AnalysisResult, scenario: Scenario): (r: seq<Achievement>)
    ensures forall a :: a in r ==> a in catalogue && a.id !in profile.achievements && Earned(a.id, profile, result, scenario)
    ensures forall a :: a in catalogue && a.id !in profile.achievements && Earned(a.id, profile, result, scenario) ==> a in r
  {
    if catalogue == [] then []
    else
      var rest := Eligible(catalogue[1..], profile, result, scenario);
      var a := catalogue[0];
      if Earned(a.id, profile, result, scenario) && a.id !in profile.achievements then [a] + rest else rest
  }

  /** `ACHIEVEMENTS_LIST.find(a => a.id === id)`. */
  function Find(catalogue: seq<Achievement>, id: string): (r: Option<Achievement>)
    ensures r.Some? ==> r.value in catalogue && r.value.id == id
    ensures r.None? ==> forall a :: a in catalogue ==> a.id != id
  {
    if catalogue == [] then None
    else if catalogue[0].id == id then Some(catalogue[0])
    else Find(catalogue[1..], id)
  }

  /** The ids `checkNewAchievements` passes to `check`, in call order. */
  const CheckOrder: seq<string> := [
    "first_blood", "negotiator", "silver_tongue", "iron_will", "godslayer", "resilient", "veteran", "streaker"]

  predicate DistinctIds(achievements: seq<Achievement>) {
    forall i, j :: 0 <= i < j < |achievements| ==> achievements[i].id != achievements[j].id
  }

  /** `checkNewAchievements`: one `check` per id, pushing the catalogue entry when earned and not owned. */
  method CheckNewAchievements(profile: UserProfile, result: AnalysisResult, scenario: Scenario) returns (newUnlocked: seq<Achievement>)
    ensures newUnlocked == Eligible(AchievementsList, profile, result, scenario)
    ensures forall a :: a in newUnlocked ==> a.id !in profile.achievements
    ensures DistinctIds(newUnlocked)
    ensures "first_blood" !in profile.achievements ==> |newUnlocked| > 0 && newUnlocked[0].id == "first_blood"
  {
    CheckOrderIsCatalogueOrder();
    CatalogueDistinct();
    newUnlocked := RunChecks(AchievementsList, CheckOrder, profile, result, scenario);
    EligibleDistinct(AchievementsList, profile, result, scenario);
    EligibleStartsWithFirstBlood(profile, result, scenario);
  }

  /** The `check` loop over `order`, looking each id up in `catalogue`. */
  method RunChecks(catalogue: seq<Achievement>, order: seq<string>, profile: UserProfile, result: AnalysisResult, scenario: Scenario)
    returns (newUnlocked: seq<Achievement>)
    requires DistinctIds(catalogue)
    requires |order| == |catalogue| && forall i :: 0 <= i < |order| ==> order[i] == catalogue[i].id
    ensures newUnlocked == Eligible(catalogue, profile, result, scenario)
  {
    newUnlocked := [];
    for i := 0 to |order|
      invariant newUnlocked + Eligible(catalogue[i..], profile, result, scenario) == Eligible(catalogue, profile, result, scenario)
    {
      FindDistinct(catalogue, i);
      ghost var before := newUnlocked;
      newUnlocked := Check(catalogue, newUnlocked, profile.achievements, order[i], Earned(order[i], profile, result, scenario));
      EligibleAccumulate(before, newUnlocked, catalogue, i, profile, result, scenario);
    }
    assert catalogue[|order|..] == [];
  }

  /** The `check(id, condition)` closure: pushes the catalogue entry `id` when the
      condition holds and the player does not own it yet. */
  method Check(catalogue: seq<Achievement>, newUnlocked: seq<Achievement>, owned: seq<string>, id: string, condition: bool)
    returns (r: seq<Achievement>)
    ensures condition && id !in owned && Find(catalogue, id).Some? ==> r == newUnlocked + [Find(catalogue, id).value]
    ensures !(condition && id !in owned && Find(catalogue, id).Some?) ==> r == newUnlocked
  {
    r := newUnlocked;
    if condition && id !in owned {
      var ach := Find(catalogue, id);
      if ach.Some? {
        r := r + [ach.value];
      }
    }
  }

  /** One `check` keeps the loop's accumulator a prefix of the eligible entries. */
  lemma EligibleAccumulate(before: seq<Achievement>, after: seq<Achievement>, catalogue: seq<Achievement>, i: nat,
                           profile: UserProfile, result: AnalysisResult, scenario: Scenario)
    requires i < |catalogue|
    requires before + Eligible(catalogue[i..], profile, result, scenario) == Eligible(catalogue, profile, result, scenario)
    requires after == before + (if Earned(catalogue[i].id, profile, result, scenario) && catalogue[i].id !in profile.achievements then [catalogue[i]] else [])
    ensures after + Eligible(catalogue[i + 1..], profile, result, scenario) == Eligible(catalogue, profile, result, scenario)
  {
    var step := if Earned(catalogue[i].id, profile, result, scenario) && catalogue[i].id !in profile.achievements then [catalogue[i]] else [];
    var rest := Eligible(catalogue[i + 1..], profile, result, scenario);
    EligibleStep(catalogue, i, profile, result, scenario);
    ConcatAssoc(before, step, rest);
  }

  lemma ConcatAssoc<T>(a: seq<T>, b: seq<T>, c: seq<T>)
    ensures a + (b + c) == (a + b) + c
  {
  }

  /** A player without First Blood earns it first. */
  lemma EligibleStartsWithFirstBlood(profile: UserProfile, result: AnalysisResult, scenario: Scenario)
    ensures var r := Eligible(AchievementsList, profile, result, scenario);
      "first_blood" !in profile.achievements ==> |r| > 0 && r[0].id == "first_blood"
  {
    assert AchievementsList[0].id == "first_blood";
  }

  /** The checks run in catalogue order. */
  lemma CheckOrderIsCatalogueOrder()
    ensures |CheckOrder| == |AchievementsList|
    ensures forall i :: 0 <= i < |CheckOrder| ==> CheckOrder[i] == AchievementsList[i].id
  {
  }

  lemma {:induction false} FindDistinct(catalogue: seq<Achievement>, i: nat)
    requires DistinctIds(catalogue) && i < |catalogue|
    ensures Find(catalogue, catalogue[i].id) == Some(catalogue[i])
  {
    if i > 0 {
      assert catalogue[0].id != catalogue[i].id;
      assert DistinctIds(catalogue[1..]) by {
        forall a, b | 0 <= a < b < |catalogue[1..]| ensures catalogue[1..][a].id != catalogue[1..][b].id {
          assert catalogue[1..][a] == catalogue[a + 1] && catalogue[1..][b] == catalogue[b + 1];
        }
      }
      FindDistinct(catalogue[1..], i - 1);
      assert catalogue[1..][i - 1] == catalogue[i];
    }
  }

  lemma CatalogueDistinct()
    ensures DistinctIds(AchievementsList)
  {
  }

  lemma EligibleStep(catalogue: seq<Achievement>, i: nat, profile: UserProfile, result: AnalysisResult, scenario: Scenario)
    requires i < |catalogue|
    ensures Eligible(catalogue[i..], profile, result, scenario)
      == (if Earned(catalogue[i].id, profile, result, scenario) && catalogue[i].id !in profile.achievements then [catalogue[i]] else [])
         + Eligible(catalogue[i + 1..], profile, result, scenario)
  {
    assert catalogue[i..][1..] == catalogue[i + 1..];
  }

  lemma {:induction false} EligibleDistinct(catalogue: seq<Achievement>, profile: UserProfile, result: AnalysisResult, scenario: Scenario)
    requires DistinctIds(catalogue)
    ensures DistinctIds(Eligible(catalogue, profile, result, scenario))
  {
    if catalogue != [] {
      assert DistinctIds(catalogue[1..]) by {
        forall i, j | 0 <= i < j < |catalogue[1..]| ensures catalogue[1..][i].id != catalogue[1..][j].id {
          assert catalogue[1..][i] == catalogue[i + 1] && catalogue[1..][j] == catalogue[j + 1];
        }
      }
      EligibleDistinct(catalogue[1..], profile, result, scenario);
      var rest := Eligible(catalogue[1..], profile, result, scenario);
      forall a | a in rest ensures a.id != catalogue[0].id {
        var k :| 0 <= k < |catalogue[1..]| && catalogue[1..][k] == a;
        assert catalogue[k + 1] == a;
      }
    }
  }

  /** `getInitialProfile`. */
  function InitialProfile(): (p: UserProfile)
    ensures p.xp == 0 && p.level == CalculateLevel(p.xp) && p.level == 1
    ensures p.title == GetTitle(p.level) && p.title == "Intern"
    ensures p.battlesWon == 0 && p.battlesLost == 0 && p.skillPoints == 0 && p.currentStreak == 0
    ensures p.achievements == [] && p.skills == [] && p.lastPlayedDate == Blank && p.activeTitle == None
  {
    UserProfile(0, 1, Titles[0], None, 0, 0, [], [], 0, 0, Blank)
  }
}
