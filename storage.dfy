/** utils/storage.ts: battle history, custom scenarios and the user profile,
    persisted in `localStorage`. JSON is left out: the store holds the decoded
    value for each key, or text that does not parse. */
module Storage {
  import opened Wrappers
  import opened Types
  import opened Gamification
  import opened Text

  const HistoryKey: string := "boss_battle_history"
  const CustomScenariosKey: string := "boss_battle_custom_scenarios"
  const ProfileKey: string := "boss_battle_profile"

  const HistoryCap: nat := 20
  const FeedbackShortLength: nat := 120

  /** A profile as parsed from storage: saves from older versions lack the later fields. */
  datatype StoredProfile = StoredProfile(
    xp: int,
    level: int,
    title: string,
    activeTitle: Option<string>,
    battlesWon: nat,
    battlesLost: nat,
    achievements: Option<seq<string>>,
    skills: Option<seq<string>>,
    skillPoints: Option<int>,
    currentStreak: Option<nat>,
    lastPlayedDate: Option<PlayDate>)

  datatype Value =
    | HistoryList(entries: seq<HistoryEntry>)
    | ScenarioList(scenarios: seq<Scenario>)
    | ProfileRecord(profile: StoredProfile)
    /** Text that `JSON.parse` rejects. */
    | Unparsable

  /** The browser's `localStorage`: a map from key to stored value. */
  class LocalStorage {
    var items: map<string, Value>

    constructor (initial: map<string, Value>)
      ensures items == initial
    {
      items := initial;
    }

    function GetItem(key: string): (r: Option<Value>)
      reads this
      ensures r.Some? <==> key in items
      ensures r.Some? ==> r.value == items[key]
    {
      if key in items then Some(items[key]) else None
    }

    method SetItem(key: string, value: Value)
      modifies this
      ensures items == old(items)[key := value]
    {
      items := items[key := value];
    }

    method RemoveItem(key: string)
      modifies this
      ensures items == old(items) - {key}
    {
      items := items - {key};
    }
  }

  /** `getHistory`: the stored list, or `[]` when nothing or something unreadable is stored. */
  function GetHistory(store: LocalStorage): (r: seq<HistoryEntry>)
    reads store
    ensures HistoryKey in store.items && store.items[HistoryKey].HistoryList? ==> r == store.items[HistoryKey].entries
    ensures HistoryKey !in store.items || !store.items[HistoryKey].HistoryList? ==> r == []
  {
    match store.GetItem(HistoryKey)
    case Some(HistoryList(entries)) => entries
    case _ => []
  }

  /**
   * `feedback.substring(0, 120)`, plus `...` when the feedback is longer than
   * 120; both lengths count UTF-16 code units, as JavaScript strings do.
   */
  function FeedbackShort(feedback: string): (r: string)
    ensures Utf16Length(feedback) <= FeedbackShortLength ==> r == feedback
    ensures Utf16Length(feedback) > FeedbackShortLength ==>
      |r| >= 3 && r[|r| - 3..] == "..." && CutOf(r[..|r| - 3], feedback)
  {
    if Utf16Length(feedback) > FeedbackShortLength then Utf16Prefix(feedback, FeedbackShortLength) + "..." else feedback
  }

  /**
   * `p` is where `substring(0, 120)` cuts `feedback`: a proper prefix of 120 code
   * units, or of 119 when the 120th unit is the first half of a surrogate pair.
   */
  predicate CutOf(p: string, feedback: string) {
    |p| < |feedback| && p == feedback[..|p|] &&
    FeedbackShortLength - 1 <= Utf16Length(p) <= FeedbackShortLength &&
    (Utf16Length(p) < FeedbackShortLength ==> CodeUnits(feedback[|p|]) == 2)
  }

  /** The entry `saveHistory` builds; `now` is `Date.now()`, used for id and timestamp. */
  function NewEntry(scenario: Scenario, result: AnalysisResult, now: int): HistoryEntry {
    HistoryEntry(result, now, scenario.name, now, FeedbackShort(result.feedback))
  }

  /** `[newEntry, ...existing].slice(0, 20)`. */
  function Capped(entry: HistoryEntry, existing: seq<HistoryEntry>): (r: seq<HistoryEntry>)
    ensures |r| == if |existing| + 1 < HistoryCap then |existing| + 1 else HistoryCap
    ensures r[0] == entry
    ensures r[1..] == existing[..|r| - 1]
  {
    var all := [entry] + existing;
    var r := if |all| > HistoryCap then all[..HistoryCap] else all;
    assert r[1..] == existing[..|r| - 1];
    r
  }

  method SaveHistory(store: LocalStorage, scenario: Scenario, result: AnalysisResult, now: int)
    modifies store
    ensures store.items == old(store.items)[HistoryKey := HistoryList(Capped(NewEntry(scenario, result, now), old(GetHistory(store))))]
    ensures GetHistory(store)[0] == NewEntry(scenario, result, now) && |GetHistory(store)| <= HistoryCap
  {
    var existing := GetHistory(store);
    var newEntry := NewEntry(scenario, result, now);
    var updated := Capped(newEntry, existing);
    store.SetItem(HistoryKey, HistoryList(updated));
  }

  method ClearHistory(store: LocalStorage)
    modifies store
    ensures store.items == old(store.items) - {HistoryKey}
    ensures GetHistory(store) == []
  {
    store.RemoveItem(HistoryKey);
  }

  function GetCustomScenarios(store: LocalStorage): (r: seq<Scenario>)
    reads store
    ensures CustomScenariosKey in store.items && store.items[CustomScenariosKey].ScenarioList? ==> r == store.items[CustomScenariosKey].scenarios
    ensures CustomScenariosKey !in store.items || !store.items[CustomScenariosKey].ScenarioList? ==> r == []
  {
    match store.GetItem(CustomScenariosKey)
    case Some(ScenarioList(scenarios)) => scenarios
    case _ => []
  }

  /** `saveCustomScenario`: prepends, without checking for an existing id. */
  method SaveCustomScenario(store: LocalStorage, scenario: Scenario)
    modifies store
    ensures store.items == old(store.items)[CustomScenariosKey := ScenarioList([scenario] + old(GetCustomScenarios(store)))]
    ensures GetCustomScenarios(store) == [scenario] + old(GetCustomScenarios(store))
  {
    var existing := GetCustomScenarios(store);
    store.SetItem(CustomScenariosKey, ScenarioList([scenario] + existing));
  }

  /** `existing.filter(s => s.id !== id)`. */
  function WithoutId(scenarios: seq<Scenario>, id: string): (r: seq<Scenario>)
    ensures forall s :: s in r <==> s in scenarios && s.id != id
    ensures |r| <= |scenarios|
  {
    if scenarios == [] then []
    else (if scenarios[0].id != id then [scenarios[0]] else []) + WithoutId(scenarios[1..], id)
  }

  /** The filter keeps order: it distributes over concatenation. */
  lemma {:induction false} WithoutIdAppend(a: seq<Scenario>, b: seq<Scenario>, id: string)
    ensures WithoutId(a + b, id) == WithoutId(a, id) + WithoutId(b, id)
  {
    if a != [] {
      assert (a + b)[1..] == a[1..] + b;
      WithoutIdAppend(a[1..], b, id);
    } else {
      assert a + b == b;
    }
  }

  /** A list without that id is left as it is. */
  lemma {:induction false} WithoutIdAbsent(scenarios: seq<Scenario>, id: string)
    requires forall s :: s in scenarios ==> s.id != id
    ensures WithoutId(scenarios, id) == scenarios
  {
    if scenarios != [] {
      WithoutIdAbsent(scenarios[1..], id);
    }
  }

  method DeleteCustomScenario(store: LocalStorage, id: string)
    modifies store
    ensures store.items == old(store.items)[CustomScenariosKey := ScenarioList(WithoutId(old(GetCustomScenarios(store)), id))]
    ensures forall s :: s in GetCustomScenarios(store) <==> s in old(GetCustomScenarios(store)) && s.id != id
  {
    var existing := GetCustomScenarios(store);
    store.SetItem(CustomScenariosKey, ScenarioList(WithoutId(existing, id)));
  }

  /** The migration in `getUserProfile`: missing later fields take their defaults. */
  function Migrate(stored: StoredProfile): (p: UserProfile)
    ensures p.xp == stored.xp && p.level == stored.level && p.title == stored.title && p.activeTitle == stored.activeTitle
    ensures p.battlesWon == stored.battlesWon && p.battlesLost == stored.battlesLost
    ensures p.achievements == stored.achievements.GetOr([]) && p.skills == stored.skills.GetOr([])
    ensures p.skillPoints == stored.skillPoints.GetOr(0) && p.currentStreak == stored.currentStreak.GetOr(0)
    ensures p.lastPlayedDate == stored.lastPlayedDate.GetOr(Blank)
  {
    UserProfile(stored.xp, stored.level, stored.title, stored.activeTitle, stored.battlesWon, stored.battlesLost,
      stored.achievements.GetOr([]), stored.skills.GetOr([]), stored.skillPoints.GetOr(0),
      stored.currentStreak.GetOr(0), stored.lastPlayedDate.GetOr(Blank))
  }

  /** A full profile as `updateUserProfile` writes it. */
  function Store(p: UserProfile): StoredProfile {
    StoredProfile(p.xp, p.level, p.title, p.activeTitle, p.battlesWon, p.battlesLost,
      Some(p.achievements), Some(p.skills), Some(p.skillPoints), Some(p.currentStreak), Some(p.lastPlayedDate))
  }

  lemma MigrateStoreRoundTrip(p: UserProfile)
    ensures Migrate(Store(p)) == p
  {
  }

  /** `getUserProfile`: the initial profile when nothing or something unreadable is stored. */
  function GetUserProfile(store: LocalStorage): (p: UserProfile)
    reads store
    ensures ProfileKey in store.items && store.items[ProfileKey].ProfileRecord? ==> p == Migrate(store.items[ProfileKey].profile)
    ensures ProfileKey !in store.items || !store.items[ProfileKey].ProfileRecord? ==> p == InitialProfile()
  {
    match store.GetItem(ProfileKey)
    case Some(ProfileRecord(stored)) => Migrate(stored)
    case _ => InitialProfile()
  }

  /** The streak rule; `today` is the current UTC day number. */
  function NextStreak(streak: nat, last: PlayDate, today: int): (s: nat)
    ensures last == Day(today) ==> s == streak
    ensures last == Day(today - 1) ==> s == streak + 1
    ensures last.Day? && (last.n < today - 1 || last.n > today + 1) ==> s == 1
    ensures last != Day(today) ==> s >= 1
  {
    if last == Day(today) then streak
    else
      var stepped: nat :=
        if last == Day(today - 1) then streak + 1
        else match last
          // `new Date('')` is an invalid date: every comparison with NaN is false
          case Blank => streak
          case Day(n) =>
            var diffDays := if today >= n then today - n else n - today;
            if diffDays > 1 then 1 else if diffDays == 1 then streak + 1 else streak;
      if stepped == 0 then 1 else stepped
  }

  /** `ids` appended to `existing`, each only when not already present. */
  function AppendAbsent(existing: seq<string>, ids: seq<string>): (r: seq<string>)
    decreases |ids|
  {
    if ids == [] then existing
    else
      var last := ids[|ids| - 1];
      var before := AppendAbsent(existing, ids[..|ids| - 1]);
      if last in before then before else before + [last]
  }

  predicate Distinct(s: seq<string>) {
    forall i, j :: 0 <= i < j < |s| ==> s[i] != s[j]
  }

  /** The result keeps `existing` as a prefix, adds exactly the missing ids, and stays duplicate-free. */
  lemma {:induction false} AppendAbsentProperties(existing: seq<string>, ids: seq<string>)
    ensures |AppendAbsent(existing, ids)| >= |existing| && AppendAbsent(existing, ids)[..|existing|] == existing
    ensures forall x :: x in AppendAbsent(existing, ids) <==> x in existing || x in ids
    ensures Distinct(existing) ==> Distinct(AppendAbsent(existing, ids))
    decreases |ids|
  {
    if ids != [] {
      var init := ids[..|ids| - 1];
      AppendAbsentProperties(existing, init);
      var before := AppendAbsent(existing, init);
      var r := AppendAbsent(existing, ids);
      assert ids == init + [ids[|ids| - 1]];
      if ids[|ids| - 1] !in before {
        assert r[..|existing|] == before[..|existing|];
      }
    }
  }

  datatype ProfileUpdate = ProfileUpdate(profile: UserProfile, leveledUp: bool)

  /** `updateUserProfile`, field by field. `today` is the current UTC day number;
      yesterday, one day of milliseconds earlier, is `today - 1`. */
  method UpdateUserProfile(store: LocalStorage, xpGain: int, won: bool, newAchievements: seq<string>, today: int)
    returns (r: ProfileUpdate)
    requires GetUserProfile(store).xp + xpGain >= 0
    modifies store
    ensures var before := old(GetUserProfile(store));
      && r.profile.xp == before.xp + xpGain
      && r.profile.level == CalculateLevel(r.profile.xp)
      && r.profile.title == GetTitle(r.profile.level)
      && r.profile.skillPoints == before.skillPoints + (if r.profile.level > before.level then r.profile.level - before.level else 0)
      && r.profile.battlesWon == before.battlesWon + (if won then 1 else 0)
      && r.profile.battlesLost == before.battlesLost + (if won then 0 else 1)
      && r.profile.currentStreak == NextStreak(before.currentStreak, before.lastPlayedDate, today)
      && r.profile.lastPlayedDate == Day(today)
      && r.profile.achievements == AppendAbsent(before.achievements, newAchievements)
      && r.profile.skills == before.skills && r.profile.activeTitle == before.activeTitle
      && r.leveledUp == (r.profile.level > before.level)
    ensures store.items == old(store.items)[ProfileKey := ProfileRecord(Store(r.profile))]
  {
    var profile := GetUserProfile(store);
    var oldLevel := profile.level;
    profile := profile.(xp := profile.xp + xpGain);
    var newLevel := CalculateLevel(profile.xp);
    if newLevel > oldLevel {
      profile := profile.(skillPoints := profile.skillPoints + (newLevel - oldLevel));
    }
    profile := profile.(level := newLevel);
    profile := profile.(title := GetTitle(profile.level));
    if won {
      profile := profile.(battlesWon := profile.battlesWon + 1);
    } else {
      profile := profile.(battlesLost := profile.battlesLost + 1);
    }
    var streak := AdvanceStreak(profile.currentStreak, profile.lastPlayedDate, today);
    profile := profile.(currentStreak := streak, lastPlayedDate := Day(today));
    var achievements := MergeAchievements(profile.achievements, newAchievements);
    profile := profile.(achievements := achievements);
    store.SetItem(ProfileKey, ProfileRecord(Store(profile)));
    r := ProfileUpdate(profile, profile.level > oldLevel);
  }

  /** The streak block of `updateUserProfile`. */
  method AdvanceStreak(streak: nat, last: PlayDate, today: int) returns (s: nat)
    ensures s == NextStreak(streak, last, today)
  {
    s := streak;
    if last != Day(today) {
      if last == Day(today - 1) {
        s := s + 1;
      } else if last.Day? {
        var n := last.n;
        var diffDays := if today >= n then today - n else n - today;
        if diffDays > 1 {
          s := 1;
        } else if diffDays == 1 {
          s := s + 1;
        }
      }
      if s == 0 {
        s := 1;
      }
    }
  }

  /** The `newAchievements.forEach` loop: appends each id the profile does not own yet. */
  method MergeAchievements(owned: seq<string>, newAchievements: seq<string>) returns (achievements: seq<string>)
    ensures achievements == AppendAbsent(owned, newAchievements)
  {
    achievements := owned;
    for i := 0 to |newAchievements|
      invariant achievements == AppendAbsent(owned, newAchievements[..i])
    {
      assert newAchievements[..i + 1][..i] == newAchievements[..i];
      if newAchievements[i] !in achievements {
        achievements := achievements + [newAchievements[i]];
      }
    }
    assert newAchievements[..|newAchievements|] == newAchievements;
  }

  /** Playing twice on the same day leaves the streak and the date alone the second time. */
  lemma SameDayKeepsStreak(streak: nat, last: PlayDate, today: int)
    ensures NextStreak(NextStreak(streak, last, today), Day(today), today) == NextStreak(streak, last, today)
  {
  }
}
