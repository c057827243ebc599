/** components/Setup.tsx: the level lock on preset scenarios and the daily challenge pick. */
module Setup {
  import opened Wrappers
  import opened Types

  /** The number of preset scenarios in constants.ts. */
  const ScenarioCount: nat := 6

  const MsPerDay: int := 1000 * 60 * 60 * 24

  datatype LockState = LockState(locked: bool, reqLevel: int)

  /** `isScenarioLocked`; `profile` is `None` when no profile is loaded. */
  function IsScenarioLocked(profile: Option<UserProfile>, scenario: Scenario): (r: LockState)
    ensures profile.None? ==> r == LockState(false, 0)
    ensures r.locked <==> profile.Some? && ((scenario.difficulty == Hard && profile.value.level < 3)
                                           || (scenario.difficulty == Extreme && profile.value.level < 5))
    ensures r.locked ==> r.reqLevel == (if scenario.difficulty == Hard then 3 else 5) && profile.value.level < r.reqLevel
    ensures !r.locked ==> r.reqLevel == 0
    ensures scenario.difficulty == Easy || scenario.difficulty == Medium ==> !r.locked
  {
    if profile.None? then LockState(false, 0)
    else if scenario.difficulty == Hard && profile.value.level < 3 then LockState(true, 3)
    else if scenario.difficulty == Extreme && profile.value.level < 5 then LockState(true, 5)
    else LockState(false, 0)
  }

  /** Gaining levels never locks a scenario again. */
  lemma UnlockIsPermanent(p: UserProfile, higher: UserProfile, scenario: Scenario)
    requires p.level <= higher.level
    requires !IsScenarioLocked(Some(p), scenario).locked
    ensures !IsScenarioLocked(Some(higher), scenario).locked
  {
  }

  /** The preset card's click handler: the scenario started, if any. */
  function PresetClick(profile: Option<UserProfile>, scenario: Scenario, isLoading: bool): (started: Option<Scenario>)
    ensures IsScenarioLocked(profile, scenario).locked ==> started.None?
    ensures started.Some? <==> !IsScenarioLocked(profile, scenario).locked && !isLoading
    ensures started.Some? ==> started.value == scenario
  {
    if !IsScenarioLocked(profile, scenario).locked && !isLoading then Some(scenario) else None
  }

  /** Whole days from the day before January 1 (`dayZeroMs`) to `nowMs`, floored. */
  function DayOfYear(nowMs: int, dayZeroMs: int): (d: int)
    ensures d * MsPerDay <= nowMs - dayZeroMs < (d + 1) * MsPerDay
  {
    (nowMs - dayZeroMs) / MsPerDay
  }

  /** `getDailyScenario`: the preset picked by the day of the year, flagged as daily. */
  function DailyScenario(scenarios: seq<Scenario>, dayOfYear: nat): (r: Scenario)
    requires |scenarios| > 0
    ensures r.isDaily
    ensures exists k :: 0 <= k < |scenarios| && k == dayOfYear % |scenarios| && r == scenarios[k].(isDaily := true)
  {
    var k := dayOfYear % |scenarios|;
    scenarios[k].(isDaily := true)
  }

  /** The daily pick repeats once the list has been cycled through. */
  lemma DailyCycles(scenarios: seq<Scenario>, dayOfYear: nat)
    requires |scenarios| > 0
    ensures DailyScenario(scenarios, dayOfYear + |scenarios|) == DailyScenario(scenarios, dayOfYear)
  {
    var n := |scenarios|;
    ModUnique(dayOfYear + n, n, dayOfYear / n + 1, dayOfYear % n);
  }

  /** Consecutive days pick consecutive presets, wrapping after the last. */
  lemma DailyAdvances(scenarios: seq<Scenario>, dayOfYear: nat)
    requires |scenarios| > 0
    ensures var k := dayOfYear % |scenarios|;
      DailyScenario(scenarios, dayOfYear + 1) == scenarios[if k + 1 < |scenarios| then k + 1 else 0].(isDaily := true)
  {
    var n := |scenarios|;
    var q, k := dayOfYear / n, dayOfYear % n;
    if k + 1 < n {
      ModUnique(dayOfYear + 1, n, q, k + 1);
    } else {
      ModUnique(dayOfYear + 1, n, q + 1, 0);
    }
  }

  /** The remainder is the `k` of any decomposition `a = q * n + k` with `0 <= k < n`. */
  lemma ModUnique(a: int, n: int, q: int, k: int)
    requires n > 0 && 0 <= k < n && a == q * n + k
    ensures a % n == k
  {
    var q', k' := a / n, a % n;
    assert q' * n + k' == q * n + k;
    assert (q' - q) * n == k - k';
    if q' > q {
      MulAtLeast(q' - q, n);
    } else if q' < q {
      MulAtLeast(q - q', n);
    }
  }

  lemma MulAtLeast(m: int, n: int)
    requires m >= 1 && n > 0
    ensures m * n >= n
  {
  }
}
