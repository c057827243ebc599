/** components/Timer.tsx: the battle countdown. */
module Timer {
  import opened Text

  /** Below this many seconds the clock is drawn as critical. */
  const CriticalSeconds: int := 30

  /** `formatTime`: zero-padded minutes, a colon, zero-padded seconds. */
  function FormatTime(totalSeconds: nat): (r: string)
    ensures forall i :: 0 <= i < |r| ==> IsDigit(r[i]) || r[i] == ':'
    ensures |r| >= 5 && r[|r| - 3] == ':'
  {
    PadStart2(NatToString(totalSeconds / 60)) + ":" + PadStart2(NatToString(totalSeconds % 60))
  }

  lemma PadKeepsValue(s: string)
    requires forall i :: 0 <= i < |s| ==> IsDigit(s[i])
    ensures forall i :: 0 <= i < |PadStart2(s)| ==> IsDigit(PadStart2(s)[i])
    ensures ParseDigits(PadStart2(s)) == ParseDigits(s)
    decreases 2 - |s|
  {
    if |s| < 2 {
      ParseLeadingZero(s);
      PadKeepsValue(['0'] + s);
    }
  }

  /** Reading the clock back: minutes before the colon times 60 plus the two digits after it. */
  lemma FormatTimeRoundTrip(totalSeconds: nat)
    ensures var r := FormatTime(totalSeconds);
      var k := IndexOf(r, ':');
      && k == |r| - 3
      && (forall i :: 0 <= i < k ==> IsDigit(r[i]))
      && (forall i :: k < i < |r| ==> IsDigit(r[i]))
      && ParseDigits(r[..k]) * 60 + ParseDigits(r[k + 1..]) == totalSeconds
      && ParseDigits(r[k + 1..]) < 60
  {
    var mins, secs := NatToString(totalSeconds / 60), NatToString(totalSeconds % 60);
    PadKeepsValue(mins);
    PadKeepsValue(secs);
    NatToStringRoundTrip(totalSeconds / 60);
    NatToStringRoundTrip(totalSeconds % 60);
    SplitAtColon(PadStart2(mins), PadStart2(secs));
  }

  /** Two digit strings joined by a colon split back at the colon. */
  lemma SplitAtColon(m: string, sec: string)
    requires forall i :: 0 <= i < |m| ==> IsDigit(m[i])
    requires forall i :: 0 <= i < |sec| ==> IsDigit(sec[i])
    requires |sec| == 2
    ensures var r := m + ":" + sec;
      && IndexOf(r, ':') == |m| == |r| - 3
      && r[..|m|] == m && r[|m| + 1..] == sec
  {
    var r := m + ":" + sec;
    assert forall i :: 0 <= i < |m| ==> r[i] == m[i] && r[i] != ':';
    assert r[|m|] == ':';
    IndexOfAt(r, ':', |m|);
    assert r[..|m|] == m;
    assert r[|m| + 1..] == sec;
  }

  /** The component's state: `secondsLeft`, the `expiryTriggered` ref and the running interval.
      `expirations` counts the calls of `onTimeExpire`. */
  class Countdown {
    var secondsLeft: int
    var expiryTriggered: bool
    var intervalRunning: bool
    var expirations: nat

    ghost predicate Valid()
      reads this
    {
      && secondsLeft >= 0
      && expirations == (if expiryTriggered then 1 else 0)
      && (expiryTriggered ==> secondsLeft == 0)
    }

    /** `isCritical`: under 30 seconds left, when the display turns red. */
    predicate IsCritical()
      reads this
    {
      secondsLeft < CriticalSeconds
    }

    /** `useState(durationMinutes ? durationMinutes * 60 : 0)`; 0 stands for no duration. */
    constructor (durationMinutes: nat)
      ensures Valid()
      ensures secondsLeft == durationMinutes * 60 && !expiryTriggered && !intervalRunning && expirations == 0
    {
      secondsLeft := durationMinutes * 60;
      expiryTriggered, intervalRunning, expirations := false, false, 0;
    }

    /** The effect: the old interval is cleared and a new one runs only while active with a duration. */
    method Effect(isActive: bool, durationMinutes: nat)
      requires Valid()
      modifies this
      ensures Valid()
      ensures intervalRunning == (isActive && durationMinutes > 0)
      ensures secondsLeft == old(secondsLeft) && expiryTriggered == old(expiryTriggered) && expirations == old(expirations)
    {
      intervalRunning := isActive && durationMinutes > 0;
    }

    /** One second of the interval, when one is running. */
    method Tick()
      requires Valid()
      modifies this
      ensures Valid()
      ensures !old(intervalRunning) ==> (secondsLeft == old(secondsLeft) && expiryTriggered == old(expiryTriggered)
        && expirations == old(expirations) && !intervalRunning)
      ensures old(intervalRunning) && old(secondsLeft) > 1 ==> (secondsLeft == old(secondsLeft) - 1 && intervalRunning
        && expirations == old(expirations))
      ensures old(intervalRunning) && old(secondsLeft) <= 1 ==> secondsLeft == 0 && !intervalRunning && expirations == 1
      ensures expirations <= 1 && secondsLeft <= old(secondsLeft)
      ensures old(IsCritical()) ==> IsCritical()
    {
      if !intervalRunning {
        return;
      }
      var next := secondsLeft - 1;
      if next <= 0 {
        intervalRunning := false;
        if !expiryTriggered {
          expiryTriggered := true;
          expirations := expirations + 1;
        }
        secondsLeft := 0;
      } else {
        secondsLeft := next;
      }
    }
  }
}
