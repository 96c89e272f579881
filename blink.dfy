/**
 * The blink timer that several controllers run from their loop: with a
 * uint16 view of millis(), the edited field is shown during the first 500 ms
 * of each cycle, hidden during the next 500 ms, and a new cycle starts at the
 * first call at or after 1000 ms (that call leaves the show state as it was).
 */
module Blink {
  import opened Widths

  datatype Timer = Timer(showState: bool, cycleStartMillis: int)

  /** uint16 now - uint16 start, with wrap-around. */
  function Elapsed(nowMillis: int, startMillis: int): (d: int)
    ensures 0 <= d < 65536
    ensures 0 <= startMillis <= U16(nowMillis) ==> d == U16(nowMillis) - startMillis
  {
    U16(U16(nowMillis) - startMillis)
  }

  /**
   * The uint16 difference measures any interval shorter than 65536 ms
   * exactly, however many times the millisecond counter has wrapped.
   */
  lemma ElapsedAcrossWrap(t: int, d: int)
    requires 0 <= d < 65536
    ensures Elapsed(t + d, U16(t)) == d
  {
    var q := t / 65536;
    assert t == q * 65536 + U16(t);
    assert t + d == q * 65536 + (U16(t) + d);
    if U16(t) + d < 65536 {
      assert U16(t + d) == U16(t) + d;
    } else {
      assert t + d == (q + 1) * 65536 + (U16(t) + d - 65536);
      assert U16(t + d) == U16(t) + d - 65536;
    }
  }

  /** updateBlinkState() at time millis() == nowMillis. */
  function Update(t: Timer, nowMillis: int): (r: Timer)
    ensures Elapsed(nowMillis, t.cycleStartMillis) < 1000 ==>
      r == Timer(Elapsed(nowMillis, t.cycleStartMillis) < 500, t.cycleStartMillis)
    ensures Elapsed(nowMillis, t.cycleStartMillis) >= 1000 ==>
      r == Timer(t.showState, U16(nowMillis))
  {
    var duration := Elapsed(nowMillis, t.cycleStartMillis);
    if duration < 500 then t.(showState := true)
    else if duration < 1000 then t.(showState := false)
    else t.(cycleStartMillis := U16(nowMillis))
  }

  /** After a restart, a second call at the same instant shows the field. */
  lemma RestartShows(t: Timer, nowMillis: int)
    requires Elapsed(nowMillis, t.cycleStartMillis) >= 1000
    ensures Update(Update(t, nowMillis), nowMillis) == Timer(true, U16(nowMillis))
  {
    assert Elapsed(nowMillis, U16(nowMillis)) == 0;
  }

  /** Within a cycle, the show state depends on the phase only, not on what it was before. */
  lemma PhaseDecidesShowState(t: Timer, u: Timer, nowMillis: int)
    requires t.cycleStartMillis == u.cycleStartMillis
    requires Elapsed(nowMillis, t.cycleStartMillis) < 1000
    ensures Update(t, nowMillis) == Update(u, nowMillis)
  {
  }

  /** The timer's start is always a uint16 value once it has restarted. */
  lemma StartStaysInRange(t: Timer, nowMillis: int)
    requires 0 <= t.cycleStartMillis < 65536
    ensures 0 <= Update(t, nowMillis).cycleStartMillis < 65536
  {
  }
}
