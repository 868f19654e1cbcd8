/** The daemon's statistics and its rolling rate limit: before each iteration it counts the
    remembered iterations of the last hour, and it remembers the last thousand. */
module RateLimit {
  import opened Prelude

  const HOUR: real := 3600.0
  const REMEMBERED: nat := 1000

  function CountFrom(s: seq<real>, cutoff: real): nat {
    if s == [] then 0
    else CountFrom(s[..|s| - 1], cutoff) + if s[|s| - 1] >= cutoff then 1 else 0
  }

  /** The check before an iteration; a limit of zero or less is no limit. */
  predicate Allowed(limit: int, recent: seq<real>, now: real) {
    limit <= 0 || CountFrom(recent, now - HOUR) < limit
  }

  // ---- rollback reasons --------------------------------------------------------------------------

  function UpToColon(s: string): string {
    if s == "" || s[0] == ':' then "" else [s[0]] + UpToColon(s[1..])
  }

  function AfterColon(s: string): string {
    if s == "" then "" else if s[0] == ':' then s[1..] else AfterColon(s[1..])
  }

  /** The segment of an outcome between its first two colons; the whole outcome without a colon. */
  function ReasonKey(outcome: string): string {
    if ':' in outcome then UpToColon(AfterColon(outcome)) else outcome
  }

  lemma {:induction false} SplitAtColon(head: string, rest: string)
    requires ':' !in head
    ensures AfterColon(head + ":" + rest) == rest
  {
    if head == "" {
      assert head + ":" + rest == ":" + rest;
    } else {
      assert (head + ":" + rest)[1..] == head[1..] + ":" + rest;
      SplitAtColon(head[1..], rest);
    }
  }

  lemma PlainOutcomeKey(outcome: string)
    requires ':' !in outcome
    ensures ReasonKey(outcome) == outcome
  {
  }

  /** A rolled-back outcome is counted under its reason's own first segment. */
  lemma RollbackReasonKey(reason: string)
    ensures ReasonKey("rolled-back:" + reason) == UpToColon(reason)
  {
    assert "rolled-back:" + reason == "rolled-back" + ":" + reason;
    assert ("rolled-back:" + reason)[11] == ':';
    SplitAtColon("rolled-back", reason);
  }

  ghost function SumValues(m: map<string, nat>): nat
    decreases |m|
  {
    if m == map[] then 0
    else
      var k :| k in m;
      assert |m - {k}| < |m| by {
        assert (m - {k}).Keys == m.Keys - {k};
      }
      m[k] + SumValues(m - {k})
  }

  lemma {:induction false} SumWithout(m: map<string, nat>, x: string)
    requires x in m
    ensures SumValues(m) == m[x] + SumValues(m - {x})
    decreases |m|
  {
    var k :| k in m && SumValues(m) == m[k] + SumValues(m - {k});
    if k != x {
      assert (m - {k}).Keys == m.Keys - {k};
      SumWithout(m - {k}, x);
      assert m - {x} - {k} == m - {k} - {x};
      assert (m - {x}).Keys == m.Keys - {x};
      assert k in m - {x};
      SumWithout(m - {x}, k);
    }
  }

  /** The first segment of a reason: what stands before its first colon, or all of it. */
  lemma {:induction false} FirstSegment(head: string, rest: string)
    requires ':' !in head
    ensures UpToColon(head) == head && UpToColon(head + ":" + rest) == head
  {
    if head == "" {
      assert (head + ":" + rest)[0] == ':';
    } else {
      assert (head + ":" + rest)[1..] == head[1..] + ":" + rest;
      FirstSegment(head[1..], rest);
    }
  }

  lemma CountOneMore(m: map<string, nat>, k: string)
    ensures SumValues(m[k := (if k in m then m[k] else 0) + 1]) == SumValues(m) + 1
  {
    var m' := m[k := (if k in m then m[k] else 0) + 1];
    SumWithout(m', k);
    assert m' - {k} == m - {k};
    if k in m {
      SumWithout(m, k);
    } else {
      assert m - {k} == m;
    }
  }

  // ---- the statistics -------------------------------------------------------------------------------

  class DaemonStats {
    var total: nat
    var promoted: nat
    var rolledBack: nat
    var reasons: map<string, nat>
    var recent: seq<real>
    /** Every recorded time, remembered or not. */
    ghost var times: seq<real>

    ghost predicate Valid()
      reads this
    {
      && promoted + rolledBack == total == |times|
      && SumValues(reasons) == rolledBack
      && recent == Last(times, REMEMBERED)
    }

    constructor ()
      ensures Valid() && times == []
    {
      total, promoted, rolledBack, reasons, recent, times := 0, 0, 0, map[], [], [];
    }

    method Record(outcome: string, now: real)
      requires Valid()
      modifies this
      ensures Valid()
      ensures times == old(times) + [now]
      ensures promoted == old(promoted) + if outcome == "promoted" then 1 else 0
      ensures outcome != "promoted" ==>
                var k := ReasonKey(outcome);
                reasons == old(reasons)[k := (if k in old(reasons) then old(reasons)[k] else 0) + 1]
    {
      total := total + 1;
      recent := recent + [now];
      if |recent| > REMEMBERED {
        recent := recent[1..];
      }
      times := times + [now];
      if outcome == "promoted" {
        promoted := promoted + 1;
      } else {
        rolledBack := rolledBack + 1;
        var k := ReasonKey(outcome);
        CountOneMore(reasons, k);
        reasons := reasons[k := (if k in reasons then reasons[k] else 0) + 1];
      }
    }

    method IterationsInLastHour(now: real) returns (n: nat)
      ensures n == CountFrom(recent, now - HOUR)
    {
      n := 0;
      for i := 0 to |recent|
        invariant n == CountFrom(recent[..i], now - HOUR)
      {
        assert recent[..i + 1][..i] == recent[..i];
        if recent[i] >= now - HOUR {
          n := n + 1;
        }
      }
      assert recent[..|recent|] == recent;
    }

    /** The daemon's loop over a script of turns: check, then run and record; an iteration that
        raises is not recorded. */
    method RunTurns(limit: int, script: seq<Turn>)
      requires Valid() && times == []
      modifies this
      ensures Valid() && times == TimesOf(Ticks(limit, script))
    {
      hide SumValues, CountFrom, Last, ReasonKey;
      for i := 0 to |script|
        invariant Valid() && times == TimesOf(Ticks(limit, script[..i]))
      {
        var turn := script[i];
        assert script[..i + 1][..i] == script[..i];
        var allowed := true;
        if limit > 0 {
          var n := IterationsInLastHour(turn.check);
          allowed := n < limit;
        }
        if allowed && turn.outcome.Some? {
          TimesAppend(Ticks(limit, script[..i]), Tick(turn.check, turn.at));
          Record(turn.outcome.value, turn.at);
        }
      }
      assert script[..|script|] == script;
    }
  }

  /** One turn of the loop: when it checks, and the iteration's outcome and recording time, or
      None when the iteration raises. */
  datatype Turn = Turn(check: real, outcome: Option<string>, at: real)

  predicate ClockForward(script: seq<Turn>) {
    (forall i :: 0 <= i < |script| ==> script[i].check <= script[i].at)
    && forall i, j :: 0 <= i < j < |script| ==> script[i].at <= script[j].check
  }

  /** A recorded iteration: when its check was made and when it was recorded. */
  datatype Tick = Tick(check: real, at: real)

  function TimesOf(ticks: seq<Tick>): (r: seq<real>)
    ensures |r| == |ticks|
    ensures forall i :: 0 <= i < |ticks| ==> r[i] == ticks[i].at
  {
    seq(|ticks|, i requires 0 <= i < |ticks| => ticks[i].at)
  }

  /** The iterations a script records: each turn runs if the check allows it, and is recorded if it
      does not raise. */
  function Ticks(limit: int, script: seq<Turn>): seq<Tick> {
    if script == [] then []
    else
      var before, turn := Ticks(limit, script[..|script| - 1]), script[|script| - 1];
      if Allowed(limit, Last(TimesOf(before), REMEMBERED), turn.check) && turn.outcome.Some?
      then before + [Tick(turn.check, turn.at)] else before
  }

  lemma TimesAppend(ticks: seq<Tick>, t: Tick)
    ensures TimesOf(ticks + [t]) == TimesOf(ticks) + [t.at]
  {
  }

  /** Recorded iterations of a run under a monotone clock, each allowed at its check by what was
      remembered then. */
  predicate Paced(limit: int, ticks: seq<Tick>) {
    ticks == [] ||
    (var init, t := ticks[..|ticks| - 1], ticks[|ticks| - 1];
     Paced(limit, init)
     && t.check <= t.at && (forall i :: 0 <= i < |init| ==> init[i].at <= t.check)
     && Allowed(limit, Last(TimesOf(init), REMEMBERED), t.check))
  }

  /** Under a forward clock nothing is recorded later than the last turn. */
  lemma {:induction false} TicksSoFar(limit: int, script: seq<Turn>, i: nat)
    requires ClockForward(script) && i < |Ticks(limit, script)|
    ensures script != [] && Ticks(limit, script)[i].at <= script[|script| - 1].at
  {
    if script != [] {
      hide Allowed, Last;
      var init := script[..|script| - 1];
      if i < |Ticks(limit, init)| {
        TicksSoFar(limit, init, i);
        assert init[|init| - 1].at <= script[|script| - 1].check;
      }
    }
  }

  /** Under a monotone clock the daemon's loop is paced, so the rolling limit below holds of it. */
  lemma {:induction false} LoopIsPaced(limit: int, script: seq<Turn>)
    requires ClockForward(script)
    ensures Paced(limit, Ticks(limit, script))
  {
    if script != [] {
      hide Allowed, Last;
      var init, turn := script[..|script| - 1], script[|script| - 1];
      var before := Ticks(limit, init);
      LoopIsPaced(limit, init);
      forall i | 0 <= i < |before| ensures before[i].at <= turn.check {
        TicksSoFar(limit, init, i);
        assert init[|init| - 1].at <= turn.check;
      }
      assert (before + [Tick(turn.check, turn.at)])[..|before|] == before;
    }
  }

  // ---- the rolling limit ------------------------------------------------------------------------------

  predicate Ascending(s: seq<real>) {
    forall i, j :: 0 <= i < j < |s| ==> s[i] <= s[j]
  }

  function CountIn(s: seq<real>, from: real, to: real): nat {
    if s == [] then 0
    else CountIn(s[..|s| - 1], from, to) + if from <= s[|s| - 1] <= to then 1 else 0
  }

  lemma {:induction false} CountBounds(s: seq<real>, from: real, to: real, cutoff: real)
    requires cutoff <= from
    ensures CountIn(s, from, to) <= CountFrom(s, cutoff) <= |s|
  {
    if s != [] {
      CountBounds(s[..|s| - 1], from, to, cutoff);
    }
  }

  lemma LastOfInit(s: seq<real>, n: nat)
    requires 0 < n < |s|
    ensures var kept := Last(s, n);
            |kept| == n && kept[n - 1] == s[|s| - 1] && kept[..n - 1] == Last(s[..|s| - 1], n - 1)
  {
    assert s[|s| - n..][..n - 1] == s[|s| - n..|s| - 1] == s[..|s| - 1][|s| - n..];
  }

  /** Forgetting all but the last n times loses no count below n: the forgotten are the oldest. */
  lemma {:induction false} LastCounts(s: seq<real>, n: nat, cutoff: real)
    requires Ascending(s)
    ensures CountFrom(Last(s, n), cutoff) == if CountFrom(s, cutoff) <= n then CountFrom(s, cutoff) else n
  {
    if |s| > n && n > 0 {
      var init := s[..|s| - 1];
      LastCounts(init, n - 1, cutoff);
      var kept := Last(s, n);
      LastOfInit(s, n);
      assert CountFrom(kept, cutoff) == CountFrom(Last(init, n - 1), cutoff) + if s[|s| - 1] >= cutoff then 1 else 0;
      if s[|s| - 1] < cutoff {
        NoneFrom(s, cutoff);
        NoneFrom(init, cutoff);
      }
    } else if |s| <= n {
      CountBounds(s, cutoff, cutoff, cutoff);
    }
  }

  lemma {:induction false} NoneFrom(s: seq<real>, cutoff: real)
    requires Ascending(s) && (s != [] ==> s[|s| - 1] < cutoff)
    ensures CountFrom(s, cutoff) == 0
  {
    if s != [] {
      var init := s[..|s| - 1];
      if init != [] {
        assert init[|init| - 1] <= s[|s| - 1];
      }
      NoneFrom(init, cutoff);
    }
  }

  lemma {:induction false} PacedAscends(limit: int, ticks: seq<Tick>)
    requires Paced(limit, ticks)
    ensures Ascending(TimesOf(ticks))
  {
    if ticks != [] {
      var init := ticks[..|ticks| - 1];
      PacedAscends(limit, init);
      assert TimesOf(init) == TimesOf(ticks)[..|init|];
      forall i, j | 0 <= i < j < |ticks| ensures ticks[i].at <= ticks[j].at {
        if j < |init| {
          assert TimesOf(init)[i] <= TimesOf(init)[j];
        } else {
          assert init[i].at <= ticks[j].check;
        }
      }
    }
  }

  /** No closed one-hour window of a run ever holds more recorded iterations than the limit, for
      every limit the memory can serve. */
  lemma {:induction false} RollingLimit(limit: int, ticks: seq<Tick>, from: real)
    requires Paced(limit, ticks) && 1 <= limit <= REMEMBERED
    ensures CountIn(TimesOf(ticks), from, from + HOUR) <= limit
  {
    if ticks != [] {
      var init, t := ticks[..|ticks| - 1], ticks[|ticks| - 1];
      var times := TimesOf(init);
      RollingLimit(limit, init, from);
      assert TimesOf(ticks)[..|init|] == times;
      if from <= t.at <= from + HOUR {
        PacedAscends(limit, init);
        LastCounts(times, REMEMBERED, t.check - HOUR);
        CountBounds(times, from, from + HOUR, t.check - HOUR);
      }
    }
  }

  /** The count is of the positions in the window. */
  lemma {:induction false} CountInIs(s: seq<real>, from: real, to: real)
    ensures CountIn(s, from, to) == |set i | 0 <= i < |s| && from <= s[i] <= to|
  {
    var now := set i | 0 <= i < |s| && from <= s[i] <= to;
    if s == [] {
      assert now == {};
    } else {
      var init, last := s[..|s| - 1], |s| - 1;
      CountInIs(init, from, to);
      var before := set i | 0 <= i < |init| && from <= init[i] <= to;
      assert now == before + if from <= s[last] <= to then {last} else {};
      assert last !in before;
    }
  }

  lemma {:induction false} CountInFrom(s: seq<real>, from: real, to: real)
    requires forall i :: 0 <= i < |s| ==> s[i] <= to
    ensures CountIn(s, from, to) == CountFrom(s, from)
  {
    if s != [] {
      CountInFrom(s[..|s| - 1], from, to);
    }
  }

  lemma TicksAppend(limit: int, script: seq<Turn>, turn: Turn)
    ensures var before := Ticks(limit, script);
            Ticks(limit, script + [turn])
            == before + if Allowed(limit, Last(TimesOf(before), REMEMBERED), turn.check) && turn.outcome.Some?
                        then [Tick(turn.check, turn.at)] else []
  {
    hide Allowed, Last;
    assert (script + [turn])[..|script|] == script;
    assert Ticks(limit, script) + [] == Ticks(limit, script);
  }

  lemma EarlierTurns(script: seq<Turn>, turn: Turn)
    requires ClockForward(script + [turn])
    ensures ClockForward(script)
  {
    assert forall i :: 0 <= i < |script| ==> script[i] == (script + [turn])[i];
  }

  lemma RecordedBefore(limit: int, script: seq<Turn>, turn: Turn)
    requires ClockForward(script + [turn]) && ClockForward(script)
    ensures forall i :: 0 <= i < |Ticks(limit, script)| ==> Ticks(limit, script)[i].at <= turn.check
  {
    hide Ticks;
    forall i | 0 <= i < |Ticks(limit, script)| ensures Ticks(limit, script)[i].at <= turn.check {
      TicksSoFar(limit, script, i);
      var all := script + [turn];
      assert all[|script| - 1].at <= all[|script|].check;
    }
  }

  /** A turn that does not raise is recorded exactly when the hour before its check holds fewer recorded
      iterations than the limit, or the limit is none or beyond what is remembered. */
  lemma TurnRecordedIff(limit: int, script: seq<Turn>, turn: Turn)
    requires ClockForward(script + [turn])
    ensures var before := Ticks(limit, script);
            var free := limit <= 0 || limit > 1000
                        || CountIn(TimesOf(before), turn.check - 3600.0, turn.check) < limit;
            Ticks(limit, script + [turn])
            == before + if turn.outcome.Some? && free then [Tick(turn.check, turn.at)] else []
  {
    hide Ticks, CountIn, CountFrom, Paced, Last, Allowed, Ascending, ClockForward;
    var before := Ticks(limit, script);
    var times := TimesOf(before);
    TicksAppend(limit, script, turn);
    EarlierTurns(script, turn);
    LoopIsPaced(limit, script);
    PacedAscends(limit, before);
    RecordedBefore(limit, script, turn);
    AllowedIff(limit, times, turn.check);
  }

  lemma AllowedIff(limit: int, times: seq<real>, check: real)
    requires Ascending(times) && forall i :: 0 <= i < |times| ==> times[i] <= check
    ensures Allowed(limit, Last(times, REMEMBERED), check)
            <==> limit <= 0 || limit > 1000 || CountIn(times, check - 3600.0, check) < limit
  {
    hide CountIn, CountFrom, Last, Ascending;
    CountInFrom(times, check - HOUR, check);
    LastCounts(times, REMEMBERED, check - HOUR);
    if limit > REMEMBERED || limit <= 0 {
      LimitBeyondMemory(limit, times, check);
    }
  }

  /** A limit above what is remembered, like one of zero or less, never holds anything back. */
  lemma LimitBeyondMemory(limit: int, times: seq<real>, now: real)
    requires limit > REMEMBERED || limit <= 0
    ensures Allowed(limit, Last(times, REMEMBERED), now)
  {
    CountBounds(Last(times, REMEMBERED), now, now, now - HOUR);
  }

  /** The daemon's promise: however its iterations go, no closed one-hour window holds more recorded
      iterations than the limit. */
  lemma LoopKeepsRollingLimit(limit: int, script: seq<Turn>, from: real)
    requires ClockForward(script) && 1 <= limit <= REMEMBERED
    ensures CountIn(TimesOf(Ticks(limit, script)), from, from + HOUR) <= limit
  {
    LoopIsPaced(limit, script);
    RollingLimit(limit, Ticks(limit, script), from);
  }
}
