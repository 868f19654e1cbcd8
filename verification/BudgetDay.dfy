/** The cap and the ledger joined: what was really billed on one day, whether the file shows it, the
    write-ahead log still holds it, or a drain lost it. */
module BudgetDay {
  import opened Prelude
  import opened Budget
  import opened BudgetCap
  import opened BudgetWal

  /** One day's bills: charged to the file, waiting in the log, and lost to drains. */
  datatype Tab = Tab(charged: int, logged: int, lost: int)

  function BillOn(m: Move, day: int): int {
    if m.action.Record? && DayOf(m.now) == day then m.action.call.delta else 0
  }

  /** What was billed on the day, by whichever tracker and with the lock or without. */
  function BilledOn(moves: seq<Move>, day: int): int {
    if moves == [] then 0 else BilledOn(moves[..|moves| - 1], day) + BillOn(moves[|moves| - 1], day)
  }

  /** The day's tab over a run in which the file exists before any call is recorded, so that every
      drain loses the log. */
  function TabOf(cfgs: nat -> Config, moves: seq<Move>, day: int): Tab {
    if moves == [] then Tab(0, 0, 0)
    else
      var t, m := TabOf(cfgs, moves[..|moves| - 1], day), moves[|moves| - 1];
      if !m.action.Record? then t
      else if Inside(cfgs(m.tracker), m.action.locked) then Tab(t.charged + BillOn(m, day), 0, t.lost + t.logged)
      else t.(logged := t.logged + BillOn(m, day))
  }

  lemma {:induction false} TabIsBill(cfgs: nat -> Config, moves: seq<Move>, day: int)
    ensures var t := TabOf(cfgs, moves, day);
            BilledOn(moves, day) == t.charged + t.logged + t.lost
  {
    if moves != [] {
      TabIsBill(cfgs, moves[..|moves| - 1], day);
    }
  }

  // ---- the file shows what was charged ---------------------------------------------------------------

  function Front(days: seq<Day>, day: int): int {
    if days != [] && days[0].day == day then days[0].cost else 0
  }

  /** From the present day on, the file's entry is what was charged; without a file nothing was. */
  predicate Shows(s: Sys, t: Tab, day: int) {
    match s.stored
    case Corrupt => false
    case Missing => t == Tab(0, 0, 0)
    case Data(st) => Front(st.days, day) == t.charged
  }

  /** Rolling the day moves no cost of the present or a later day. */
  lemma CurrentKeepsFront(s: State, clock: int, today: int, day: int)
    requires DaysDescend(s.days, clock) && clock <= today <= day
    ensures Front(Current(s, today).days, day) == Front(s.days, day)
  {
  }

  lemma CheckedKeepsFront(cfg: Config, cache: State, st: State, clock: int, now: int, day: int)
    requires DaysDescend(st.days, DayOf(clock)) && clock <= now && DayOf(now) <= day
    ensures Front(Checked(cfg, cache, Data(st), now).days, day) == Front(st.days, day)
  {
    hide Current, DaysDescend, Front, Pruned;
    DayOfMonotone(clock, now);
    CurrentKeepsFront(st.(pending := Pruned(st.pending, now, cfg.pruneAfter)), DayOf(clock), DayOf(now), day);
  }

  lemma RecordShows(cap: int, cfgs: nat -> Config, s: Sys, g: History, m: Move, t: Tab, day: int)
    requires Inv(cap, s, g) && Obeys(g, m) && m.action.Record? && Inside(cfgs(m.tracker), m.action.locked)
    requires Shows(s, t, day) && DayOf(m.now) <= day
    ensures Shows(Step(DrainThenLoad, cfgs, s, m), Tab(t.charged + BillOn(m, day), 0, t.lost + t.logged), day)
  {
    hide Checked, Open, AfterRecord, DaysDescend, Without;
    var cfg, cache, call := cfgs(m.tracker), CacheOf(s, m.tracker), m.action.call;
    IssuedMeansData(cap, s, g, call.token.value);
    CheckedKeepsFront(cfg, cache, s.stored.state, g.clock, m.now, day);
    RecordedState(cfg, cache, s.stored.state, s.wal, call, m.now);
  }

  lemma IssuedMeansData(cap: int, s: Sys, g: History, token: string)
    requires Inv(cap, s, g) && HasToken(g.issued, token)
    ensures s.stored.Data? && DaysDescend(s.stored.state.days, DayOf(g.clock))
  {
  }

  /** A move that records nothing, or only into the log, shows nothing new in the file. */
  lemma OtherShows(cap: int, cfgs: nat -> Config, s: Sys, g: History, m: Move, t: Tab, day: int)
    requires Inv(cap, s, g) && Obeys(g, m) && Shows(s, t, day) && DayOf(m.now) <= day
    requires !m.action.Record?
    ensures Shows(Step(DrainThenLoad, cfgs, s, m), t, day)
  {
    hide Checked, Open, Current, Pruned, Without, HasToken, FitsDay;
    var cfg, cache := cfgs(m.tracker), CacheOf(s, m.tracker);
    if m.action.Reserve? {
      if s.stored.Data? {
        CheckedKeepsFront(cfg, cache, s.stored.state, g.clock, m.now, day);
      } else {
        ViewOfNothing(cfg, cache, g.clock, m.now);
      }
    } else if m.action.Cancel? && s.stored.Missing? {
      NothingToCancel(cfg, cache, g.clock, m);
    }
  }

  lemma NothingToCancel(cfg: Config, cache: State, clock: int, m: Move)
    requires Unspent(cache, DayOf(clock)) && m.action.Cancel?
    ensures AfterCancel(cfg, cache, Missing, m.action.token, m.now).stored.Missing?
  {
  }

  lemma {:induction false} FileShowsCharged(cap: int, cfgs: nat -> Config, moves: seq<Move>, day: int)
    requires Disciplined(cap, cfgs, moves) && DayOf(Past(cfgs, moves).clock) <= day
    ensures Shows(Run(DrainThenLoad, cfgs, moves), TabOf(cfgs, moves, day), day)
  {
    if moves != [] {
      hide Shows, Inv, Step, Inside;
      var init, m := moves[..|moves| - 1], moves[|moves| - 1];
      var s, g, t := Run(DrainThenLoad, cfgs, init), Past(cfgs, init), TabOf(cfgs, init, day);
      DayOfMonotone(g.clock, m.now);
      FileShowsCharged(cap, cfgs, init, day);
      RunKeepsInv(cap, cfgs, init);
      if !m.action.Record? {
        OtherShows(cap, cfgs, s, g, m, t, day);
      } else if Inside(cfgs(m.tracker), m.action.locked) {
        RecordShows(cap, cfgs, s, g, m, t, day);
      } else {
        UnlockedShows(cap, cfgs, s, g, m, t, day);
      }
    }
  }

  lemma UnlockedShows(cap: int, cfgs: nat -> Config, s: Sys, g: History, m: Move, t: Tab, day: int)
    requires Inv(cap, s, g) && Obeys(g, m) && Shows(s, t, day)
    requires m.action.Record? && !Inside(cfgs(m.tracker), m.action.locked)
    ensures Shows(Step(DrainThenLoad, cfgs, s, m), t.(logged := t.logged + BillOn(m, day)), day)
  {
    IssuedMeansData(cap, s, g, m.action.call.token.value);
  }

  // ---- the log and the ledger hold the rest ---------------------------------------------------------

  /** The day's share of the log and of what drains lost is within what the ledger knows of them. */
  lemma {:induction false} LedgerHoldsRest(cap: int, cfgs: nat -> Config, moves: seq<Move>, day: int)
    requires Disciplined(cap, cfgs, moves)
    ensures var t := TabOf(cfgs, moves, day);
            && 0 <= t.logged <= SumWal(Cost, Run(DrainThenLoad, cfgs, moves).wal)
            && 0 <= t.lost <= Books(Cost, DrainThenLoad, cfgs, moves).lost
  {
    if moves != [] {
      hide Inv, SumWal, WalAfterDrain, AfterRecord, AfterReserve, AfterCancel, Current, Dropped;
      var init, m := moves[..|moves| - 1], moves[|moves| - 1];
      var s, g := Run(DrainThenLoad, cfgs, init), Past(cfgs, init);
      LedgerHoldsRest(cap, cfgs, init, day);
      if m.action.Record? {
        RunKeepsInv(cap, cfgs, init);
        IssuedMeansData(cap, s, g, m.action.call.token.value);
        SumWithoutRecords(Cost, s.wal);
        LineAppend(s.wal, m.action.call);
      }
    }
  }

  lemma LineAppend(wal: seq<WalLine>, call: Call)
    ensures SumWal(Cost, wal + [WalRecord(call.tokensIn, call.tokensOut, call.delta, call.token)]) == SumWal(Cost, wal) + call.delta
  {
  }

  /** What was really billed: at any time from the last move on, the day's bills and all pending
      reservations together exceed the cap by no more than the day's overrun and what of the day's
      bills is in the log or was lost to drains. */
  lemma BilledWithinCap(cap: int, cfgs: nat -> Config, moves: seq<Move>, now: int)
    requires Disciplined(cap, cfgs, moves) && Past(cfgs, moves).clock <= now
    ensures var s, g, day := Run(DrainThenLoad, cfgs, moves), Past(cfgs, moves), DayOf(now);
            var t := TabOf(cfgs, moves, day);
            && BilledOn(moves, day) == t.charged + t.logged + t.lost
            && 0 <= t.logged <= SumWal(Cost, s.wal)
            && 0 <= t.lost <= Books(Cost, DrainThenLoad, cfgs, moves).lost
            && match s.stored
               case Corrupt => false
               case Missing => BilledOn(moves, day) == 0
               case Data(st) =>
                 && CostOn(st.days, day) == t.charged
                 && BilledOn(moves, day) + Total(st.pending)
                    <= cap + (if st.days != [] && st.days[0].day == day then g.over else 0) + t.logged + t.lost
  {
    hide SumWal, Open, DaysDescend, Total;
    var s, g, day := Run(DrainThenLoad, cfgs, moves), Past(cfgs, moves), DayOf(now);
    DayOfMonotone(g.clock, now);
    TabIsBill(cfgs, moves, day);
    LedgerHoldsRest(cap, cfgs, moves, day);
    FileShowsCharged(cap, cfgs, moves, day);
    CapHolds(cap, cfgs, moves, now);
    RunKeepsInv(cap, cfgs, moves);
    if s.stored.Data? {
      NewestCost(s.stored.state.days, DayOf(g.clock), day);
    }
  }

  lemma NewestCost(days: seq<Day>, today: int, day: int)
    requires DaysDescend(days, today) && days != [] && today <= day
    ensures CostOn(days, day) == Front(days, day)
  {
    CostOnNewest(days, today, day);
  }
}
