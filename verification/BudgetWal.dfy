/** Conservation of spend: where every billed call ends up, for the order in which the tracker
    drains its write-ahead log and for the order that loses nothing. */
module BudgetWal {
  import opened Prelude
  import opened Budget
  import opened BudgetCap

  /** What is counted: every statement below holds of the calls, of the tokens and of the cost. */
  datatype Unit = Calls | TokensIn | TokensOut | Cost

  function OfDay(u: Unit, d: Day): int {
    match u case Calls => d.calls case TokensIn => d.tokensIn case TokensOut => d.tokensOut case Cost => d.cost
  }

  function OfCall(u: Unit, c: Call): int {
    match u case Calls => 1 case TokensIn => c.tokensIn case TokensOut => c.tokensOut case Cost => c.delta
  }

  function OfLine(u: Unit, l: WalLine): int {
    if l.Garbage? then 0 else OfCall(u, Call(l.tokensIn, l.tokensOut, l.delta, l.token))
  }

  function SumDays(u: Unit, days: seq<Day>): int {
    if days == [] then 0 else OfDay(u, days[0]) + SumDays(u, days[1..])
  }

  function SumWal(u: Unit, wal: seq<WalLine>): int {
    if wal == [] then 0 else SumWal(u, wal[..|wal| - 1]) + OfLine(u, wal[|wal| - 1])
  }

  /** What rolling a state to a new day pushes out of the thirty days kept. */
  function Dropped(u: Unit, s: State, today: int): int {
    if s.days != [] && s.days[0].day == today then 0
    else if |s.days| < DAYS_KEPT then 0
    else SumDays(u, s.days[DAYS_KEPT - 1..])
  }

  lemma {:induction false} SumDaysSplit(u: Unit, a: seq<Day>, b: seq<Day>)
    ensures SumDays(u, a + b) == SumDays(u, a) + SumDays(u, b)
  {
    if a == [] {
      assert a + b == b;
    } else {
      assert (a + b)[1..] == a[1..] + b;
      SumDaysSplit(u, a[1..], b);
    }
  }

  lemma NewDayBalance(u: Unit, past: seq<Day>, today: int)
    ensures var days := [Day(today, 0, 0, 0, 0)] + past;
            SumDays(u, days) == SumDays(u, past)
            && (|past| >= DAYS_KEPT ==> SumDays(u, days[..DAYS_KEPT]) + SumDays(u, past[DAYS_KEPT - 1..]) == SumDays(u, past))
  {
    var days := [Day(today, 0, 0, 0, 0)] + past;
    assert days[1..] == past;
    if |past| >= DAYS_KEPT {
      assert days == days[..DAYS_KEPT] + past[DAYS_KEPT - 1..];
      SumDaysSplit(u, days[..DAYS_KEPT], past[DAYS_KEPT - 1..]);
    }
  }

  lemma CurrentBalance(u: Unit, s: State, today: int)
    ensures SumDays(u, Current(s, today).days) + Dropped(u, s, today) == SumDays(u, s.days)
    ensures Dropped(u, Current(s, today), today) == 0
  {
    hide SumDays;
    NewDayBalance(u, s.days, today);
  }

  lemma FrontDay(u: Unit, days: seq<Day>, d: Day)
    requires days != []
    ensures SumDays(u, days[0 := d]) == SumDays(u, days) - OfDay(u, days[0]) + OfDay(u, d)
  {
  }

  lemma ChargedBalance(u: Unit, s: State, today: int, c: Call)
    ensures var r := Charged(s, today, c.tokensIn, c.tokensOut, c.delta, c.token);
            SumDays(u, r.days) + Dropped(u, s, today) == SumDays(u, s.days) + OfCall(u, c)
            && Dropped(u, r, today) == 0
  {
    hide SumDays, Current;
    CurrentBalance(u, s, today);
    var days := Current(s, today).days;
    var d := days[0];
    FrontDay(u, days, Day(d.day, d.calls + 1, d.tokensIn + c.tokensIn, d.tokensOut + c.tokensOut, d.cost + c.delta));
  }

  predicate HasRecord(wal: seq<WalLine>) {
    exists i :: 0 <= i < |wal| && wal[i].WalRecord?
  }

  lemma HasRecordAppend(wal: seq<WalLine>, l: WalLine)
    ensures HasRecord(wal + [l]) <==> HasRecord(wal) || l.WalRecord?
  {
    if HasRecord(wal) {
      var i :| 0 <= i < |wal| && wal[i].WalRecord?;
      assert (wal + [l])[i].WalRecord?;
    }
    assert (wal + [l])[|wal|] == l;
  }

  /** A log without a readable record holds no spend, so neither does a log after its drain. */
  lemma {:induction false} SumWithoutRecords(u: Unit, wal: seq<WalLine>)
    ensures !HasRecord(wal) ==> SumWal(u, wal) == 0
    ensures SumWal(u, WalAfterDrain(wal)) == 0
  {
    if wal != [] && !HasRecord(wal) {
      var last := |wal| - 1;
      assert wal == wal[..last] + [wal[last]];
      HasRecordAppend(wal[..last], wal[last]);
      SumWithoutRecords(u, wal[..last]);
    }
  }

  /** Draining moves the whole log into the state, counting each record once. */
  lemma {:induction false} DrainBalance(u: Unit, s: State, wal: seq<WalLine>, today: int)
    ensures var r := Drained(s, wal, today);
            if HasRecord(wal)
            then SumDays(u, r.days) + Dropped(u, s, today) == SumDays(u, s.days) + SumWal(u, wal)
                 && Dropped(u, r, today) == 0
            else r == s && SumWal(u, wal) == 0
  {
    if wal != [] {
      hide SumDays, Dropped, Charged, HasRecord;
      var last := |wal| - 1;
      var init, l := wal[..last], wal[last];
      assert wal == init + [l];
      HasRecordAppend(init, l);
      DrainBalance(u, s, init, today);
      if l.WalRecord? {
        ChargedBalance(u, Drained(s, init, today), today, Call(l.tokensIn, l.tokensOut, l.delta, l.token));
      }
    }
  }

  lemma PendingIsNoSpend(u: Unit, s: State, pending: seq<Reservation>, today: int)
    ensures Dropped(u, s.(pending := pending), today) == Dropped(u, s, today)
  {
  }

  /** The spend a locked record leaves in the file when it loads first: all of it. */
  lemma LoadFirstBalance(u: Unit, cfg: Config, cache: State, f: Stored, wal: seq<WalLine>, call: Call, now: int)
    ensures SumDays(u, AfterRecord(LoadThenDrain, cfg, cache, f, wal, call, now).days) + Dropped(u, Loaded(cache, f), DayOf(now))
            == SumDays(u, Loaded(cache, f).days) + SumWal(u, wal) + OfCall(u, call)
  {
    hide SumDays, Dropped, Charged, HasRecord, SumWal, Drained, Pruned, Loaded;
    var d := Drained(Loaded(cache, f), wal, DayOf(now));
    var pending := Pruned(d.pending, now, cfg.pruneAfter);
    DrainBalance(u, Loaded(cache, f), wal, DayOf(now));
    ChargedBalance(u, d.(pending := pending), DayOf(now), call);
    PendingIsNoSpend(u, d, pending, DayOf(now));
  }

  /** And in the order the tracker uses: what was drained is kept only when there is no file. */
  lemma DrainFirstBalance(u: Unit, cfg: Config, cache: State, f: Stored, wal: seq<WalLine>, call: Call, now: int)
    ensures SumDays(u, AfterRecord(DrainThenLoad, cfg, cache, f, wal, call, now).days) + Dropped(u, Loaded(cache, f), DayOf(now))
            == SumDays(u, Loaded(cache, f).days) + (if f.Missing? then SumWal(u, wal) else 0) + OfCall(u, call)
  {
    hide SumDays, Dropped, Charged, HasRecord, SumWal, Drained, Pruned;
    if f.Missing? {
      LoadFirstBalance(u, cfg, cache, f, wal, call, now);
    } else {
      var base := Loaded(cache, f);
      var pending := Pruned(base.pending, now, cfg.pruneAfter);
      ChargedBalance(u, base.(pending := pending), DayOf(now), call);
      PendingIsNoSpend(u, base, pending, DayOf(now));
    }
  }

  /** The order written in the code keeps as much as loading first exactly when no data file
      exists or the log holds nothing: a drained record survives only without a file. */
  lemma DrainSurvivesIff(u: Unit, cfg: Config, cache: State, f: Stored, wal: seq<WalLine>, call: Call, now: int)
    ensures SumDays(u, AfterRecord(DrainThenLoad, cfg, cache, f, wal, call, now).days)
            == SumDays(u, AfterRecord(LoadThenDrain, cfg, cache, f, wal, call, now).days)
            <==> f.Missing? || SumWal(u, wal) == 0
  {
    hide AfterRecord, SumDays, SumWal, Dropped, Loaded;
    LoadFirstBalance(u, cfg, cache, f, wal, call, now);
    DrainFirstBalance(u, cfg, cache, f, wal, call, now);
  }

  // ---- the ledger of a whole run --------------------------------------------------------------------

  /** All that was ever billed, what left the file with days older than the thirty kept, and what
      was drained from the log and then overwritten by the file. */
  datatype Ledger = Ledger(billed: int, dropped: int, lost: int)

  function Post(u: Unit, order: Order, cfgs: nat -> Config, s: Sys, l: Ledger, m: Move): Ledger {
    var cfg, cache := cfgs(m.tracker), CacheOf(s, m.tracker);
    var out := l.dropped + Dropped(u, Loaded(cache, s.stored), DayOf(m.now));
    match m.action
    case Reserve(amount, pid, token, locked) =>
      if Inside(cfg, locked) && ReserveReply(cfg, cache, s.stored, Reservation(pid, amount, m.now, token)).Ok?
      then l.(dropped := out)
      else l
    case Record(call, locked) =>
      var billed := l.billed + OfCall(u, call);
      if !Inside(cfg, locked) then l.(billed := billed)
      else Ledger(billed, out,
                  if order == DrainThenLoad && !s.stored.Missing? then l.lost + SumWal(u, s.wal) else l.lost)
    case Cancel(_, _) => l
    case Look => l
  }

  function Books(u: Unit, order: Order, cfgs: nat -> Config, moves: seq<Move>): Ledger {
    if moves == [] then Ledger(0, 0, 0)
    else
      var init := moves[..|moves| - 1];
      Post(u, order, cfgs, Run(order, cfgs, init), Books(u, order, cfgs, init), moves[|moves| - 1])
  }

  /** Nothing charged on any day. */
  predicate Empty(u: Unit, days: seq<Day>) {
    forall i :: 0 <= i < |days| ==> OfDay(u, days[i]) == 0
  }

  lemma {:induction false} EmptySum(u: Unit, days: seq<Day>)
    requires Empty(u, days)
    ensures SumDays(u, days) == 0
  {
    if days != [] {
      assert Empty(u, days[1..]);
      EmptySum(u, days[1..]);
    }
  }

  lemma EmptyCurrent(u: Unit, s: State, today: int)
    requires Empty(u, s.days)
    ensures Empty(u, Current(s, today).days)
    ensures SumDays(u, s.days) == 0 && Dropped(u, s, today) == 0
  {
    hide SumDays;
    EmptySum(u, s.days);
    if |s.days| >= DAYS_KEPT {
      EmptySum(u, s.days[DAYS_KEPT - 1..]);
    }
  }

  ghost predicate Balanced(u: Unit, s: Sys, l: Ledger) {
    match s.stored
    case Corrupt => false
    case Missing =>
      (forall i :: Empty(u, CacheOf(s, i).days)) && SumWal(u, s.wal) == l.billed && l.dropped == 0 && l.lost == 0
    case Data(st) => SumDays(u, st.days) + SumWal(u, s.wal) + l.dropped + l.lost == l.billed
  }

  lemma CacheOnlyBalanced(u: Unit, s: Sys, l: Ledger, i: nat, c: State)
    requires Balanced(u, s, l) && (s.stored.Missing? ==> Empty(u, c.days))
    ensures Balanced(u, s.(caches := s.caches[i := c]), l)
  {
    var s' := s.(caches := s.caches[i := c]);
    assert forall j :: CacheOf(s', j) == if j == i then c else CacheOf(s, j);
  }

  /** What a reservation attempt does to the spend: it only rolls the day. */
  lemma ReserveSpend(u: Unit, cfg: Config, cache: State, f: Stored, now: int)
    ensures SumDays(u, Checked(cfg, cache, f, now).days) + Dropped(u, Loaded(cache, f), DayOf(now))
            == SumDays(u, Loaded(cache, f).days)
    ensures Empty(u, Loaded(cache, f).days) ==> Empty(u, Checked(cfg, cache, f, now).days)
  {
    hide SumDays, Dropped, Current, Loaded, Pruned;
    var base := Loaded(cache, f);
    var pending := Pruned(base.pending, now, cfg.pruneAfter);
    CurrentBalance(u, base.(pending := pending), DayOf(now));
    PendingIsNoSpend(u, base, pending, DayOf(now));
    if Empty(u, base.days) {
      EmptyCurrent(u, base.(pending := pending), DayOf(now));
    }
  }

  lemma ReserveBalanced(u: Unit, order: Order, cfgs: nat -> Config, s: Sys, l: Ledger, m: Move)
    requires Balanced(u, s, l) && m.action.Reserve?
    ensures Balanced(u, Step(order, cfgs, s, m), Post(u, order, cfgs, s, l, m))
  {
    hide SumDays, Dropped, Checked, Empty, SumWal;
    var cfg, cache := cfgs(m.tracker), CacheOf(s, m.tracker);
    var r := Reservation(m.action.pid, m.action.amount, m.now, m.action.token);
    ReserveSpend(u, cfg, cache, s.stored, m.now);
    if s.stored.Missing? {
      EmptyCurrent(u, cache, DayOf(m.now));
      assert Empty(u, CacheOf(s, m.tracker).days);
      EmptySum(u, cache.days);
    }
    if Inside(cfg, m.action.locked) && !ReserveReply(cfg, cache, s.stored, r).Ok? {
      CacheOnlyBalanced(u, s, l, m.tracker, AfterReserve(cfg, cache, s.stored, r).cache);
    }
  }

  /** The step's record, as the balance lemmas give it for either order. */
  lemma RecordSpend(u: Unit, order: Order, cfg: Config, cache: State, f: Stored, wal: seq<WalLine>, call: Call, now: int)
    ensures SumDays(u, AfterRecord(order, cfg, cache, f, wal, call, now).days) + Dropped(u, Loaded(cache, f), DayOf(now))
            == SumDays(u, Loaded(cache, f).days) + OfCall(u, call)
               + if order == DrainThenLoad && !f.Missing? then 0 else SumWal(u, wal)
    ensures SumWal(u, WalAfterDrain(wal)) == 0
  {
    hide *;
    SumWithoutRecords(u, wal);
    match order
    case DrainThenLoad => DrainFirstBalance(u, cfg, cache, f, wal, call, now);
    case LoadThenDrain => LoadFirstBalance(u, cfg, cache, f, wal, call, now);
  }

  lemma RecordInsideBalanced(u: Unit, order: Order, cfgs: nat -> Config, s: Sys, l: Ledger, m: Move)
    requires Balanced(u, s, l) && m.action.Record? && Inside(cfgs(m.tracker), m.action.locked)
    ensures Balanced(u, Step(order, cfgs, s, m), Post(u, order, cfgs, s, l, m))
  {
    hide AfterRecord, Dropped, SumDays, SumWal, WalAfterDrain, OfCall, Empty, Inside;
    var cache := CacheOf(s, m.tracker);
    RecordSpend(u, order, cfgs(m.tracker), cache, s.stored, s.wal, m.action.call, m.now);
    if s.stored.Missing? {
      assert Empty(u, CacheOf(s, m.tracker).days);
      EmptyCurrent(u, cache, DayOf(m.now));
    }
  }

  /** A record without the lock moves its call into the log. */
  lemma UnlockedBalanced(u: Unit, s: Sys, l: Ledger, call: Call)
    requires Balanced(u, s, l)
    ensures Balanced(u, s.(wal := s.wal + [WalRecord(call.tokensIn, call.tokensOut, call.delta, call.token)]),
                     l.(billed := l.billed + OfCall(u, call)))
  {
    hide SumDays, Empty;
    var line := WalRecord(call.tokensIn, call.tokensOut, call.delta, call.token);
    var s' := s.(wal := s.wal + [line]);
    assert s'.wal[..|s.wal|] == s.wal;
    assert forall i :: CacheOf(s', i) == CacheOf(s, i);
  }

  lemma RecordBalanced(u: Unit, order: Order, cfgs: nat -> Config, s: Sys, l: Ledger, m: Move)
    requires Balanced(u, s, l) && m.action.Record?
    ensures Balanced(u, Step(order, cfgs, s, m), Post(u, order, cfgs, s, l, m))
  {
    hide Balanced, AfterRecord, Dropped, SumWal, WalAfterDrain, OfCall;
    if Inside(cfgs(m.tracker), m.action.locked) {
      RecordInsideBalanced(u, order, cfgs, s, l, m);
    } else {
      UnlockedBalanced(u, s, l, m.action.call);
    }
  }

  lemma CancelBalanced(u: Unit, order: Order, cfgs: nat -> Config, s: Sys, l: Ledger, m: Move)
    requires Balanced(u, s, l) && m.action.Cancel?
    ensures Balanced(u, Step(order, cfgs, s, m), Post(u, order, cfgs, s, l, m))
  {
    var cfg, cache, token := cfgs(m.tracker), CacheOf(s, m.tracker), m.action.token;
    if Inside(cfg, m.action.locked) {
      hide SumDays, Empty, SumWal, Pruned, Without, HasToken;
      var base := Loaded(cache, s.stored);
      var e := AfterCancel(cfg, cache, s.stored, token, m.now);
      assert e.cache.days == base.days;
      if s.stored.Missing? {
        EmptySum(u, CacheOf(s, m.tracker).days);
      }
      CacheOnlyBalanced(u, s, l, m.tracker, e.cache);
    }
  }

  lemma LookBalanced(u: Unit, order: Order, cfgs: nat -> Config, s: Sys, l: Ledger, m: Move)
    requires Balanced(u, s, l) && m.action.Look?
    ensures Balanced(u, Step(order, cfgs, s, m), Post(u, order, cfgs, s, l, m))
  {
    hide SumDays, Empty, SumWal, Dropped, Current;
    var base := Loaded(CacheOf(s, m.tracker), s.stored);
    if s.stored.Missing? {
      EmptyCurrent(u, base, DayOf(m.now));
    }
    CacheOnlyBalanced(u, s, l, m.tracker, Current(base, DayOf(m.now)));
  }

  /** Spend is conserved over every run, in either order: what was billed is in the file, in the
      log, in dropped days, or lost to a drain; and only draining first ever loses any. */
  lemma {:induction false} SpendIsConserved(u: Unit, order: Order, cfgs: nat -> Config, moves: seq<Move>)
    ensures Balanced(u, Run(order, cfgs, moves), Books(u, order, cfgs, moves))
    ensures order == LoadThenDrain ==> Books(u, order, cfgs, moves).lost == 0
  {
    if moves == [] {
      assert forall i :: CacheOf(START, i) == BLANK;
    } else {
      hide Balanced, Step, SumWal, Dropped, OfCall;
      var init, m := moves[..|moves| - 1], moves[|moves| - 1];
      var s, l := Run(order, cfgs, init), Books(u, order, cfgs, init);
      SpendIsConserved(u, order, cfgs, init);
      match m.action
      case Reserve(_, _, _, _) => ReserveBalanced(u, order, cfgs, s, l, m);
      case Record(_, _) => RecordBalanced(u, order, cfgs, s, l, m);
      case Cancel(_, _) => CancelBalanced(u, order, cfgs, s, l, m);
      case Look => LookBalanced(u, order, cfgs, s, l, m);
    }
  }

  /** The stated intent, that a drain loses no spend, fails in the order written: with a file in
      place, a log of 5 and a new bill of 7, the file ends at 7 and the log empty. */
  lemma DrainCanLoseSpend(cfg: Config)
    ensures var wal := [WalRecord(0, 0, 5, None)];
            && SumDays(Cost, AfterRecord(DrainThenLoad, cfg, BLANK, Data(BLANK), wal, Call(0, 0, 7, None), 0).days) == 7
            && SumDays(Cost, AfterRecord(LoadThenDrain, cfg, BLANK, Data(BLANK), wal, Call(0, 0, 7, None), 0).days) == 12
            && WalAfterDrain(wal) == []
  {
  }

  /** In general: once the file exists, a call recorded without the lock leaves no trace in the
      file or the log after the next locked record, whoever makes it. */
  lemma UnlockedRecordIsLost(u: Unit, cfgs: nat -> Config, s: Sys, first: Move, second: Move)
    requires s.stored.Data? && first.action.Record? && second.action.Record?
    requires !Inside(cfgs(first.tracker), first.action.locked) && Inside(cfgs(second.tracker), second.action.locked)
    ensures var s' := Step(DrainThenLoad, cfgs, Step(DrainThenLoad, cfgs, s, first), second);
            && s'.stored.Data? && SumWal(u, s'.wal) == 0
            && SumDays(u, s'.stored.state.days) + Dropped(u, s.stored.state, DayOf(second.now))
               == SumDays(u, s.stored.state.days) + OfCall(u, second.action.call)
  {
    hide AfterRecord, SumDays, SumWal, Dropped, OfCall, WalAfterDrain;
    var mid := Step(DrainThenLoad, cfgs, s, first);
    DrainFirstBalance(u, cfgs(second.tracker), CacheOf(mid, second.tracker), mid.stored, mid.wal,
                      second.action.call, second.now);
    SumWithoutRecords(u, mid.wal);
  }
}
