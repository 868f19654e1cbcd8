/** The daily cap over every interleaving of any number of capped trackers on one file. Each move
    is one locked section; each tracker keeps a cache that may be arbitrarily stale. */
module BudgetCap {
  import opened Prelude
  import opened Budget

  datatype Action =
    | Reserve(amount: int, pid: int, token: string, locked: bool)
    | Record(call: Call, locked: bool)
    | Cancel(token: string, locked: bool)
    | Look

  datatype Move = Move(tracker: nat, now: int, action: Action)

  datatype Sys = Sys(stored: Stored, wal: seq<WalLine>, caches: map<nat, State>)

  const START := Sys(Missing, [], map[])

  function CacheOf(s: Sys, i: nat): State {
    if i in s.caches then s.caches[i] else BLANK
  }

  predicate Inside(cfg: Config, locked: bool) {
    locked || !MustLock(cfg)
  }

  function Install(s: Sys, i: nat, e: Effect): Sys {
    s.(stored := e.stored, caches := s.caches[i := e.cache])
  }

  function Step(order: Order, cfgs: nat -> Config, s: Sys, m: Move): Sys {
    var cfg, cache := cfgs(m.tracker), CacheOf(s, m.tracker);
    match m.action
    case Reserve(amount, pid, token, locked) =>
      if Inside(cfg, locked)
      then Install(s, m.tracker, AfterReserve(cfg, cache, s.stored, Reservation(pid, amount, m.now, token)))
      else s
    case Record(call, locked) =>
      if Inside(cfg, locked)
      then
        var c := AfterRecord(order, cfg, cache, s.stored, s.wal, call, m.now);
        Install(s, m.tracker, Effect(c, Data(c))).(wal := WalAfterDrain(s.wal))
      else s.(wal := s.wal + [WalRecord(call.tokensIn, call.tokensOut, call.delta, call.token)])
    case Cancel(token, locked) =>
      if Inside(cfg, locked)
      then Install(s, m.tracker, AfterCancel(cfg, cache, s.stored, token, m.now))
      else s
    case Look =>
      Install(s, m.tracker, Effect(Current(Loaded(cache, s.stored), DayOf(m.now)), AfterLoad(s.stored)))
  }

  // ---- what happened so far ------------------------------------------------------------------------

  /** The reservations issued, in order; the tokens recorded or cancelled; the tokens pruned by a
      step that wrote the file; what was billed on the newest day entry beyond the reservations
      that were released for it; the latest clock reading. */
  datatype History = History(issued: seq<Reservation>, done: set<string>, pruned: set<string>, over: int, clock: int)

  const NOTHING := History([], {}, {}, 0, 0)

  function StaleTokens(issued: seq<Reservation>, now: int, pruneAfter: int): set<string> {
    set i | 0 <= i < |issued| && now - issued[i].ts > pruneAfter :: issued[i].token
  }

  /** The step's view of the file, when it has one. */
  function View(cfgs: nat -> Config, s: Sys, m: Move): State {
    Checked(cfgs(m.tracker), CacheOf(s, m.tracker), s.stored, m.now)
  }

  /** The amount of the first reservation with the token, if any. */
  function AmountOf(pending: seq<Reservation>, token: string): int {
    if pending == [] then 0
    else if pending[0].token == token then pending[0].amount
    else AmountOf(pending[1..], token)
  }

  /** What a bill adds beyond the reservation it releases: the whole bill when that is gone. */
  function Overrun(pending: seq<Reservation>, token: string, bill: int): int {
    if bill > AmountOf(pending, token) then bill - AmountOf(pending, token) else 0
  }

  function Rolled(s: Sys, over: int, now: int): int {
    if s.stored.Data? && s.stored.state.days != [] && s.stored.state.days[0].day == DayOf(now) then over else 0
  }

  function Witness(cfgs: nat -> Config, s: Sys, g: History, m: Move): History {
    var cfg, cache := cfgs(m.tracker), CacheOf(s, m.tracker);
    var gone := StaleTokens(g.issued, m.now, cfg.pruneAfter);
    match m.action
    case Reserve(amount, pid, token, locked) =>
      var r := Reservation(pid, amount, m.now, token);
      if Inside(cfg, locked) && ReserveReply(cfg, cache, s.stored, r).Ok?
      then History(g.issued + [r], g.done, g.pruned + gone, Rolled(s, g.over, m.now), m.now)
      else g.(clock := m.now)
    case Record(call, locked) =>
      if Inside(cfg, locked) && call.token.Some?
      then
        History(g.issued, g.done + {call.token.value}, g.pruned + gone,
                Rolled(s, g.over, m.now) + Overrun(View(cfgs, s, m).pending, call.token.value, call.delta), m.now)
      else g.(clock := m.now)
    case Cancel(token, locked) =>
      if Inside(cfg, locked) && HasToken(View(cfgs, s, m).pending, token)
      then g.(done := g.done + {token}, pruned := g.pruned + gone, clock := m.now)
      else g.(clock := m.now)
    case Look => g.(clock := m.now)
  }

  /** The discipline of the metering wrapper: tokens are unique, every call is reserved before it is
      recorded, and is recorded or cancelled at most once. The bill need not respect the estimate. */
  predicate Obeys(g: History, m: Move) {
    g.clock <= m.now &&
    match m.action
    case Reserve(amount, _, token, _) => 0 <= amount && !HasToken(g.issued, token)
    case Record(call, _) =>
      0 <= call.delta && call.token.Some? && call.token.value !in g.done
      && HasToken(g.issued, call.token.value)
    case Cancel(token, _) => token !in g.done
    case Look => true
  }

  // ---- the invariant ---------------------------------------------------------------------------------

  /** The issued reservations that are neither recorded, cancelled nor pruned, in order of issue. */
  function Open(issued: seq<Reservation>, closed: set<string>): seq<Reservation> {
    if issued == [] then []
    else
      var rest := Open(issued[..|issued| - 1], closed);
      if issued[|issued| - 1].token in closed then rest else rest + [issued[|issued| - 1]]
  }

  predicate UniqueTokens(issued: seq<Reservation>) {
    forall i, j :: 0 <= i < j < |issued| ==> issued[i].token != issued[j].token
  }

  predicate NoDebts(pending: seq<Reservation>) {
    forall i :: 0 <= i < |pending| ==> pending[i].amount >= 0
  }

  /** Newest first, one entry a day, none from the future. */
  predicate DaysDescend(days: seq<Day>, today: int) {
    (forall i :: 0 <= i < |days| ==> days[i].cost >= 0 && days[i].day <= today)
    && forall i, j :: 0 <= i < j < |days| ==> days[i].day > days[j].day
  }

  predicate Unspent(c: State, today: int) {
    c.pending == [] && DaysDescend(c.days, today) && forall i :: 0 <= i < |c.days| ==> c.days[i].cost == 0
  }

  ghost predicate Inv(cap: int, s: Sys, g: History) {
    && UniqueTokens(g.issued) && NoDebts(g.issued) && g.over >= 0
    && (forall t :: t in g.done || t in g.pruned ==> HasToken(g.issued, t))
    && match s.stored
       case Corrupt => false
       case Missing => g.issued == [] && forall i :: Unspent(CacheOf(s, i), DayOf(g.clock))
       case Data(st) => DataInv(cap, st, g)
  }

  predicate DataInv(cap: int, st: State, g: History) {
    && st.pending == Open(g.issued, g.done + g.pruned)
    && NoDebts(st.pending)
    && st.days != [] && DaysDescend(st.days, DayOf(g.clock))
    && Total(st.pending) <= cap
    && st.days[0].cost + Total(st.pending) <= cap + g.over
  }

  // ---- facts about reservations ---------------------------------------------------------------------

  lemma {:induction false} PrunedOpen(part: seq<Reservation>, issued: seq<Reservation>, closed: set<string>, now: int,
                                      pruneAfter: int)
    requires UniqueTokens(issued) && part <= issued
    ensures Pruned(Open(part, closed), now, pruneAfter) == Open(part, closed + StaleTokens(issued, now, pruneAfter))
  {
    if part != [] {
      var last := |part| - 1;
      var r := part[last];
      var stale := StaleTokens(issued, now, pruneAfter);
      PrunedOpen(part[..last], issued, closed, now, pruneAfter);
      assert issued[last] == r;
      assert r.token in stale <==> IsStale(r, now, pruneAfter);
      var rest := Open(part[..last], closed);
      assert (rest + [r])[..|rest + [r]| - 1] == rest;
    }
  }

  lemma {:induction false} WithoutAppend(pending: seq<Reservation>, r: Reservation, token: string)
    ensures Without(pending + [r], token) ==
            if HasToken(pending, token) then Without(pending, token) + [r]
            else if r.token == token then pending else pending + [r]
  {
    if pending == [] {
      assert pending + [r] == [r];
    } else {
      assert (pending + [r])[1..] == pending[1..] + [r];
      WithoutAppend(pending[1..], r, token);
      assert HasToken(pending, token) <==> pending[0].token == token || HasToken(pending[1..], token) by {
        assert forall i :: 0 < i < |pending| ==> pending[i] == pending[1..][i - 1];
      }
    }
  }

  lemma {:induction false} OpenTokens(issued: seq<Reservation>, closed: set<string>, token: string)
    ensures HasToken(Open(issued, closed), token) <==> HasToken(issued, token) && token !in closed
  {
    if issued != [] {
      var last := |issued| - 1;
      OpenTokens(issued[..last], closed, token);
      var rest := Open(issued[..last], closed);
      TokenAppend(issued[..last], issued[last], token);
      TokenAppend(rest, issued[last], token);
      assert issued == issued[..last] + [issued[last]];
    }
  }

  lemma TokenAppend(pending: seq<Reservation>, r: Reservation, token: string)
    ensures HasToken(pending + [r], token) <==> HasToken(pending, token) || r.token == token
  {
    if HasToken(pending, token) {
      var i :| 0 <= i < |pending| && pending[i].token == token;
      assert (pending + [r])[i].token == token;
    }
    assert (pending + [r])[|pending|] == r;
  }

  lemma LastIsUnique(issued: seq<Reservation>)
    requires UniqueTokens(issued) && issued != []
    ensures UniqueTokens(issued[..|issued| - 1])
    ensures !HasToken(issued[..|issued| - 1], issued[|issued| - 1].token)
  {
  }

  lemma {:induction false} OpenWithout(issued: seq<Reservation>, closed: set<string>, token: string)
    requires UniqueTokens(issued)
    ensures Without(Open(issued, closed), token) == Open(issued, closed + {token})
  {
    if issued != [] {
      hide Without, HasToken, UniqueTokens;
      var last := |issued| - 1;
      var r := issued[last];
      var rest := Open(issued[..last], closed);
      LastIsUnique(issued);
      OpenWithout(issued[..last], closed, token);
      OpenTokens(issued[..last], closed, token);
      WithoutAppend(rest, r, token);
      if !HasToken(rest, token) {
        WithoutAbsent(rest, token);
      }
    }
  }

  lemma {:induction false} TotalSplit(a: seq<Reservation>, b: seq<Reservation>)
    ensures Total(a + b) == Total(a) + Total(b)
  {
    if b == [] {
      assert a + b == a;
    } else {
      assert (a + b)[..|a + b| - 1] == a + b[..|b| - 1];
      TotalSplit(a, b[..|b| - 1]);
    }
  }

  lemma {:induction false} PrunedTotal(pending: seq<Reservation>, now: int, pruneAfter: int)
    requires NoDebts(pending)
    ensures Total(Pruned(pending, now, pruneAfter)) <= Total(pending)
    ensures NoDebts(Pruned(pending, now, pruneAfter))
  {
    if pending != [] {
      var last := |pending| - 1;
      PrunedTotal(pending[..last], now, pruneAfter);
      var rest := Pruned(pending[..last], now, pruneAfter);
      assert (rest + [pending[last]])[..|rest|] == rest;
    }
  }

  /** Removing a reservation releases exactly its amount. */
  lemma WithoutTotal(pending: seq<Reservation>, token: string) returns (released: int)
    requires NoDebts(pending) && HasToken(pending, token)
    ensures Total(Without(pending, token)) == Total(pending) - released
    ensures NoDebts(Without(pending, token))
    ensures released == AmountOf(pending, token) >= 0
  {
    hide Without, AmountOf, Total, HasToken;
    var k := FirstWith(pending, token);
    WithoutFirst(pending, token, k);
    AmountOfFirst(pending, token, k);
    released := pending[k].amount;
    TotalAround(pending, k);
  }

  lemma TotalAround(pending: seq<Reservation>, k: nat)
    requires k < |pending|
    ensures Total(pending) == Total(pending[..k] + pending[k + 1..]) + pending[k].amount
  {
    hide Total;
    assert pending == pending[..k] + ([pending[k]] + pending[k + 1..]);
    TotalSplit(pending[..k], [pending[k]] + pending[k + 1..]);
    TotalSplit([pending[k]], pending[k + 1..]);
    TotalSplit(pending[..k], pending[k + 1..]);
    TotalOne(pending[k]);
  }

  lemma {:induction false} AmountOfFirst(pending: seq<Reservation>, token: string, k: nat)
    requires k < |pending| && pending[k].token == token
    requires forall j :: 0 <= j < k ==> pending[j].token != token
    ensures AmountOf(pending, token) == pending[k].amount
  {
    if k > 0 {
      AmountOfFirst(pending[1..], token, k - 1);
    }
  }

  lemma {:induction false} FirstWith(pending: seq<Reservation>, token: string) returns (k: nat)
    requires HasToken(pending, token)
    ensures k < |pending| && pending[k].token == token
    ensures forall j :: 0 <= j < k ==> pending[j].token != token
  {
    k := 0;
    while pending[k].token != token
      invariant k < |pending|
      invariant forall j :: 0 <= j < k ==> pending[j].token != token
      decreases |pending| - k
    {
      var i :| 0 <= i < |pending| && pending[i].token == token;
      k := k + 1;
    }
  }

  lemma {:induction false} OpenEntry(issued: seq<Reservation>, closed: set<string>, r: Reservation)
    requires r in Open(issued, closed)
    ensures r in issued
  {
    if issued != [] {
      var last := |issued| - 1;
      if r != issued[last] {
        OpenEntry(issued[..last], closed, r);
      }
    }
  }

  // ---- every step keeps the invariant ------------------------------------------------------------

  lemma CurrentDescends(s: State, clock: int, today: int)
    requires DaysDescend(s.days, clock) && clock <= today
    ensures DaysDescend(Current(s, today).days, today)
    ensures Current(s, today).days[0].cost == if s.days != [] && s.days[0].day == today then s.days[0].cost else 0
  {
    if s.days != [] && s.days[0].day == today {
    } else {
      var days := [Day(today, 0, 0, 0, 0)] + s.days;
      assert s.days != [] ==> s.days[0].day < today;
      forall i, j | 0 <= i < j < |days| ensures days[i].day > days[j].day {
        assert days[j] == s.days[j - 1];
        if i > 0 {
          assert days[i] == s.days[i - 1];
        } else if j > 1 {
          assert s.days[0].day > s.days[j - 1].day;
        }
      }
      forall i | 0 <= i < |days| ensures days[i].cost >= 0 && days[i].day <= today {
        if i > 0 {
          assert days[i] == s.days[i - 1];
        }
      }
    }
  }

  lemma DayOfMonotone(a: int, b: int)
    requires a <= b
    ensures DayOf(a) <= DayOf(b)
  {
  }

  /** What a step sees of a file that holds a state. */
  lemma ViewOfData(cap: int, cfg: Config, cache: State, st: State, g: History, now: int)
    requires UniqueTokens(g.issued) && DataInv(cap, st, g) && g.clock <= now
    ensures var v := Checked(cfg, cache, Data(st), now);
            && v.pending == Open(g.issued, g.done + (g.pruned + StaleTokens(g.issued, now, cfg.pruneAfter)))
            && NoDebts(v.pending) && Total(v.pending) <= cap
            && DaysDescend(v.days, DayOf(now))
            && v.days[0].cost + Total(v.pending) <= cap + if st.days[0].day == DayOf(now) then g.over else 0
  {
    var stale := StaleTokens(g.issued, now, cfg.pruneAfter);
    PrunedOpen(g.issued, g.issued, g.done + g.pruned, now, cfg.pruneAfter);
    assert g.done + g.pruned + stale == g.done + (g.pruned + stale);
    PrunedTotal(st.pending, now, cfg.pruneAfter);
    DayOfMonotone(g.clock, now);
    CurrentDescends(st.(pending := Pruned(st.pending, now, cfg.pruneAfter)), DayOf(g.clock), DayOf(now));
  }

  /** What a step sees when there is no file yet. */
  lemma ViewOfNothing(cfg: Config, cache: State, clock: int, now: int)
    requires Unspent(cache, DayOf(clock)) && clock <= now
    ensures var v := Checked(cfg, cache, Missing, now);
            v.pending == [] && DaysDescend(v.days, DayOf(now)) && v.days[0].cost == 0
    ensures Unspent(Checked(cfg, cache, Missing, now), DayOf(now))
    ensures Unspent(Current(cache, DayOf(now)), DayOf(now))
  {
  }

  /** Time passing alone keeps an unspent cache unspent. */
  lemma UnspentLater(c: State, clock: int, now: int)
    requires Unspent(c, DayOf(clock)) && clock <= now
    ensures Unspent(c, DayOf(now))
  {
  }

  lemma ClockKeepsInv(cap: int, s: Sys, g: History, now: int)
    requires Inv(cap, s, g) && g.clock <= now
    ensures Inv(cap, s, g.(clock := now))
  {
  }

  predicate Capped(cap: int, cfg: Config) {
    cfg.dayCap.Some? && cfg.dayCap.value <= cap
  }

  /** A step that changes no file but only one cache, from an unspent one to an unspent one. */
  lemma CacheOnlyKeepsInv(cap: int, s: Sys, g: History, now: int, i: nat, c: State)
    requires Inv(cap, s, g) && g.clock <= now
    requires s.stored.Missing? ==> Unspent(c, DayOf(now))
    ensures Inv(cap, s.(caches := s.caches[i := c]), g.(clock := now))
  {
    ClockKeepsInv(cap, s, g, now);
    var s' := s.(caches := s.caches[i := c]);
    assert forall j :: CacheOf(s', j) == if j == i then c else CacheOf(s, j);
  }

  lemma ReserveKeepsInv(cap: int, cfgs: nat -> Config, s: Sys, g: History, m: Move)
    requires Inv(cap, s, g) && Obeys(g, m) && m.action.Reserve? && Capped(cap, cfgs(m.tracker))
    ensures Inv(cap, Step(DrainThenLoad, cfgs, s, m), Witness(cfgs, s, g, m))
  {
    hide Inv, Checked, Unspent, FitsDay;
    var cfg, cache := cfgs(m.tracker), CacheOf(s, m.tracker);
    var r := Reservation(m.action.pid, m.action.amount, m.now, m.action.token);
    ClockKeepsInv(cap, s, g, m.now);
    if Inside(cfg, m.action.locked) {
      if ReserveReply(cfg, cache, s.stored, r).Ok? {
        AcceptedReservation(cap, cfgs, s, g, m);
      } else {
        RefusedCache(cap, s, g, m.tracker, cfg, r);
        CacheOnlyKeepsInv(cap, s, g, m.now, m.tracker, AfterReserve(cfg, cache, s.stored, r).cache);
      }
    }
  }

  /** A refused reservation writes no file, and without a file leaves its cache unspent. */
  lemma RefusedCache(cap: int, s: Sys, g: History, i: nat, cfg: Config, r: Reservation)
    requires Inv(cap, s, g) && g.clock <= r.ts
    requires ReserveReply(cfg, CacheOf(s, i), s.stored, r).Err?
    ensures var e := AfterReserve(cfg, CacheOf(s, i), s.stored, r);
            e.stored == s.stored && (s.stored.Missing? ==> Unspent(e.cache, DayOf(r.ts)))
  {
    hide Checked, DataInv;
    if s.stored.Missing? {
      assert Unspent(CacheOf(s, i), DayOf(g.clock));
      ViewOfNothing(cfg, CacheOf(s, i), g.clock, r.ts);
      UnspentLater(CacheOf(s, i), g.clock, r.ts);
    }
  }

  lemma OpenNothing(closed: set<string>)
    ensures Open([], closed) == []
  {
  }

  lemma TotalOne(r: Reservation)
    ensures Total([r]) == r.amount
  {
  }

  /** Issuing a fresh token appends its reservation to the open ones. */
  lemma IssueOne(issued: seq<Reservation>, closed: set<string>, r: Reservation)
    requires UniqueTokens(issued) && !HasToken(issued, r.token) && r.token !in closed
    ensures Open(issued + [r], closed) == Open(issued, closed) + [r]
    ensures UniqueTokens(issued + [r])
  {
  }

  lemma AcceptedReservation(cap: int, cfgs: nat -> Config, s: Sys, g: History, m: Move)
    requires Inv(cap, s, g) && Obeys(g, m) && m.action.Reserve? && Capped(cap, cfgs(m.tracker))
    requires Inside(cfgs(m.tracker), m.action.locked)
    requires ReserveReply(cfgs(m.tracker), CacheOf(s, m.tracker), s.stored,
                          Reservation(m.action.pid, m.action.amount, m.now, m.action.token)).Ok?
    ensures Inv(cap, Step(DrainThenLoad, cfgs, s, m), Witness(cfgs, s, g, m))
  {
    hide Open, Pruned, Checked, DaysDescend, HasToken, Total, NoDebts, UniqueTokens;
    var cfg, cache := cfgs(m.tracker), CacheOf(s, m.tracker);
    var r := Reservation(m.action.pid, m.action.amount, m.now, m.action.token);
    var v := Checked(cfg, cache, s.stored, m.now);
    var g' := Witness(cfgs, s, g, m);
    if s.stored.Missing? {
      ViewOfNothing(cfg, cache, g.clock, m.now);
      OpenNothing(g'.done + g'.pruned);
      EmptyTotal();
    } else {
      ViewOfData(cap, cfg, cache, s.stored.state, g, m.now);
    }
    StaleAreIssued(g.issued, m.now, cfg.pruneAfter);
    assert g'.done + g'.pruned == g.done + (g.pruned + StaleTokens(g.issued, m.now, cfg.pruneAfter));
    Extend(cap, v, g, g', r);
    assert Step(DrainThenLoad, cfgs, s, m).stored == Data(v.(pending := v.pending + [r]));
  }

  lemma EmptyTotal()
    ensures Total([]) == 0 && NoDebts([])
  {
  }

  /** Appending a reservation that fits the cap. */
  lemma Extend(cap: int, v: State, g: History, g': History, r: Reservation)
    requires UniqueTokens(g.issued) && NoDebts(g.issued) && !HasToken(g.issued, r.token) && 0 <= r.amount
    requires g'.issued == g.issued + [r] && g'.over >= 0
    requires forall t :: t in g'.done || t in g'.pruned ==> HasToken(g.issued, t)
    requires v.pending == Open(g.issued, g'.done + g'.pruned) && NoDebts(v.pending)
    requires v.days != [] && DaysDescend(v.days, DayOf(g'.clock))
    requires v.days[0].cost + Total(v.pending) + r.amount <= cap
    ensures UniqueTokens(g'.issued) && NoDebts(g'.issued)
    ensures forall t :: t in g'.done || t in g'.pruned ==> HasToken(g'.issued, t)
    ensures DataInv(cap, v.(pending := v.pending + [r]), g')
  {
    hide Open;
    IssueOne(g.issued, g'.done + g'.pruned, r);
    TotalSplit(v.pending, [r]);
    TotalOne(r);
    forall t | t in g'.done || t in g'.pruned ensures HasToken(g'.issued, t) {
      TokenAppend(g.issued, r, t);
    }
  }

  lemma StaleAreIssued(issued: seq<Reservation>, now: int, pruneAfter: int)
    ensures forall t :: t in StaleTokens(issued, now, pruneAfter) ==> HasToken(issued, t)
  {
  }

  /** A record of an issued call: the file exists, and the state it saves is the checked one with
      the bill added and the reservation, if still there, removed. */
  lemma RecordedState(cfg: Config, cache: State, st: State, wal: seq<WalLine>, call: Call, now: int)
    requires call.token.Some?
    ensures var v := Checked(cfg, cache, Data(st), now);
            var r := AfterRecord(DrainThenLoad, cfg, cache, Data(st), wal, call, now);
            && r.pending == Without(v.pending, call.token.value)
            && |r.days| == |v.days|
            && r.days[0].day == v.days[0].day && r.days[0].cost == v.days[0].cost + call.delta
            && forall i :: 0 < i < |r.days| ==> r.days[i] == v.days[i]
  {
  }

  lemma ChargedDaysDescend(days: seq<Day>, charged: seq<Day>, today: int)
    requires DaysDescend(days, today) && days != [] && |charged| == |days|
    requires charged[0].day == days[0].day && charged[0].cost >= days[0].cost
    requires forall i :: 0 < i < |days| ==> charged[i] == days[i]
    ensures DaysDescend(charged, today)
  {
  }

  lemma RecordKeepsInv(cap: int, cfgs: nat -> Config, s: Sys, g: History, m: Move)
    requires Inv(cap, s, g) && Obeys(g, m) && m.action.Record?
    ensures Inv(cap, Step(DrainThenLoad, cfgs, s, m), Witness(cfgs, s, g, m))
  {
    var cfg, cache := cfgs(m.tracker), CacheOf(s, m.tracker);
    ClockKeepsInv(cap, s, g, m.now);
    if Inside(cfg, m.action.locked) {
      assert s.stored.Data?;
      RecordInsideKeepsInv(cap, cfgs, s, g, m);
    }
  }

  lemma RecordInsideKeepsInv(cap: int, cfgs: nat -> Config, s: Sys, g: History, m: Move)
    requires Inv(cap, s, g) && Obeys(g, m) && m.action.Record? && s.stored.Data?
    requires Inside(cfgs(m.tracker), m.action.locked)
    ensures Inv(cap, Step(DrainThenLoad, cfgs, s, m), Witness(cfgs, s, g, m))
  {
    hide Open, Pruned, Checked, DaysDescend, AfterRecord, Without, HasToken;
    var cfg, cache, call := cfgs(m.tracker), CacheOf(s, m.tracker), m.action.call;
    var st, token := s.stored.state, call.token.value;
    var v := Checked(cfg, cache, s.stored, m.now);
    var g' := Witness(cfgs, s, g, m);
    var closed := g.done + (g.pruned + StaleTokens(g.issued, m.now, cfg.pruneAfter));
    var r := AfterRecord(DrainThenLoad, cfg, cache, s.stored, s.wal, call, m.now);
    ViewOfData(cap, cfg, cache, st, g, m.now);
    RecordedState(cfg, cache, st, s.wal, call, m.now);
    ChargedDaysDescend(v.days, r.days, DayOf(m.now));
    StaleAreIssued(g.issued, m.now, cfg.pruneAfter);
    assert r.pending == Open(g'.issued, g'.done + g'.pruned) by {
      OpenWithout(g.issued, closed, token);
      assert closed + {token} == g'.done + g'.pruned;
    }
    Releases(v.pending, token, call.delta);
  }

  /** Recording releases its reservation, so that the bill moves the sum up by its overrun at most. */
  lemma Releases(pending: seq<Reservation>, token: string, bill: int)
    requires NoDebts(pending) && 0 <= bill
    ensures NoDebts(Without(pending, token)) && 0 <= Overrun(pending, token, bill)
    ensures Total(Without(pending, token)) <= Total(pending)
    ensures Total(Without(pending, token)) + bill <= Total(pending) + Overrun(pending, token, bill)
  {
    if HasToken(pending, token) {
      var _ := WithoutTotal(pending, token);
    } else {
      WithoutAbsent(pending, token);
      AmountOfNone(pending, token);
    }
  }

  lemma {:induction false} AmountOfNone(pending: seq<Reservation>, token: string)
    requires !HasToken(pending, token)
    ensures AmountOf(pending, token) == 0
  {
    if pending != [] {
      assert pending[0].token != token;
      assert forall i :: 0 <= i < |pending[1..]| ==> pending[1..][i] == pending[i + 1];
      AmountOfNone(pending[1..], token);
    }
  }

  lemma CancelKeepsInv(cap: int, cfgs: nat -> Config, s: Sys, g: History, m: Move)
    requires Inv(cap, s, g) && Obeys(g, m) && m.action.Cancel?
    ensures Inv(cap, Step(DrainThenLoad, cfgs, s, m), Witness(cfgs, s, g, m))
  {
    var cfg, cache, token := cfgs(m.tracker), CacheOf(s, m.tracker), m.action.token;
    ClockKeepsInv(cap, s, g, m.now);
    if Inside(cfg, m.action.locked) {
      if HasToken(View(cfgs, s, m).pending, token) {
        if s.stored.Missing? {
          ViewOfNothing(cfg, cache, g.clock, m.now);
        }
        CancelFoundKeepsInv(cap, cfgs, s, g, m);
      } else {
        if s.stored.Missing? {
          UnspentLater(cache, g.clock, m.now);
        }
        CacheOnlyKeepsInv(cap, s, g, m.now, m.tracker, AfterCancel(cfg, cache, s.stored, token, m.now).cache);
      }
    }
  }

  lemma CancelFoundKeepsInv(cap: int, cfgs: nat -> Config, s: Sys, g: History, m: Move)
    requires Inv(cap, s, g) && Obeys(g, m) && m.action.Cancel? && s.stored.Data?
    requires Inside(cfgs(m.tracker), m.action.locked)
    requires HasToken(View(cfgs, s, m).pending, m.action.token)
    ensures Inv(cap, Step(DrainThenLoad, cfgs, s, m), Witness(cfgs, s, g, m))
  {
    hide Open, Pruned, Current, DaysDescend, Without, HasToken;
    var cfg, cache, token := cfgs(m.tracker), CacheOf(s, m.tracker), m.action.token;
    var st := s.stored.state;
    var v := Checked(cfg, cache, s.stored, m.now);
    var g' := Witness(cfgs, s, g, m);
    var closed := g.done + (g.pruned + StaleTokens(g.issued, m.now, cfg.pruneAfter));
    ViewOfData(cap, cfg, cache, st, g, m.now);
    PrunedTotal(st.pending, m.now, cfg.pruneAfter);
    StaleAreIssued(g.issued, m.now, cfg.pruneAfter);
    OpenTokens(g.issued, closed, token);
    OpenWithout(g.issued, closed, token);
    assert closed + {token} == g'.done + g'.pruned;
    ClockKeepsInv(cap, s, g, m.now);
    var _ := WithoutTotal(v.pending, token);
  }

  lemma StepKeepsInv(cap: int, cfgs: nat -> Config, s: Sys, g: History, m: Move)
    requires Inv(cap, s, g) && Obeys(g, m) && Capped(cap, cfgs(m.tracker))
    ensures Inv(cap, Step(DrainThenLoad, cfgs, s, m), Witness(cfgs, s, g, m))
  {
    match m.action
    case Reserve(_, _, _, _) => ReserveKeepsInv(cap, cfgs, s, g, m);
    case Record(_, _) => RecordKeepsInv(cap, cfgs, s, g, m);
    case Cancel(_, _) => CancelKeepsInv(cap, cfgs, s, g, m);
    case Look =>
      var cache := CacheOf(s, m.tracker);
      if s.stored.Missing? {
        ViewOfNothing(cfgs(m.tracker), cache, g.clock, m.now);
      }
      CacheOnlyKeepsInv(cap, s, g, m.now, m.tracker, Current(Loaded(cache, s.stored), DayOf(m.now)));
  }

  // ---- whole runs ---------------------------------------------------------------------------------

  function Run(order: Order, cfgs: nat -> Config, moves: seq<Move>): Sys {
    if moves == [] then START
    else Step(order, cfgs, Run(order, cfgs, moves[..|moves| - 1]), moves[|moves| - 1])
  }

  function Past(cfgs: nat -> Config, moves: seq<Move>): History {
    if moves == [] then NOTHING
    else
      var init := moves[..|moves| - 1];
      Witness(cfgs, Run(DrainThenLoad, cfgs, init), Past(cfgs, init), moves[|moves| - 1])
  }

  /** Every move of the run obeys the discipline, by capped trackers with caps of at most `cap`. */
  predicate Disciplined(cap: int, cfgs: nat -> Config, moves: seq<Move>) {
    moves == [] ||
    (var init := moves[..|moves| - 1];
     Disciplined(cap, cfgs, init) && Obeys(Past(cfgs, init), moves[|moves| - 1])
     && Capped(cap, cfgs(moves[|moves| - 1].tracker)))
  }

  lemma {:induction false} RunKeepsInv(cap: int, cfgs: nat -> Config, moves: seq<Move>)
    requires Disciplined(cap, cfgs, moves)
    ensures Inv(cap, Run(DrainThenLoad, cfgs, moves), Past(cfgs, moves))
  {
    if moves != [] {
      var init := moves[..|moves| - 1];
      RunKeepsInv(cap, cfgs, init);
      StepKeepsInv(cap, cfgs, Run(DrainThenLoad, cfgs, init), Past(cfgs, init), moves[|moves| - 1]);
    }
  }

  /** The cost the file shows for one day, over all its entries. */
  function CostOn(days: seq<Day>, day: int): int {
    if days == [] then 0
    else CostOn(days[..|days| - 1], day) + if days[|days| - 1].day == day then days[|days| - 1].cost else 0
  }

  lemma {:induction false} CostOnNewest(days: seq<Day>, today: int, day: int)
    requires DaysDescend(days, today) && days != [] && days[0].day <= day
    ensures CostOn(days, day) == if days[0].day == day then days[0].cost else 0
  {
    var last := |days| - 1;
    if last > 0 {
      CostOnNewest(days[..last], today, day);
      assert days[0].day > days[last].day;
    } else {
      assert days[..last] == [];
    }
  }

  /** The cap, over every interleaving: at any time from the last move on, the day's cost and all
      pending reservations together exceed the cap by no more than what was billed that day beyond
      the reservations released for it; and pending alone never exceeds it. */
  lemma CapHolds(cap: int, cfgs: nat -> Config, moves: seq<Move>, now: int)
    requires Disciplined(cap, cfgs, moves) && Past(cfgs, moves).clock <= now
    ensures var s, g := Run(DrainThenLoad, cfgs, moves), Past(cfgs, moves);
            match s.stored
            case Corrupt => false
            case Missing => g.issued == []
            case Data(st) =>
              && Total(st.pending) <= cap
              && CostOn(st.days, DayOf(now)) + Total(st.pending)
                 <= cap + if st.days != [] && st.days[0].day == DayOf(now) then g.over else 0
  {
    RunKeepsInv(cap, cfgs, moves);
    var s, g := Run(DrainThenLoad, cfgs, moves), Past(cfgs, moves);
    if s.stored.Data? {
      DayOfMonotone(g.clock, now);
      CostOnNewest(s.stored.state.days, DayOf(g.clock), DayOf(now));
    }
  }

  /** The pending reservations are exactly the issued ones that were not recorded, cancelled or
      pruned, in the order they were issued. */
  lemma PendingIsExact(cap: int, cfgs: nat -> Config, moves: seq<Move>)
    requires Disciplined(cap, cfgs, moves)
    ensures var s, g := Run(DrainThenLoad, cfgs, moves), Past(cfgs, moves);
            s.stored.Data? ==> s.stored.state.pending == Open(g.issued, g.done + g.pruned)
  {
    RunKeepsInv(cap, cfgs, moves);
  }

  /** What a disciplined bill adds to the overrun: the excess over its estimate while its reservation
      is there; once that was pruned the whole bill, and no other way is there to lose it. */
  lemma OverrunIsPrunedOrExcess(cap: int, cfgs: nat -> Config, moves: seq<Move>, m: Move, i: nat)
    requires Disciplined(cap, cfgs, moves) && Obeys(Past(cfgs, moves), m)
    requires m.action.Record? && Inside(cfgs(m.tracker), m.action.locked)
    requires var issued := Past(cfgs, moves).issued;
             i < |issued| && issued[i].token == m.action.call.token.value
    ensures var s, g := Run(DrainThenLoad, cfgs, moves), Past(cfgs, moves);
            var g' := Witness(cfgs, s, g, m);
            var call := m.action.call;
            g'.over - Rolled(s, g.over, m.now) ==
              if call.token.value in g'.pruned then call.delta
              else if call.delta > g.issued[i].amount then call.delta - g.issued[i].amount
              else 0
  {
    hide Inv, DataInv, Run, Past, Open, Checked, StaleTokens, Rolled, Disciplined;
    RunKeepsInv(cap, cfgs, moves);
    var s, g := Run(DrainThenLoad, cfgs, moves), Past(cfgs, moves);
    var cfg := cfgs(m.tracker);
    ReservedMeansData(cap, s, g, i);
    ViewOfData(cap, cfg, CacheOf(s, m.tracker), s.stored.state, g, m.now);
    AmountOfOpen(g.issued, g.done + (g.pruned + StaleTokens(g.issued, m.now, cfg.pruneAfter)), i);
  }

  lemma ReservedMeansData(cap: int, s: Sys, g: History, i: nat)
    requires Inv(cap, s, g) && i < |g.issued|
    ensures s.stored.Data? && DataInv(cap, s.stored.state, g) && UniqueTokens(g.issued) && NoDebts(g.issued)
  {
  }

  lemma AmountOfOpen(issued: seq<Reservation>, closed: set<string>, i: nat)
    requires UniqueTokens(issued) && i < |issued|
    ensures AmountOf(Open(issued, closed), issued[i].token) == if issued[i].token in closed then 0 else issued[i].amount
  {
    hide Open;
    var token := issued[i].token;
    var open := Open(issued, closed);
    OpenTokens(issued, closed, token);
    if HasToken(open, token) {
      var k := FirstWith(open, token);
      AmountOfFirst(open, token, k);
      OpenEntry(issued, closed, open[k]);
    } else {
      AmountOfNone(open, token);
    }
  }

  /** A reservation is only ever pruned once it is older than the time the trackers wait. */
  lemma {:induction false} PrunedIsOld(cap: int, cfgs: nat -> Config, moves: seq<Move>, token: string, age: int)
    requires Disciplined(cap, cfgs, moves) && token in Past(cfgs, moves).pruned
    requires forall j :: cfgs(j).pruneAfter >= age
    ensures var g := Past(cfgs, moves);
            exists i :: 0 <= i < |g.issued| && g.issued[i].token == token && g.clock - g.issued[i].ts > age
  {
    hide ReserveReply, Checked, HasToken;
    var init, m := moves[..|moves| - 1], moves[|moves| - 1];
    var before, g := Past(cfgs, init), Past(cfgs, moves);
    assert before.issued <= g.issued && before.clock <= g.clock == m.now;
    if token in before.pruned {
      PrunedIsOld(cap, cfgs, init, token, age);
      var i :| 0 <= i < |before.issued| && before.issued[i].token == token && before.clock - before.issued[i].ts > age;
      assert g.issued[i] == before.issued[i];
    } else {
      assert token in StaleTokens(before.issued, m.now, cfgs(m.tracker).pruneAfter);
      var i :| 0 <= i < |before.issued| && before.issued[i].token == token
               && m.now - before.issued[i].ts > cfgs(m.tracker).pruneAfter;
      assert g.issued[i] == before.issued[i];
    }
  }

  // ---- one operation, told by the file alone ---------------------------------------------------------

  /** What reservations not older than `age` hold, in sum. */
  function HeldBy(pending: seq<Reservation>, now: int, age: int): int {
    if pending == [] then 0
    else HeldBy(pending[..|pending| - 1], now, age)
         + if now - pending[|pending| - 1].ts <= age then pending[|pending| - 1].amount else 0
  }

  lemma {:induction false} PrunedHolds(pending: seq<Reservation>, now: int, age: int)
    ensures Total(Pruned(pending, now, age)) == HeldBy(pending, now, age)
  {
    if pending != [] {
      var init, last := pending[..|pending| - 1], pending[|pending| - 1];
      var rest := Pruned(init, now, age);
      PrunedHolds(init, now, age);
      assert (rest + [last])[..|rest|] == rest;
    }
  }

  lemma {:induction false} PrunedElement(pending: seq<Reservation>, now: int, age: int, p: Reservation)
    ensures p in Pruned(pending, now, age) <==> p in pending && now - p.ts <= age
  {
    if pending != [] {
      var init, last := pending[..|pending| - 1], pending[|pending| - 1];
      PrunedElement(init, now, age, p);
      assert p in pending <==> p in init || p == last by {
        assert pending == init + [last];
      }
    }
  }

  /** The state the file shows: a missing file leaves the cached one, an unreadable file none. */
  predicate Shown(cache: State, f: Stored, st: State) {
    match f
    case Missing => st == cache
    case Corrupt => st.days == [] && st.pending == []
    case Data(s) => st == s
  }

  function CostShown(st: State, now: int): int {
    if st.days != [] && st.days[0].day == now / 86_400 then st.days[0].cost else 0
  }

  /** A reservation is accepted exactly if it is within the per-call cap and, with what the day has
      cost and what reservations not too old hold, within the daily cap. */
  lemma ReserveAcceptedIff(cfg: Config, cache: State, f: Stored, st: State, r: Reservation)
    requires Shown(cache, f, st)
    ensures var reply := ReserveReply(cfg, cache, f, r);
            var callOk := cfg.callCap.Some? ==> r.amount <= cfg.callCap.value;
            var dayOk := cfg.dayCap.Some? ==>
                           CostShown(st, r.ts) + HeldBy(st.pending, r.ts, cfg.pruneAfter) + r.amount <= cfg.dayCap.value;
            && (reply == Ok(r.token) <==> callOk && dayOk)
            && (reply == Err(OverCallCap) <==> !callOk)
            && (reply == Err(OverDayCap) <==> callOk && !dayOk)
  {
    hide Pruned, Total, HeldBy;
    PrunedHolds(st.pending, r.ts, cfg.pruneAfter);
  }

  /** What an accepted reservation writes: today's entry with its cost, the reservations that are not
      too old, and the new one last. A refusal writes nothing; one by the daily cap has moved an
      unreadable file away. */
  lemma ReserveWrites(cfg: Config, cache: State, f: Stored, st: State, r: Reservation, p: Reservation)
    requires Shown(cache, f, st)
    ensures var e := AfterReserve(cfg, cache, f, r);
            if ReserveReply(cfg, cache, f, r).Ok? then
              && e.stored == Data(e.cache)
              && e.cache.days != [] && e.cache.days[0].day == r.ts / 86_400 && e.cache.days[0].cost == CostShown(st, r.ts)
              && e.cache.pending != [] && e.cache.pending[|e.cache.pending| - 1] == r
              && (p in e.cache.pending[..|e.cache.pending| - 1] <==> p in st.pending && r.ts - p.ts <= cfg.pruneAfter)
            else e.stored == if f.Corrupt? && (cfg.callCap.Some? ==> r.amount <= cfg.callCap.value) then Missing else f
  {
    var kept := Pruned(st.pending, r.ts, cfg.pruneAfter);
    PrunedElement(st.pending, r.ts, cfg.pruneAfter, p);
    assert (kept + [r])[..|kept|] == kept;
  }

  /** The check before an iteration refuses exactly when the day's cost in the file is at the cap. */
  lemma CheckRefusesIff(cap: int, cache: State, f: Stored, st: State, now: int)
    requires Shown(cache, f, st)
    ensures Current(Loaded(cache, f), DayOf(now)).days[0].cost >= cap <==> CostShown(st, now) >= cap
  {
  }

  /** At most thirty days are kept, the newest; rolling to a new day pushes out only the oldest. */
  lemma ThirtyDaysAreKept(s: State, today: int, i: nat)
    requires |s.days| <= 30
    ensures var days := Current(s, today).days;
            && |days| <= 30
            && (s.days != [] && s.days[0].day == today ==> days == s.days)
            && (s.days == [] || s.days[0].day != today ==>
                  days[0] == Day(today, 0, 0, 0, 0) && (i < |s.days| && i < 29 ==> i + 1 < |days| && days[i + 1] == s.days[i]))
  {
  }

  /** One recorded call in the file: today's entry counts it once, its reservation and the old ones are
      gone, the others stay. */
  lemma RecordWrites(cfg: Config, cache: State, st: State, wal: seq<WalLine>, call: Call, now: int, p: Reservation)
    requires call.token.Some? && UniqueTokens(st.pending)
    ensures var r := AfterRecord(DrainThenLoad, cfg, cache, Data(st), wal, call, now);
            var was := if st.days != [] && st.days[0].day == now / 86_400 then st.days[0] else Day(now / 86_400, 0, 0, 0, 0);
            && r.days != []
            && r.days[0] == Day(was.day, was.calls + 1, was.tokensIn + call.tokensIn, was.tokensOut + call.tokensOut,
                                was.cost + call.delta)
            && (p in r.pending <==> p in st.pending && now - p.ts <= cfg.pruneAfter && p.token != call.token.value)
  {
    hide Pruned, Without, UniqueTokens;
    PrunedElement(st.pending, now, cfg.pruneAfter, p);
    PrunedUnique(st.pending, now, cfg.pruneAfter);
    WithoutElement(Pruned(st.pending, now, cfg.pruneAfter), call.token.value, p);
  }

  lemma {:induction false} PrunedUnique(pending: seq<Reservation>, now: int, age: int)
    requires UniqueTokens(pending)
    ensures UniqueTokens(Pruned(pending, now, age))
  {
    if pending != [] {
      var init, last := pending[..|pending| - 1], pending[|pending| - 1];
      PrunedUnique(init, now, age);
      var rest := Pruned(init, now, age);
      forall i | 0 <= i < |rest| ensures rest[i].token != last.token {
        PrunedElement(init, now, age, rest[i]);
        assert rest[i] in init;
      }
    }
  }

  lemma {:induction false} WithoutElement(pending: seq<Reservation>, token: string, p: Reservation)
    requires UniqueTokens(pending)
    ensures p in Without(pending, token) <==> p in pending && p.token != token
  {
    if pending != [] {
      assert UniqueTokens(pending[1..]);
      WithoutElement(pending[1..], token, p);
      assert forall i :: 0 < i < |pending| ==> pending[i] == pending[1..][i - 1];
      assert pending == [pending[0]] + pending[1..];
    }
  }

  /** Without the lock, a call by a tracker with any cap goes to the log and leaves the file alone; a
      tracker without caps charges the file all the same. */
  lemma UnlockedRecordGoesToLog(cfgs: nat -> Config, s: Sys, m: Move)
    requires m.action.Record? && !m.action.locked
    ensures var cfg, call, s' := cfgs(m.tracker), m.action.call, Step(DrainThenLoad, cfgs, s, m);
            && (cfg.dayCap.Some? || cfg.callCap.Some? ==>
                  && s'.stored == s.stored
                  && s'.wal == s.wal + [WalRecord(call.tokensIn, call.tokensOut, call.delta, call.token)])
            && (cfg.dayCap.None? && cfg.callCap.None? ==> s'.stored.Data? && s'.wal == WalAfterDrain(s.wal))
  {
  }

  /** One move of the run model, made by a tracker's own operations. */
  method Execute(t: BudgetTracker, cfgs: nat -> Config, m: Move, ghost s: Sys)
    requires t.cfg == cfgs(m.tracker)
    requires t.state == CacheOf(s, m.tracker) && t.disk.stored == s.stored && t.disk.wal == s.wal
    modifies t`state, t.disk
    ensures var s' := Step(DrainThenLoad, cfgs, s, m);
            t.state == CacheOf(s', m.tracker) && t.disk.stored == s'.stored && t.disk.wal == s'.wal
  {
    hide AfterReserve, AfterRecord, AfterCancel, Loaded, Current, WalAfterDrain, ReserveReply;
    match m.action {
      case Reserve(amount, pid, token, locked) => var _ := t.ReserveOrRaise(Reservation(pid, amount, m.now, token), locked);
      case Record(call, locked) => var _ := t.Record(call, m.now, locked);
      case Cancel(token, locked) => var _ := t.CancelReservation(token, m.now, locked);
      case Look => var _ := t.Snapshot(m.now);
    }
  }

  /** A cancellation undoes its reservation: with a fresh token and before it goes stale, the file
      afterwards holds what the reservation was checked against, pruned once more. */
  lemma CancelUndoesReserve(cfg: Config, cache: State, f: Stored, r: Reservation, now: int)
    requires ReserveReply(cfg, cache, f, r).Ok?
    requires !HasToken(Checked(cfg, cache, f, r.ts).pending, r.token)
    requires now - r.ts <= cfg.pruneAfter
    ensures var v := Checked(cfg, cache, f, r.ts);
            var e := AfterReserve(cfg, cache, f, r);
            AfterCancel(cfg, e.cache, e.stored, r.token, now).stored
            == Data(v.(pending := Pruned(v.pending, now, cfg.pruneAfter)))
  {
    hide Checked, HasToken, Pruned, Without, FitsDay, Total;
    var v := Checked(cfg, cache, f, r.ts);
    var pruned := Pruned(v.pending, now, cfg.pruneAfter);
    PrunedAppend(v.pending, r, now, cfg.pruneAfter);
    PrunedTokens(v.pending, now, cfg.pruneAfter, r.token);
    TokenAppend(pruned, r, r.token);
    WithoutAppend(pruned, r, r.token);
  }

  lemma PrunedAppend(pending: seq<Reservation>, r: Reservation, now: int, age: int)
    requires now - r.ts <= age
    ensures Pruned(pending + [r], now, age) == Pruned(pending, now, age) + [r]
  {
    assert (pending + [r])[..|pending|] == pending;
  }

  lemma {:induction false} PrunedTokens(pending: seq<Reservation>, now: int, pruneAfter: int, token: string)
    ensures HasToken(Pruned(pending, now, pruneAfter), token) ==> HasToken(pending, token)
  {
    if pending != [] {
      var last := |pending| - 1;
      PrunedTokens(pending[..last], now, pruneAfter, token);
      TokenAppend(Pruned(pending[..last], now, pruneAfter), pending[last], token);
      TokenAppend(pending[..last], pending[last], token);
      assert pending == pending[..last] + [pending[last]];
    }
  }
}
