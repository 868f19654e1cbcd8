/** The per-day budget tracker: reservations, records and cancellations on one shared file, and
    the write-ahead log for records that could not take the file lock. Money is counted in
    micro-dollars, which every listed price per token is a whole number of. */
module Budget {
  import opened Prelude

  datatype Day = Day(day: int, calls: int, tokensIn: int, tokensOut: int, cost: int)

  datatype Reservation = Reservation(pid: int, amount: int, ts: int, token: string)

  datatype State = State(days: seq<Day>, pending: seq<Reservation>)

  const BLANK := State([], [])

  /** The data file: absent, unreadable, or holding a state. */
  datatype Stored = Missing | Corrupt | Data(state: State)

  datatype WalLine = Garbage | WalRecord(tokensIn: int, tokensOut: int, delta: int, token: Option<string>)

  datatype Config = Config(dayCap: Option<int>, callCap: Option<int>, pruneAfter: int)

  /** The lock only matters when there is a cap to enforce. */
  predicate MustLock(cfg: Config) {
    cfg.dayCap.Some? || cfg.callCap.Some?
  }

  const SECONDS_PER_DAY := 86_400
  const DAYS_KEPT := 30

  function DayOf(now: int): int {
    now / SECONDS_PER_DAY
  }

  // ---- prices ----------------------------------------------------------------------------------

  datatype Price = Price(perTokenIn: int, perTokenOut: int)

  function PriceOf(model: string): (p: Price)
    ensures p.perTokenIn >= 0 && p.perTokenOut >= 0
  {
    if model == "claude-opus-4-7" then Price(15, 75)
    else if model == "claude-sonnet-4-6" then Price(3, 15)
    else if model in {"mock-opus-like", "mock-sonnet-like", "mock-opus", "mock-sonnet"} then Price(0, 0)
    else Price(15, 75)
  }

  function AtLeastZero(n: int): nat {
    if n < 0 then 0 else n
  }

  function TokensIn(promptChars: int): nat {
    AtLeastZero(promptChars) / 4
  }

  /** The cost of a call; with the request's token limit it is the estimate, with the tokens of
      the response it is the bill. */
  function CallCost(model: string, promptChars: int, tokensOut: int): int {
    TokensIn(promptChars) * PriceOf(model).perTokenIn + AtLeastZero(tokensOut) * PriceOf(model).perTokenOut
  }

  /** What a response is billed for when it reports no output tokens. */
  function BilledTokens(reported: Option<int>): int {
    if reported.None? then 800 else reported.value
  }

  /** A bill stays within its estimate exactly when output is free or the billed output tokens do
      not exceed the request's limit; a silent response to a request limited below 800 tokens is
      billed more than was reserved. */
  lemma BillWithinEstimateIff(model: string, promptChars: int, maxTokens: int, reported: Option<int>)
    ensures 0 <= CallCost(model, promptChars, maxTokens)
    ensures CallCost(model, promptChars, BilledTokens(reported)) <= CallCost(model, promptChars, maxTokens)
            <==> PriceOf(model).perTokenOut == 0
                 || AtLeastZero(BilledTokens(reported)) <= AtLeastZero(maxTokens)
  {
    var billed, limit := AtLeastZero(BilledTokens(reported)), AtLeastZero(maxTokens);
    var price := PriceOf(model).perTokenOut;
    var cost := TokensIn(promptChars) * PriceOf(model).perTokenIn;
    if billed <= limit {
      assert billed * price <= limit * price;
    } else if price > 0 {
      assert billed * price > limit * price;
    }
  }

  /** What a call costs, in micro-dollars: a token for every four characters of the prompt, each side
      at the model's listed price, an unlisted model at the dearest. */
  lemma PricesAreListed(model: string, promptChars: int, tokensOut: int)
    ensures var tokensIn := if promptChars < 0 then 0 else promptChars / 4;
            var out := if tokensOut < 0 then 0 else tokensOut;
            && (model == "claude-sonnet-4-6" ==> CallCost(model, promptChars, tokensOut) == 3 * tokensIn + 15 * out)
            && (model in {"mock-opus-like", "mock-sonnet-like", "mock-opus", "mock-sonnet"} ==>
                  CallCost(model, promptChars, tokensOut) == 0)
            && (model !in {"claude-sonnet-4-6", "mock-opus-like", "mock-sonnet-like", "mock-opus", "mock-sonnet"} ==>
                  CallCost(model, promptChars, tokensOut) == 15 * tokensIn + 75 * out)
  {
  }

  /** What an answered call is recorded as. */
  lemma BillIs(model: string, promptChars: int, reported: Option<int>, token: string)
    ensures var bill := BillFor(model, promptChars, reported, token);
            var out := if reported.None? then 800 else if reported.value < 0 then 0 else reported.value;
            && bill.tokensIn == (if promptChars < 0 then 0 else promptChars / 4) && bill.tokensOut == out
            && bill.delta == CallCost(model, promptChars, out) && bill.token == Some(token)
  {
  }

  /** For instance: a response object without an output count, to a request limited to one token. */
  lemma SilentResponseExceedsEstimate()
    ensures CallCost("claude-opus-4-7", 0, 1) == 75
    ensures CallCost("claude-opus-4-7", 0, BilledTokens(None)) == 60000
  {
  }

  // ---- the state's own operations -------------------------------------------------------------------

  /** The state with today's entry in front; at most thirty days are kept when one is added. */
  function Current(s: State, today: int): (r: State)
    ensures r.days != [] && r.days[0].day == today
    ensures r.pending == s.pending
  {
    if s.days == [] || s.days[0].day != today then
      var days := [Day(today, 0, 0, 0, 0)] + s.days;
      s.(days := if |days| <= DAYS_KEPT then days else days[..DAYS_KEPT])
    else s
  }

  predicate IsStale(p: Reservation, now: int, pruneAfter: int) {
    now - p.ts > pruneAfter
  }

  function Pruned(pending: seq<Reservation>, now: int, pruneAfter: int): seq<Reservation> {
    if pending == [] then []
    else
      var rest := Pruned(pending[..|pending| - 1], now, pruneAfter);
      if IsStale(pending[|pending| - 1], now, pruneAfter) then rest else rest + [pending[|pending| - 1]]
  }

  function Total(pending: seq<Reservation>): int {
    if pending == [] then 0 else Total(pending[..|pending| - 1]) + pending[|pending| - 1].amount
  }

  predicate HasToken(pending: seq<Reservation>, token: string) {
    exists i :: 0 <= i < |pending| && pending[i].token == token
  }

  /** Without the first reservation that carries the token. */
  function Without(pending: seq<Reservation>, token: string): seq<Reservation> {
    if pending == [] then []
    else if pending[0].token == token then pending[1..]
    else [pending[0]] + Without(pending[1..], token)
  }

  function WithoutOpt(pending: seq<Reservation>, token: Option<string>): seq<Reservation> {
    if token.None? then pending else Without(pending, token.value)
  }

  /** One call charged to today's entry, and its reservation removed. */
  function Charged(s: State, today: int, tokensIn: int, tokensOut: int, delta: int, token: Option<string>): State {
    var c := Current(s, today);
    var d := c.days[0];
    State(c.days[0 := Day(d.day, d.calls + 1, d.tokensIn + tokensIn, d.tokensOut + tokensOut, d.cost + delta)],
          WithoutOpt(c.pending, token))
  }

  function Drained(s: State, wal: seq<WalLine>, today: int): State {
    if wal == [] then s
    else
      var before := Drained(s, wal[..|wal| - 1], today);
      match wal[|wal| - 1]
      case Garbage => before
      case WalRecord(tokensIn, tokensOut, delta, token) => Charged(before, today, tokensIn, tokensOut, delta, token)
  }

  /** The log is cleared when at least one record was applied. */
  function WalAfterDrain(wal: seq<WalLine>): seq<WalLine> {
    if exists i :: 0 <= i < |wal| && wal[i].WalRecord? then [] else wal
  }

  /** Reading the data file: a missing file leaves the cached state, an unreadable one is moved
      away and the state starts afresh. */
  function Loaded(cache: State, f: Stored): State {
    match f
    case Missing => cache
    case Corrupt => BLANK
    case Data(s) => s
  }

  function AfterLoad(f: Stored): Stored {
    if f.Corrupt? then Missing else f
  }

  // ---- the locked operations, as functions of cache and file ----------------------------------------

  datatype Refusal = OverCallCap | OverDayCap | LockUnavailable

  datatype Effect = Effect(cache: State, stored: Stored)

  /** The state a reservation is checked against. */
  function Checked(cfg: Config, cache: State, f: Stored, now: int): (r: State)
    ensures r.days != [] && r.days[0].day == DayOf(now)
  {
    var s := Loaded(cache, f);
    Current(s.(pending := Pruned(s.pending, now, cfg.pruneAfter)), DayOf(now))
  }

  predicate FitsDay(cfg: Config, s: State, estimate: int)
    requires s.days != []
  {
    cfg.dayCap.Some? ==> s.days[0].cost + Total(s.pending) + estimate <= cfg.dayCap.value
  }

  function AfterReserve(cfg: Config, cache: State, f: Stored, r: Reservation): Effect {
    if cfg.callCap.Some? && r.amount > cfg.callCap.value then Effect(cache, f)
    else
      var s := Checked(cfg, cache, f, r.ts);
      if FitsDay(cfg, s, r.amount) then
        var s' := s.(pending := s.pending + [r]);
        Effect(s', Data(s'))
      else Effect(s, AfterLoad(f))
  }

  function ReserveReply(cfg: Config, cache: State, f: Stored, r: Reservation): Result<string, Refusal> {
    if cfg.callCap.Some? && r.amount > cfg.callCap.value then Err(OverCallCap)
    else if FitsDay(cfg, Checked(cfg, cache, f, r.ts), r.amount) then Ok(r.token)
    else Err(OverDayCap)
  }

  /** A recorded call: its tokens, its cost and the reservation it was made under. */
  datatype Call = Call(tokensIn: int, tokensOut: int, delta: int, token: Option<string>)

  /** The two orders in which a record can combine the write-ahead log with the data file; the
      tracker drains first. */
  datatype Order = DrainThenLoad | LoadThenDrain

  function Combined(order: Order, cache: State, f: Stored, wal: seq<WalLine>, now: int): State {
    match order
    case DrainThenLoad => Loaded(Drained(cache, wal, DayOf(now)), f)
    case LoadThenDrain => Drained(Loaded(cache, f), wal, DayOf(now))
  }

  function AfterRecord(order: Order, cfg: Config, cache: State, f: Stored, wal: seq<WalLine>, call: Call, now: int): State {
    var s := Combined(order, cache, f, wal, now);
    Charged(s.(pending := Pruned(s.pending, now, cfg.pruneAfter)), DayOf(now),
            call.tokensIn, call.tokensOut, call.delta, call.token)
  }

  function AfterCancel(cfg: Config, cache: State, f: Stored, token: string, now: int): Effect {
    var l := Loaded(cache, f);
    var s := l.(pending := Pruned(l.pending, now, cfg.pruneAfter));
    if HasToken(s.pending, token) then
      var s' := s.(pending := Without(s.pending, token));
      Effect(s', Data(s'))
    else Effect(s, AfterLoad(f))
  }

  // ---- the tracker --------------------------------------------------------------------------------------

  class Disk {
    var stored: Stored
    var wal: seq<WalLine>

    constructor ()
      ensures stored == Missing && wal == []
    {
      stored, wal := Missing, [];
    }
  }

  class BudgetTracker {
    const cfg: Config
    const disk: Disk
    var state: State

    constructor (cfg: Config, disk: Disk)
      modifies disk
      ensures this.cfg == cfg && this.disk == disk
      ensures state == Loaded(BLANK, old(disk.stored)) && disk.stored == AfterLoad(old(disk.stored))
      ensures disk.wal == old(disk.wal)
    {
      this.cfg, this.disk, state := cfg, disk, BLANK;
      new;
      Load();
    }

    predicate NeedsLocking() {
      MustLock(cfg)
    }

    method Load()
      modifies this`state, disk`stored
      ensures state == Loaded(old(state), old(disk.stored)) && disk.stored == AfterLoad(old(disk.stored))
    {
      match disk.stored {
        case Missing =>
        case Corrupt =>
          disk.stored := Missing;
          state := BLANK;
        case Data(s) =>
          state := s;
      }
    }

    method Save()
      modifies disk`stored
      ensures disk.stored == Data(state)
    {
      disk.stored := Data(state);
    }

    method EnsureToday(now: int)
      modifies this`state
      ensures state == Current(old(state), DayOf(now))
    {
      if state.days == [] || state.days[0].day != DayOf(now) {
        var days := [Day(DayOf(now), 0, 0, 0, 0)] + state.days;
        if |days| > DAYS_KEPT {
          days := days[..DAYS_KEPT];
        }
        state := state.(days := days);
      }
    }

    method PruneStale(now: int)
      modifies this`state
      ensures state == old(state).(pending := Pruned(old(state).pending, now, cfg.pruneAfter))
    {
      var kept: seq<Reservation> := [];
      for i := 0 to |state.pending|
        invariant kept == Pruned(state.pending[..i], now, cfg.pruneAfter)
      {
        assert state.pending[..i + 1][..i] == state.pending[..i];
        if now - state.pending[i].ts <= cfg.pruneAfter {
          kept := kept + [state.pending[i]];
        }
      }
      assert state.pending[..|state.pending|] == state.pending;
      state := state.(pending := kept);
    }

    method PendingTotal() returns (total: int)
      ensures total == Total(state.pending)
    {
      total := 0;
      for i := 0 to |state.pending|
        invariant total == Total(state.pending[..i])
      {
        assert state.pending[..i + 1][..i] == state.pending[..i];
        total := total + state.pending[i].amount;
      }
      assert state.pending[..|state.pending|] == state.pending;
    }

    /** Delete the first reservation that carries the token, if there is one. */
    method DeletePending(token: string) returns (found: bool)
      modifies this`state
      ensures found <==> HasToken(old(state).pending, token)
      ensures state == old(state).(pending := Without(old(state).pending, token))
      ensures !found ==> state == old(state)
    {
      ghost var pending := state.pending;
      for i := 0 to |state.pending|
        invariant state == old(state)
        invariant forall j :: 0 <= j < i ==> pending[j].token != token
      {
        if state.pending[i].token == token {
          WithoutFirst(pending, token, i);
          state := state.(pending := state.pending[..i] + state.pending[i + 1..]);
          return true;
        }
      }
      WithoutAbsent(pending, token);
      found := false;
    }

    method Charge(call: Call, now: int)
      modifies this`state
      ensures state == Charged(old(state), DayOf(now), call.tokensIn, call.tokensOut, call.delta, call.token)
    {
      EnsureToday(now);
      var d := state.days[0];
      state := state.(days := state.days[0 := Day(d.day, d.calls + 1, d.tokensIn + call.tokensIn,
                                                  d.tokensOut + call.tokensOut, d.cost + call.delta)]);
      if call.token.Some? {
        var _ := DeletePending(call.token.value);
      }
    }

    /** Apply every readable record of the write-ahead log to the cached state. */
    method DrainWal(now: int)
      modifies this`state, disk`wal
      ensures state == Drained(old(state), old(disk.wal), DayOf(now))
      ensures disk.wal == WalAfterDrain(old(disk.wal))
    {
      var wal := disk.wal;
      var applied := false;
      for i := 0 to |wal|
        invariant state == Drained(old(state), wal[..i], DayOf(now))
        invariant applied <==> exists j :: 0 <= j < i && wal[j].WalRecord?
        invariant disk.wal == old(disk.wal)
      {
        assert wal[..i + 1][..i] == wal[..i];
        match wal[i] {
          case Garbage =>
          case WalRecord(tokensIn, tokensOut, delta, token) =>
            Charge(Call(tokensIn, tokensOut, delta, token), now);
            applied := true;
        }
      }
      assert wal[..|wal|] == wal;
      if applied {
        disk.wal := [];
      }
    }

    /** Reserve an estimate before a call. `locked` says whether the file lock could be taken. */
    method ReserveOrRaise(r: Reservation, locked: bool) returns (reply: Result<string, Refusal>)
      modifies this`state, disk`stored
      ensures locked || !NeedsLocking() ==>
                && Effect(state, disk.stored) == AfterReserve(cfg, old(state), old(disk.stored), r)
                && reply == ReserveReply(cfg, old(state), old(disk.stored), r)
      ensures !locked && NeedsLocking() ==>
                && state == old(state) && disk.stored == old(disk.stored)
                && reply == Err(if cfg.callCap.Some? && r.amount > cfg.callCap.value then OverCallCap else LockUnavailable)
    {
      if cfg.callCap.Some? && r.amount > cfg.callCap.value {
        return Err(OverCallCap);
      }
      if !locked && NeedsLocking() {
        return Err(LockUnavailable);
      }
      Load();
      PruneStale(r.ts);
      EnsureToday(r.ts);
      var pending := PendingTotal();
      if cfg.dayCap.Some? && state.days[0].cost + pending + r.amount > cfg.dayCap.value {
        return Err(OverDayCap);
      }
      state := state.(pending := state.pending + [r]);
      Save();
      reply := Ok(r.token);
    }

    /** Record a call. Without the lock it goes to the write-ahead log and no total is returned. */
    method Record(call: Call, now: int, locked: bool) returns (total: Option<int>)
      modifies this`state, disk
      ensures locked || !NeedsLocking() ==>
                && state == AfterRecord(DrainThenLoad, cfg, old(state), old(disk.stored), old(disk.wal), call, now)
                && disk.stored == Data(state)
                && disk.wal == WalAfterDrain(old(disk.wal))
                && total == Some(state.days[0].cost)
      ensures !locked && NeedsLocking() ==>
                && state == old(state) && disk.stored == old(disk.stored)
                && disk.wal == old(disk.wal) + [WalRecord(call.tokensIn, call.tokensOut, call.delta, call.token)]
                && total == None
    {
      if !locked && NeedsLocking() {
        disk.wal := disk.wal + [WalRecord(call.tokensIn, call.tokensOut, call.delta, call.token)];
        return None;
      }
      DrainWal(now);
      Load();
      PruneStale(now);
      Charge(call, now);
      Save();
      total := Some(state.days[0].cost);
    }

    method CancelReservation(token: string, now: int, locked: bool) returns (refused: bool)
      modifies this`state, disk`stored
      ensures refused <==> !locked && NeedsLocking()
      ensures if refused then state == old(state) && disk.stored == old(disk.stored)
              else Effect(state, disk.stored) == AfterCancel(cfg, old(state), old(disk.stored), token, now)
    {
      if !locked && NeedsLocking() {
        return true;
      }
      Load();
      PruneStale(now);
      var found := DeletePending(token);
      if found {
        Save();
      }
      refused := false;
    }

    /** Refuse to start an iteration on a day whose cost has reached the cap. */
    method CheckOrRaise(now: int, locked: bool) returns (refusal: Option<Refusal>)
      modifies this`state, disk`stored
      ensures cfg.dayCap.None? || !locked ==> state == old(state) && disk.stored == old(disk.stored)
      ensures cfg.dayCap.None? ==> refusal == None
      ensures cfg.dayCap.Some? && !locked ==> refusal == Some(LockUnavailable)
      ensures cfg.dayCap.Some? && locked ==>
                && state == Current(Loaded(old(state), old(disk.stored)), DayOf(now))
                && disk.stored == AfterLoad(old(disk.stored))
                && refusal == if state.days[0].cost >= cfg.dayCap.value then Some(OverDayCap) else None
    {
      if cfg.dayCap.None? {
        return None;
      }
      if !locked {
        return Some(LockUnavailable);
      }
      Load();
      EnsureToday(now);
      refusal := if state.days[0].cost >= cfg.dayCap.value then Some(OverDayCap) else None;
    }

    /** The read-only operations re-read the file and roll the cached state to today. */
    method Snapshot(now: int) returns (today: Day)
      modifies this`state, disk`stored
      ensures state == Current(Loaded(old(state), old(disk.stored)), DayOf(now))
      ensures disk.stored == AfterLoad(old(disk.stored)) && today == state.days[0]
    {
      Load();
      EnsureToday(now);
      today := state.days[0];
    }
  }

  // ---- metering one call ------------------------------------------------------------------------

  /** What the wrapped backend did: it raised, or it answered, reporting output tokens or not. */
  datatype Answer = BackendRaised | Responded(tokensOut: Option<int>)

  /** How a metered call ends. When the lock cannot be had for the cancellation, that failure
      replaces the backend's and the reservation stays until it is pruned. */
  datatype Metered = Refused(why: Refusal) | BackendFailed | CancelFailed | Completed

  function BillFor(model: string, promptChars: int, reported: Option<int>, token: string): Call {
    Call(TokensIn(promptChars), AtLeastZero(BilledTokens(reported)),
         CallCost(model, promptChars, BilledTokens(reported)), Some(token))
  }

  /** Reserve the estimate, make the call, then cancel the reservation or record the bill; the file
      lock may be unavailable at either end. Nothing else touches the file in between;
      interleavings are runs of the single steps. */
  method Complete(tracker: BudgetTracker, model: string, promptChars: int, maxTokens: int,
                  pid: int, token: string, start: int, lockedAtStart: bool, answer: Answer, end: int, lockedAtEnd: bool)
    returns (r: Metered)
    modifies tracker`state, tracker.disk
    ensures !lockedAtStart && tracker.NeedsLocking() ==>
              r.Refused? && tracker.state == old(tracker.state)
              && tracker.disk.stored == old(tracker.disk.stored) && tracker.disk.wal == old(tracker.disk.wal)
    ensures lockedAtStart || !tracker.NeedsLocking() ==>
              var res := Reservation(pid, CallCost(model, promptChars, maxTokens), start, token);
              var reply := ReserveReply(tracker.cfg, old(tracker.state), old(tracker.disk.stored), res);
              var e := AfterReserve(tracker.cfg, old(tracker.state), old(tracker.disk.stored), res);
              var inside := lockedAtEnd || !tracker.NeedsLocking();
              match reply
              case Err(why) =>
                r == Refused(why) && tracker.disk.wal == old(tracker.disk.wal)
                && Effect(tracker.state, tracker.disk.stored) == e
              case Ok(_) =>
                if answer.BackendRaised? then
                  && r == (if inside then BackendFailed else CancelFailed)
                  && tracker.disk.wal == old(tracker.disk.wal)
                  && Effect(tracker.state, tracker.disk.stored) ==
                     if inside then AfterCancel(tracker.cfg, e.cache, e.stored, token, end) else e
                else
                  var bill := BillFor(model, promptChars, answer.tokensOut, token);
                  && r == Completed
                  && if inside
                     then tracker.disk.stored == Data(AfterRecord(DrainThenLoad, tracker.cfg, e.cache, e.stored,
                                                                  old(tracker.disk.wal), bill, end))
                          && tracker.disk.wal == WalAfterDrain(old(tracker.disk.wal))
                     else tracker.disk.stored == e.stored
                          && tracker.disk.wal == old(tracker.disk.wal)
                                                 + [WalRecord(bill.tokensIn, bill.tokensOut, bill.delta, bill.token)]
  {
    var reply := tracker.ReserveOrRaise(Reservation(pid, CallCost(model, promptChars, maxTokens), start, token), lockedAtStart);
    if reply.Err? {
      return Refused(reply.error);
    }
    match answer {
      case BackendRaised =>
        var refused := tracker.CancelReservation(reply.value, end, lockedAtEnd);
        r := if refused then CancelFailed else BackendFailed;
      case Responded(reported) =>
        var _ := tracker.Record(BillFor(model, promptChars, reported, reply.value), end, lockedAtEnd);
        r := Completed;
    }
  }

  lemma {:induction false} WithoutFirst(pending: seq<Reservation>, token: string, i: nat)
    requires i < |pending| && pending[i].token == token
    requires forall j :: 0 <= j < i ==> pending[j].token != token
    ensures Without(pending, token) == pending[..i] + pending[i + 1..]
  {
    if i > 0 {
      WithoutFirst(pending[1..], token, i - 1);
      assert pending[..i] + pending[i + 1..] == [pending[0]] + (pending[1..][..i - 1] + pending[1..][i..]);
    }
  }

  lemma {:induction false} WithoutAbsent(pending: seq<Reservation>, token: string)
    requires !HasToken(pending, token)
    ensures Without(pending, token) == pending
  {
    if pending != [] {
      assert pending[0].token != token;
      assert forall i :: 0 <= i < |pending[1..]| ==> pending[1..][i] == pending[i + 1];
      WithoutAbsent(pending[1..], token);
    }
  }
}
