/** The append-only event log: a hash chain over one file, shared by any number of instances that
    each cache a sequence number and the latest hash. */
module EventLog {
  import opened Prelude

  datatype Event = Event(seqNo: int, timestamp: int, actor: string, kind: string, payload: string)

  datatype SignedEvent = SignedEvent(event: Event, prevHash: string, eventHash: string)

  /** The digest function and the canonical serialisation of an event. */
  datatype Hasher = Hasher(digest: string -> string, body: Event -> string)

  const GENESIS := "0000000000000000000000000000000000000000000000000000000000000000"

  function Preimage(h: Hasher, e: Event, prevHash: string): string {
    prevHash + h.body(e)
  }

  function ComputeHash(h: Hasher, e: Event, prevHash: string): string {
    h.digest(Preimage(h, e, prevHash))
  }

  // ---- what an intact chain is ---------------------------------------------------------------

  function PrevOf(lines: seq<SignedEvent>, i: nat): string
    requires i <= |lines|
  {
    if i == 0 then GENESIS else lines[i - 1].eventHash
  }

  predicate LinkOk(h: Hasher, lines: seq<SignedEvent>, i: nat)
    requires i < |lines|
  {
    && lines[i].event.seqNo == i
    && lines[i].prevHash == PrevOf(lines, i)
    && lines[i].eventHash == ComputeHash(h, lines[i].event, lines[i].prevHash)
  }

  predicate ChainOk(h: Hasher, lines: seq<SignedEvent>) {
    forall i :: 0 <= i < |lines| ==> LinkOk(h, lines, i)
  }

  datatype Fault = SeqGap(expected: int, got: int) | PrevMismatch(at: int) | HashMismatch(at: int)

  /** The fault verification reports for a broken line, in the order of its checks. */
  function FaultAt(h: Hasher, lines: seq<SignedEvent>, i: nat): Fault
    requires i < |lines|
  {
    if lines[i].event.seqNo != i then SeqGap(i, lines[i].event.seqNo)
    else if lines[i].prevHash != PrevOf(lines, i) then PrevMismatch(i)
    else HashMismatch(i)
  }

  /** A broken line is told by what is wrong with it: its number, then its link, then its own hash. */
  lemma FaultIs(h: Hasher, lines: seq<SignedEvent>, i: nat)
    requires i < |lines|
    ensures var line, before := lines[i], if i == 0 then GENESIS else lines[i - 1].eventHash;
            var hash := h.digest(line.prevHash + h.body(line.event));
            && (LinkOk(h, lines, i) <==> line.event.seqNo == i && line.prevHash == before && line.eventHash == hash)
            && (FaultAt(h, lines, i) == SeqGap(i, line.event.seqNo) <==> line.event.seqNo != i)
            && (FaultAt(h, lines, i) == PrevMismatch(i) <==> line.event.seqNo == i && line.prevHash != before)
            && (!LinkOk(h, lines, i) ==>
                  (FaultAt(h, lines, i) == HashMismatch(i) <==>
                   line.event.seqNo == i && line.prevHash == before && line.eventHash != hash))
  {
  }

  /** Walk the file; a broken chain is reported at its first broken line. */
  method VerifyChain(h: Hasher, lines: seq<SignedEvent>) returns (fault: Option<Fault>)
    ensures fault.None? <==> ChainOk(h, lines)
    ensures fault.Some? ==> exists i :: 0 <= i < |lines| && !LinkOk(h, lines, i)
                                        && fault.value == FaultAt(h, lines, i)
                                        && forall j :: 0 <= j < i ==> LinkOk(h, lines, j)
  {
    var prev := GENESIS;
    var expected := 0;
    while expected < |lines|
      invariant 0 <= expected <= |lines|
      invariant prev == PrevOf(lines, expected)
      invariant forall j :: 0 <= j < expected ==> LinkOk(h, lines, j)
    {
      var signed := lines[expected];
      if signed.event.seqNo != expected {
        assert !LinkOk(h, lines, expected);
        return Some(SeqGap(expected, signed.event.seqNo));
      }
      if signed.prevHash != prev {
        assert !LinkOk(h, lines, expected);
        return Some(PrevMismatch(signed.event.seqNo));
      }
      if ComputeHash(h, signed.event, signed.prevHash) != signed.eventHash {
        assert !LinkOk(h, lines, expected);
        return Some(HashMismatch(signed.event.seqNo));
      }
      prev := signed.eventHash;
      expected := expected + 1;
    }
    fault := None;
  }

  // ---- appending --------------------------------------------------------------------------------

  /** What an instance remembers: the next sequence number and the hash it will chain to. */
  datatype Cache = Cache(nextSeq: int, prevHash: string)

  const FRESH := Cache(0, GENESIS)

  /** The cache that the file's last line dictates. */
  function Tail(lines: seq<SignedEvent>): Cache {
    if lines == [] then FRESH
    else Cache(lines[|lines| - 1].event.seqNo + 1, lines[|lines| - 1].eventHash)
  }

  function Sign(h: Hasher, c: Cache, actor: string, kind: string, payload: string, now: int): SignedEvent {
    var e := Event(c.nextSeq, now, actor, kind, payload);
    SignedEvent(e, c.prevHash, ComputeHash(h, e, c.prevHash))
  }

  function LinesOf(file: Option<seq<SignedEvent>>): seq<SignedEvent> {
    if file.Some? then file.value else []
  }

  /** What re-reading the file makes of a cache; without a file it stays as it was. */
  function Restored(file: Option<seq<SignedEvent>>, c: Cache): Cache {
    if file.Some? then Tail(file.value) else c
  }

  /** The file and one instance's cache. */
  datatype View = View(file: Option<seq<SignedEvent>>, cache: Cache)

  function AfterOpen(file: Option<seq<SignedEvent>>): View {
    View(Some(LinesOf(file)), Restored(file, FRESH))
  }

  function AfterEmit(h: Hasher, v: View, actor: string, kind: string, payload: string, now: int): View {
    var signed := Sign(h, Restored(v.file, v.cache), actor, kind, payload, now);
    View(Some(LinesOf(v.file) + [signed]), Cache(signed.event.seqNo + 1, signed.eventHash))
  }

  /** What an append writes: one line after the others, numbered and linked after the last line of the
      file, after nothing if the file is empty, and after what the instance remembers if there is no
      file; and signed over its link and its event. */
  lemma EmitWrites(h: Hasher, v: View, actor: string, kind: string, payload: string, now: int)
    ensures var after := AfterEmit(h, v, actor, kind, payload, now).file;
            var before := LinesOf(v.file);
            after.Some? && |after.value| == |before| + 1 && before <= after.value
            && var line := after.value[|before|];
               && line.event.seqNo == (if before != [] then before[|before| - 1].event.seqNo + 1
                                       else if v.file.Some? then 0 else v.cache.nextSeq)
               && line.prevHash == (if before != [] then before[|before| - 1].eventHash
                                    else if v.file.Some? then GENESIS else v.cache.prevHash)
               && line.eventHash == h.digest(line.prevHash + h.body(line.event))
  {
  }

  /** The log's file: None when it does not exist. */
  class LogFile {
    var lines: Option<seq<SignedEvent>>

    constructor ()
      ensures lines == None
    {
      lines := None;
    }
  }

  class EventLog {
    const hasher: Hasher
    const allowed: set<string>
    const file: LogFile
    var cache: Cache

    constructor (hasher: Hasher, allowed: set<string>, file: LogFile)
      modifies file
      ensures this.hasher == hasher && this.allowed == allowed && this.file == file
      ensures View(file.lines, cache) == AfterOpen(old(file.lines))
      ensures cache == Tail(file.lines.value)
    {
      this.hasher, this.allowed, this.file := hasher, allowed, file;
      cache := FRESH;
      new;
      if file.lines.Some? {
        Restore();
      } else {
        file.lines := Some([]);
      }
    }

    /** Re-read the file's tail; a missing file leaves the cache as it was. */
    method Restore()
      modifies this`cache
      ensures cache == Restored(file.lines, old(cache))
    {
      if file.lines.None? {
        return;
      }
      var lines := file.lines.value;
      var lastSeq, lastHash := -1, GENESIS;
      for i := 0 to |lines|
        invariant Cache(lastSeq + 1, lastHash) == Tail(lines[..i])
      {
        lastSeq, lastHash := lines[i].event.seqNo, lines[i].eventHash;
      }
      assert lines[..|lines|] == lines;
      cache := Cache(lastSeq + 1, lastHash);
    }

    /** Append one event, under the file lock. Err when the actor is not on the allow-list. */
    method Emit(actor: string, kind: string, payload: string, now: int) returns (r: Result<SignedEvent, ()>)
      modifies this`cache, file
      ensures actor !in allowed ==> r.Err? && cache == old(cache) && file.lines == old(file.lines)
      ensures actor in allowed ==>
                && View(file.lines, cache) == AfterEmit(hasher, View(old(file.lines), old(cache)), actor, kind, payload, now)
                && cache == Tail(file.lines.value)
                && file.lines.Some? && |file.lines.value| == |LinesOf(old(file.lines))| + 1
                && LinesOf(old(file.lines)) <= file.lines.value
                && r == Ok(file.lines.value[|file.lines.value| - 1])
                && r.value.event.actor == actor && r.value.event.kind == kind
                && r.value.event.payload == payload && r.value.event.timestamp == now
    {
      if actor !in allowed {
        return Err(());
      }
      Restore();
      var e := Event(cache.nextSeq, now, actor, kind, payload);
      var hash := ComputeHash(hasher, e, cache.prevHash);
      var signed := SignedEvent(e, cache.prevHash, hash);
      file.lines := Some((if file.lines.Some? then file.lines.value else []) + [signed]);
      cache := Cache(cache.nextSeq + 1, hash);
      r := Ok(signed);
    }
  }

  /** For any file, intact or broken: the file with one more emitted event verifies exactly when
      the file did. */
  lemma EmitKeepsVerdict(h: Hasher, lines: seq<SignedEvent>, actor: string, kind: string, payload: string, now: int)
    ensures ChainOk(h, lines + [Sign(h, Tail(lines), actor, kind, payload, now)]) <==> ChainOk(h, lines)
  {
    var more := lines + [Sign(h, Tail(lines), actor, kind, payload, now)];
    forall i | 0 <= i < |lines|
      ensures LinkOk(h, more, i) <==> LinkOk(h, lines, i)
    {
      assert PrevOf(more, i) == PrevOf(lines, i);
    }
    if ChainOk(h, lines) {
      if lines != [] {
        assert LinkOk(h, lines, |lines| - 1);
      }
      assert LinkOk(h, more, |lines|);
    }
    if ChainOk(h, more) {
      forall i | 0 <= i < |lines| ensures LinkOk(h, lines, i) {
        assert LinkOk(h, more, i);
      }
    }
  }

  /** When the file has been removed under an instance, its next emit starts a file that verifies
      exactly if the instance had never emitted or restored anything. */
  lemma EmitAfterRemoval(h: Hasher, c: Cache, actor: string, kind: string, payload: string, now: int)
    ensures ChainOk(h, [Sign(h, c, actor, kind, payload, now)]) <==> c == FRESH
  {
    var s := Sign(h, c, actor, kind, payload, now);
    if ChainOk(h, [s]) {
      assert LinkOk(h, [s], 0);
    }
  }

  // ---- any interleaving of any number of instances ----------------------------------------------

  /** What can happen to the file: an instance is opened on it, an instance appends an event under
      the lock, or the file is removed. */
  datatype Action =
    | Open(instance: nat)
    | Append(instance: nat, actor: string, kind: string, payload: string, now: int)
    | Remove

  datatype Shared = Shared(file: Option<seq<SignedEvent>>, caches: map<nat, Cache>)

  function CacheOf(s: Shared, i: nat): Cache {
    if i in s.caches then s.caches[i] else FRESH
  }

  function Install(s: Shared, i: nat, v: View): Shared {
    Shared(v.file, s.caches[i := v.cache])
  }

  function Step(h: Hasher, allowed: set<string>, s: Shared, a: Action): Shared {
    match a
    case Open(i) => Install(s, i, AfterOpen(s.file))
    case Append(i, actor, kind, payload, now) =>
      if actor in allowed then Install(s, i, AfterEmit(h, View(s.file, CacheOf(s, i)), actor, kind, payload, now)) else s
    case Remove => s.(file := None)
  }

  function Run(h: Hasher, allowed: set<string>, s: Shared, actions: seq<Action>): Shared {
    if actions == [] then s
    else Step(h, allowed, Run(h, allowed, s, actions[..|actions| - 1]), actions[|actions| - 1])
  }

  predicate NoRemoval(actions: seq<Action>) {
    forall i :: 0 <= i < |actions| ==> !actions[i].Remove?
  }

  function Accepted(allowed: set<string>, actions: seq<Action>): nat {
    if actions == [] then 0
    else
      var last := actions[|actions| - 1];
      Accepted(allowed, actions[..|actions| - 1]) + if last.Append? && last.actor in allowed then 1 else 0
  }

  /** While the file exists the caches never matter: whatever the instances remember, the same
      actions write the same file. */
  lemma {:induction false} CachesDoNotMatter(h: Hasher, allowed: set<string>, lines: seq<SignedEvent>,
                                             stale: map<nat, Cache>, other: map<nat, Cache>, actions: seq<Action>)
    requires NoRemoval(actions)
    ensures Run(h, allowed, Shared(Some(lines), stale), actions).file.Some?
    ensures Run(h, allowed, Shared(Some(lines), stale), actions).file == Run(h, allowed, Shared(Some(lines), other), actions).file
  {
    if actions != [] {
      CachesDoNotMatter(h, allowed, lines, stale, other, actions[..|actions| - 1]);
    }
  }

  /** An accepted append that re-created the current file from a cache that remembers an earlier one. */
  predicate Spoils(h: Hasher, allowed: set<string>, s: Shared, actions: seq<Action>, i: int) {
    && 0 <= i < |actions| && actions[i].Append? && actions[i].actor in allowed
    && NoRemoval(actions[i + 1..])
    && var before := Run(h, allowed, s, actions[..i]);
       before.file.None? && CacheOf(before, actions[i].instance) != FRESH
  }

  lemma SpoilsBefore(h: Hasher, allowed: set<string>, s: Shared, actions: seq<Action>, i: int)
    requires 0 <= i < |actions| - 1
    ensures Spoils(h, allowed, s, actions, i)
            <==> Spoils(h, allowed, s, actions[..|actions| - 1], i) && !actions[|actions| - 1].Remove?
  {
    var init := actions[..|actions| - 1];
    assert init[..i] == actions[..i];
    assert actions[i + 1..] == init[i + 1..] + [actions[|actions| - 1]];
  }

  lemma {:induction false} SpoiltStays(h: Hasher, allowed: set<string>, s: Shared, actions: seq<Action>, i: int)
    requires Spoils(h, allowed, s, actions, i)
    ensures Run(h, allowed, s, actions).file.Some?
  {
    if i < |actions| - 1 {
      SpoilsBefore(h, allowed, s, actions, i);
      SpoiltStays(h, allowed, s, actions[..|actions| - 1], i);
    }
  }

  /** Over every run of any number of instances, from a file that is missing or intact: the file
      verifies exactly if no append re-created it from the cache of an earlier file. */
  lemma {:induction false} FileVerifiesIff(h: Hasher, allowed: set<string>, s: Shared, actions: seq<Action>)
    requires ChainOk(h, LinesOf(s.file))
    ensures ChainOk(h, LinesOf(Run(h, allowed, s, actions).file)) <==> forall i :: !Spoils(h, allowed, s, actions, i)
  {
    if actions != [] {
      var last := |actions| - 1;
      var init, a := actions[..last], actions[last];
      var before := Run(h, allowed, s, init);
      FileVerifiesIff(h, allowed, s, init);
      StepSpoils(h, allowed, s, actions);
      if a.Append? && a.actor in allowed {
        if before.file.Some? {
          EmitKeepsVerdict(h, before.file.value, a.actor, a.kind, a.payload, a.now);
        } else {
          var signed := Sign(h, CacheOf(before, a.instance), a.actor, a.kind, a.payload, a.now);
          assert [] + [signed] == [signed];
          EmitAfterRemoval(h, CacheOf(before, a.instance), a.actor, a.kind, a.payload, a.now);
        }
      }
    }
  }

  /** What one more action does to the spoilt appends. */
  lemma StepSpoils(h: Hasher, allowed: set<string>, s: Shared, actions: seq<Action>)
    requires actions != []
    ensures var init, a := actions[..|actions| - 1], actions[|actions| - 1];
            var before := Run(h, allowed, s, init);
            (exists i :: Spoils(h, allowed, s, actions, i)) <==>
            if a.Remove? then false
            else if before.file.Some? then exists i :: Spoils(h, allowed, s, init, i)
            else a.Append? && a.actor in allowed && CacheOf(before, a.instance) != FRESH
  {
    hide Run;
    var last := |actions| - 1;
    var init, a := actions[..last], actions[last];
    var before := Run(h, allowed, s, init);
    forall i | 0 <= i < last
      ensures Spoils(h, allowed, s, actions, i) <==> Spoils(h, allowed, s, init, i) && !a.Remove?
      ensures Spoils(h, allowed, s, init, i) ==> before.file.Some?
    {
      SpoilsBefore(h, allowed, s, actions, i);
      if Spoils(h, allowed, s, init, i) {
        SpoiltStays(h, allowed, s, init, i);
      }
    }
    assert Spoils(h, allowed, s, actions, last) <==>
           a.Append? && a.actor in allowed && before.file.None? && CacheOf(before, a.instance) != FRESH;
  }

  /** While nobody removes the file: whatever instances open and append in whatever order, with
      whatever stale caches, onto an empty file, it verifies, and its sequence numbers are exactly
      0 .. k-1 for the k accepted appends. */
  lemma {:induction false} InterleavedEmitsVerify(h: Hasher, allowed: set<string>, stale: map<nat, Cache>, actions: seq<Action>)
    requires NoRemoval(actions)
    ensures var file := Run(h, allowed, Shared(Some([]), stale), actions).file;
            && file.Some? && ChainOk(h, file.value)
            && |file.value| == Accepted(allowed, actions)
            && forall i :: 0 <= i < |file.value| ==> file.value[i].event.seqNo == i
  {
    var s := Shared(Some([]), stale);
    CachesDoNotMatter(h, allowed, [], stale, stale, actions);
    forall i ensures !Spoils(h, allowed, s, actions, i) {
      if 0 <= i < |actions| {
        CachesDoNotMatter(h, allowed, [], stale, stale, actions[..i]);
      }
    }
    FileVerifiesIff(h, allowed, s, actions);
    AppendsCounted(h, allowed, s, actions);
    var lines := Run(h, allowed, s, actions).file.value;
    forall i | 0 <= i < |lines| ensures lines[i].event.seqNo == i {
      assert LinkOk(h, lines, i);
    }
  }

  lemma RunOfOne(h: Hasher, allowed: set<string>, s: Shared, a: Action)
    ensures Run(h, allowed, s, [a]) == Step(h, allowed, s, a)
  {
    hide Step;
    assert [a][..0] == [];
  }

  lemma RunOfThree(h: Hasher, allowed: set<string>, s: Shared, a: Action, b: Action, c: Action)
    ensures Run(h, allowed, s, [a, b, c]) == Step(h, allowed, Step(h, allowed, Step(h, allowed, s, a), b), c)
  {
    hide Step;
    RunOfOne(h, allowed, s, a);
    assert [a, b][..1] == [a];
    assert Run(h, allowed, s, [a, b]) == Step(h, allowed, Run(h, allowed, s, [a]), b);
    assert [a, b, c][..2] == [a, b];
  }

  /** The appends of the run whose actor is on the allow-list, in order. */
  function AcceptedAppends(allowed: set<string>, actions: seq<Action>): seq<Action> {
    if actions == [] then []
    else
      var last := actions[|actions| - 1];
      AcceptedAppends(allowed, actions[..|actions| - 1]) + if last.Append? && last.actor in allowed then [last] else []
  }

  /** The line holds what its append was called with. */
  predicate Holds(line: SignedEvent, a: Action) {
    a.Append? && line.event.actor == a.actor && line.event.kind == a.kind && line.event.payload == a.payload
    && line.event.timestamp == a.now
  }

  /** While nobody removes the file, it holds, in order, exactly the events that were accepted, each as
      its caller gave it; so every actor in it is on the allow-list. */
  lemma {:induction false} FileHoldsTheAppends(h: Hasher, allowed: set<string>, stale: map<nat, Cache>, actions: seq<Action>)
    requires NoRemoval(actions)
    ensures var lines := LinesOf(Run(h, allowed, Shared(Some([]), stale), actions).file);
            var accepted := AcceptedAppends(allowed, actions);
            && |lines| == |accepted|
            && forall k :: 0 <= k < |lines| ==> Holds(lines[k], accepted[k]) && lines[k].event.actor in allowed
  {
    if actions != [] {
      FileHoldsTheAppends(h, allowed, stale, actions[..|actions| - 1]);
    }
  }

  /** An instance that outlives its file breaks the next one: after it has written once, its first
      append to a re-created file fails verification. */
  lemma RemovalBreaksTheChain(h: Hasher, allowed: set<string>, a: Action, b: Action)
    requires a.Append? && a.actor in allowed && b.Append? && b.actor in allowed && a.instance == b.instance
    ensures !ChainOk(h, LinesOf(Run(h, allowed, Shared(None, map[]), [a, Remove, b]).file))
  {
    hide Run;
    var s := Shared(None, map[]);
    RunOfThree(h, allowed, s, a, Remove, b);
    var two := Step(h, allowed, Step(h, allowed, s, a), Remove);
    var signed := Sign(h, CacheOf(two, b.instance), b.actor, b.kind, b.payload, b.now);
    assert [] + [signed] == [signed];
    EmitAfterRemoval(h, CacheOf(two, b.instance), b.actor, b.kind, b.payload, b.now);
  }

  /** Every emitted event stays where it was written until the file is removed. */
  lemma {:induction false} EmitsOnlyAppend(h: Hasher, allowed: set<string>, s: Shared, actions: seq<Action>)
    requires NoRemoval(actions)
    ensures LinesOf(s.file) <= LinesOf(Run(h, allowed, s, actions).file)
  {
    if actions != [] {
      EmitsOnlyAppend(h, allowed, s, actions[..|actions| - 1]);
    }
  }

  lemma {:induction false} AppendsCounted(h: Hasher, allowed: set<string>, s: Shared, actions: seq<Action>)
    requires NoRemoval(actions)
    ensures |LinesOf(Run(h, allowed, s, actions).file)| == |LinesOf(s.file)| + Accepted(allowed, actions)
  {
    if actions != [] {
      AppendsCounted(h, allowed, s, actions[..|actions| - 1]);
    }
  }

  // ---- tamper evidence ---------------------------------------------------------------------------

  /** Digests all have the length of the genesis hash, and serialisation loses nothing. */
  ghost predicate WellBehaved(h: Hasher) {
    && (forall x :: |h.digest(x)| == |GENESIS|)
    && (forall a, b :: h.body(a) == h.body(b) ==> a == b)
  }

  function PreimageAt(h: Hasher, lines: seq<SignedEvent>, i: nat): string
    requires i < |lines|
  {
    Preimage(h, lines[i].event, lines[i].prevHash)
  }

  /** No two different texts hashed in the two logs share a digest. */
  ghost predicate NoCollision(h: Hasher, f: seq<SignedEvent>, g: seq<SignedEvent>) {
    forall i, j :: 0 <= i < |f| && 0 <= j < |g| && h.digest(PreimageAt(h, f, i)) == h.digest(PreimageAt(h, g, j))
      ==> PreimageAt(h, f, i) == PreimageAt(h, g, j)
  }

  lemma ChainPrefix(h: Hasher, lines: seq<SignedEvent>, n: nat)
    requires ChainOk(h, lines) && n <= |lines|
    ensures ChainOk(h, lines[..n])
  {
    forall i | 0 <= i < n ensures LinkOk(h, lines[..n], i) {
      assert LinkOk(h, lines, i);
    }
  }

  lemma SameLastHashSameLastLine(h: Hasher, f: seq<SignedEvent>, g: seq<SignedEvent>)
    requires WellBehaved(h) && NoCollision(h, f, g)
    requires ChainOk(h, f) && ChainOk(h, g) && f != [] && g != []
    requires f[|f| - 1].eventHash == g[|g| - 1].eventHash
    ensures f[|f| - 1] == g[|g| - 1] && |f| == |g|
  {
    var x, y := f[|f| - 1], g[|g| - 1];
    assert LinkOk(h, f, |f| - 1) && LinkOk(h, g, |g| - 1);
    PrevLength(h, f, |f| - 1);
    PrevLength(h, g, |g| - 1);
    assert PreimageAt(h, f, |f| - 1) == PreimageAt(h, g, |g| - 1);
    var n := |GENESIS|;
    assert x.prevHash == Preimage(h, x.event, x.prevHash)[..n];
    assert y.prevHash == Preimage(h, y.event, y.prevHash)[..n];
    assert h.body(x.event) == Preimage(h, x.event, x.prevHash)[n..];
    assert h.body(y.event) == Preimage(h, y.event, y.prevHash)[n..];
  }

  lemma PrevLength(h: Hasher, lines: seq<SignedEvent>, i: nat)
    requires WellBehaved(h) && ChainOk(h, lines) && i < |lines|
    ensures |lines[i].prevHash| == |GENESIS|
  {
    assert LinkOk(h, lines, i);
    if i > 0 {
      assert LinkOk(h, lines, i - 1);
    }
  }

  /** Two non-empty logs that both verify and end in the same hash are the same, line for line,
      unless two different texts they hash collide: whoever keeps the last hash detects any
      edit, insertion, deletion, reordering or truncation. */
  lemma {:induction false} SameLastHashSameLog(h: Hasher, f: seq<SignedEvent>, g: seq<SignedEvent>)
    requires WellBehaved(h) && NoCollision(h, f, g)
    requires ChainOk(h, f) && ChainOk(h, g) && f != [] && g != []
    requires f[|f| - 1].eventHash == g[|g| - 1].eventHash
    ensures f == g
    decreases |f|
  {
    SameLastHashSameLastLine(h, f, g);
    var n := |f| - 1;
    if n > 0 {
      assert LinkOk(h, f, n) && LinkOk(h, g, n);
      ChainPrefix(h, f, n);
      ChainPrefix(h, g, n);
      assert NoCollision(h, f[..n], g[..n]) by {
        forall i, j | 0 <= i < n && 0 <= j < n && h.digest(PreimageAt(h, f[..n], i)) == h.digest(PreimageAt(h, g[..n], j))
          ensures PreimageAt(h, f[..n], i) == PreimageAt(h, g[..n], j)
        {
          assert PreimageAt(h, f[..n], i) == PreimageAt(h, f, i);
          assert PreimageAt(h, g[..n], j) == PreimageAt(h, g, j);
        }
      }
      SameLastHashSameLog(h, f[..n], g[..n]);
      assert f == f[..n] + [f[n]] && g == g[..n] + [g[n]];
    }
  }
}
