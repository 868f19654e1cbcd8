/** One memory tier: a candidate map, a live map and an archive, with promotion guarded by a hash
    of the live map. Entries are immutable values, which stand for the detached deep copies. */
module Store {
  import opened Prelude
  import opened Trust

  datatype Tier = Working | Episodic | Semantic | Procedural | Causal

  datatype Entry = Entry(
    id: string,
    tier: Tier,
    content: string,
    trust: Level,
    whyTag: string,
    sourceSeq: Option<int>,
    createdAt: int,
    promotedAt: Option<int>,
    deprecatedReason: Option<string>,
    writer: Option<string>,
    extra: string)

  type Entries = map<string, Entry>

  datatype ArchiveRecord = ArchiveRecord(entry: Entry, why: string)

  datatype StoreState = StoreState(candidate: Entries, live: Entries, archive: seq<ArchiveRecord>)

  datatype StoreError =
    | TierConsumer
    | Precondition
    | DuplicateIds
    | MissingCandidate(id: string)
    | BadTransition(id: string)
    | ArchiveIo

  /** The store's surroundings: its hash function and, when a tier guard is wired in, which role
      may write into which tier. */
  datatype Env = Env(tier: Tier, hash: Entries -> string, guard: Option<(string, Tier) -> bool>)

  predicate Keyed(m: Entries) {
    forall id :: id in m ==> m[id].id == id
  }

  // ---- what each operation does ------------------------------------------------------------

  function Stamp(e: Entry, writer: Option<string>): Entry {
    if writer.None? then e else e.(writer := writer)
  }

  function AfterWrite(m: Entries, entries: seq<Entry>, writer: Option<string>): Entries
    decreases |entries|
  {
    if entries == [] then m
    else AfterWrite(m[entries[0].id := Stamp(entries[0], writer)], entries[1..], writer)
  }

  predicate GuardAllows(env: Env, role: Option<string>) {
    env.guard.Some? && role.Some? ==> env.guard.value(role.value, env.tier)
  }

  /** What is wrong with promoting one id, in the order the checks are made. */
  function IdFault(s: StoreState, id: string): Option<StoreError> {
    if id !in s.candidate then Some(MissingCandidate(id))
    else if !ValidPromotion(s.candidate[id].trust, Promoted) then Some(BadTransition(id))
    else if id in s.live && !ValidPromotion(s.live[id].trust, Promoted) then Some(BadTransition(id))
    else None
  }

  /** The fault of the first faulty id of a batch. */
  function BatchFault(s: StoreState, ids: seq<string>): (r: Option<StoreError>)
    ensures r.None? <==> forall id :: id in ids ==> IdFault(s, id).None?
  {
    if ids == [] then None
    else if IdFault(s, ids[0]).Some? then IdFault(s, ids[0])
    else BatchFault(s, ids[1..])
  }

  function Bump(e: Entry, now: int): Entry {
    e.(trust := Promoted, promotedAt := Some(now))
  }

  /** A live entry and the candidate it was promoted from differ in trust and promotion time only. */
  predicate PromotedFrom(e: Entry, candidate: Entry, now: int) {
    e.trust == Promoted && e.promotedAt == Some(now)
    && e.(trust := candidate.trust, promotedAt := candidate.promotedAt) == candidate
  }

  /** The live map once the candidates of a batch have been installed in it. */
  function Installed(live: Entries, candidate: Entries, ids: seq<string>, now: int): Entries
    requires forall id :: id in ids ==> id in candidate
  {
    live + map id | id in ids :: Bump(candidate[id], now)
  }

  function Archived(s: StoreState, ids: seq<string>, why: string): (r: seq<ArchiveRecord>)
    requires forall id :: id in ids ==> id in s.candidate
    ensures |r| == |ids|
    ensures forall k :: 0 <= k < |ids| ==> r[k] == ArchiveRecord(s.candidate[ids[k]], why)
  {
    seq(|ids|, k requires 0 <= k < |ids| => ArchiveRecord(s.candidate[ids[k]], why))
  }

  /** One promotion request: the batch, its precondition, who asks, when, and how many archive
      writes succeed before one fails. */
  datatype Request = Request(ids: seq<string>, pre: string, why: string, role: Option<string>, now: int, archiveOk: nat)

  function PromotionFault(env: Env, s: StoreState, q: Request): Option<StoreError> {
    if !GuardAllows(env, q.role) then Some(TierConsumer)
    else if q.pre != env.hash(s.live) then Some(Precondition)
    else if !Distinct(q.ids) then Some(DuplicateIds)
    else if BatchFault(s, q.ids).Some? then BatchFault(s, q.ids)
    else if q.archiveOk < |q.ids| then Some(ArchiveIo)
    else None
  }

  function AfterPromote(env: Env, s: StoreState, q: Request): StoreState {
    var fault := PromotionFault(env, s, q);
    if fault.None? then
      StoreState(
        s.candidate - Elements(q.ids),
        Installed(s.live, s.candidate, q.ids, q.now),
        s.archive + Archived(s, q.ids, q.why))
    else if fault == Some(ArchiveIo) && q.archiveOk < |q.ids| && BatchFault(s, q.ids).None? then
      s.(archive := s.archive + Archived(s, q.ids, q.why)[..q.archiveOk])
    else s
  }

  function VerifyFault(s: StoreState, id: string): Option<StoreError> {
    if id !in s.candidate then Some(MissingCandidate(id))
    else if Rank(s.candidate[id].trust) >= Rank(Verified) then None
    else if !ValidPromotion(s.candidate[id].trust, Verified) then Some(BadTransition(id))
    else None
  }

  function VerifyBatchFault(s: StoreState, ids: seq<string>): (r: Option<StoreError>)
    ensures r.None? <==> forall id :: id in ids ==> VerifyFault(s, id).None?
  {
    if ids == [] then None
    else if VerifyFault(s, ids[0]).Some? then VerifyFault(s, ids[0])
    else VerifyBatchFault(s, ids[1..])
  }

  function AtLeastVerified(e: Entry): Entry {
    if Rank(e.trust) >= Rank(Verified) then e else e.(trust := Verified)
  }

  /** The candidate map once a batch has been raised to VERIFIED. */
  function Raised(candidate: Entries, ids: seq<string>): Entries
    requires forall id :: id in ids ==> id in candidate
  {
    candidate + map id | id in ids :: AtLeastVerified(candidate[id])
  }

  function AfterMarkVerified(s: StoreState, ids: seq<string>): StoreState {
    if VerifyBatchFault(s, ids).None? then
      s.(candidate := Raised(s.candidate, ids))
    else s
  }

  /** A discard removes the candidate before it archives it, so a failing write leaves no record. */
  function AfterDiscard(s: StoreState, id: string, reason: string, archives: bool): StoreState {
    if id !in s.candidate then s
    else if archives then
      s.(candidate := s.candidate - {id},
         archive := s.archive + [ArchiveRecord(s.candidate[id], "discarded:" + reason)])
    else s.(candidate := s.candidate - {id})
  }

  function AfterDeprecate(s: StoreState, id: string, reason: string): StoreState {
    if id in s.live then
      s.(live := s.live[id := s.live[id].(trust := Deprecated, deprecatedReason := Some(reason))])
    else s
  }

  // ---- small facts about the batches -------------------------------------------------------

  lemma {:induction false} BatchFaultFirst(s: StoreState, ids: seq<string>, k: nat)
    requires k < |ids| && IdFault(s, ids[k]).Some?
    requires forall j :: 0 <= j < k ==> IdFault(s, ids[j]).None?
    ensures BatchFault(s, ids) == IdFault(s, ids[k])
  {
    if k > 0 {
      BatchFaultFirst(s, ids[1..], k - 1);
    }
  }

  lemma {:induction false} VerifyFaultFirst(s: StoreState, ids: seq<string>, k: nat)
    requires k < |ids| && VerifyFault(s, ids[k]).Some?
    requires forall j :: 0 <= j < k ==> VerifyFault(s, ids[j]).None?
    ensures VerifyBatchFault(s, ids) == VerifyFault(s, ids[k])
  {
    if k > 0 {
      VerifyFaultFirst(s, ids[1..], k - 1);
    }
  }

  lemma InstallOne(live: Entries, candidate: Entries, ids: seq<string>, id: string, now: int)
    requires (forall x :: x in ids ==> x in candidate) && id in candidate
    ensures Installed(live, candidate, ids + [id], now) == Installed(live, candidate, ids, now)[id := Bump(candidate[id], now)]
    ensures candidate - Elements(ids + [id]) == candidate - Elements(ids) - {id}
  {
  }

  lemma InstallNone(live: Entries, candidate: Entries, now: int)
    ensures Installed(live, candidate, [], now) == live
    ensures candidate - Elements([]) == candidate
  {
  }

  lemma BumpKeepsId(e: Entry, now: int)
    ensures Bump(e, now).id == e.id
  {
  }

  lemma InstalledKeyed(live: Entries, candidate: Entries, ids: seq<string>, now: int)
    requires Keyed(live) && Keyed(candidate) && forall id :: id in ids ==> id in candidate
    ensures Keyed(Installed(live, candidate, ids, now))
  {
  }

  lemma RaiseOne(candidate: Entries, ids: seq<string>, id: string)
    requires (forall x :: x in ids ==> x in candidate) && id in candidate
    ensures Raised(candidate, ids + [id]) == Raised(candidate, ids)[id := AtLeastVerified(candidate[id])]
  {
  }

  /** Writing a batch and then one more entry. */
  lemma {:induction false} WriteAppend(m: Entries, entries: seq<Entry>, e: Entry, writer: Option<string>)
    ensures AfterWrite(m, entries + [e], writer) == AfterWrite(m, entries, writer)[e.id := Stamp(e, writer)]
    decreases |entries|
  {
    if entries == [] {
      assert (entries + [e])[1..] == [];
    } else {
      assert (entries + [e])[1..] == entries[1..] + [e];
      WriteAppend(m[entries[0].id := Stamp(entries[0], writer)], entries[1..], e, writer);
    }
  }

  /** A batch write leaves every id it does not name as it was. */
  lemma {:induction false} WriteUntouched(m: Entries, entries: seq<Entry>, writer: Option<string>, id: string)
    requires forall k :: 0 <= k < |entries| ==> entries[k].id != id
    ensures var w := AfterWrite(m, entries, writer);
            (id in w <==> id in m) && (id in m ==> w[id] == m[id])
    decreases |entries|
  {
    if entries != [] {
      WriteUntouched(m[entries[0].id := Stamp(entries[0], writer)], entries[1..], writer, id);
    }
  }

  /** The last entry written under an id is the one the store then holds, stamped. */
  lemma {:induction false} WriteLastWins(m: Entries, entries: seq<Entry>, writer: Option<string>, k: nat)
    requires k < |entries|
    requires forall j :: k < j < |entries| ==> entries[j].id != entries[k].id
    ensures var w := AfterWrite(m, entries, writer);
            entries[k].id in w && w[entries[k].id] == Stamp(entries[k], writer)
            && w[entries[k].id].writer == (if writer.Some? then writer else entries[k].writer)
            && w[entries[k].id].(writer := entries[k].writer) == entries[k]
    decreases |entries|
  {
    var m' := m[entries[0].id := Stamp(entries[0], writer)];
    if k == 0 {
      WriteUntouched(m', entries[1..], writer, entries[0].id);
    } else {
      WriteLastWins(m', entries[1..], writer, k - 1);
    }
  }

  lemma {:induction false} WriteKeyed(m: Entries, entries: seq<Entry>, writer: Option<string>)
    requires Keyed(m)
    ensures Keyed(AfterWrite(m, entries, writer))
    decreases |entries|
  {
    if entries != [] {
      WriteKeyed(m[entries[0].id := Stamp(entries[0], writer)], entries[1..], writer);
    }
  }

  // ---- the store ---------------------------------------------------------------------------

  class MemoryStore {
    const env: Env
    var candidate: Entries
    var live: Entries
    var archive: seq<ArchiveRecord>

    /** Both maps are keyed by the entries' own ids. */
    ghost predicate Valid()
      reads this
    {
      Keyed(candidate) && Keyed(live)
    }

    ghost function State(): StoreState
      reads this
    {
      StoreState(candidate, live, archive)
    }

    constructor (env: Env)
      ensures Valid() && this.env == env && State() == StoreState(map[], map[], [])
    {
      this.env := env;
      candidate, live, archive := map[], map[], [];
    }

    method LiveHash() returns (h: string)
      ensures h == env.hash(live)
    {
      h := env.hash(live);
    }

    /** The hash and the map it was taken of, read together. */
    method LiveSnapshot() returns (h: string, snapshot: Entries)
      ensures snapshot == live && h == env.hash(snapshot)
    {
      snapshot := live;
      h := env.hash(snapshot);
    }

    method WriteCandidates(entries: seq<Entry>, writer: Option<string>)
      requires Valid()
      modifies this`candidate
      ensures Valid()
      ensures State() == old(State()).(candidate := AfterWrite(old(candidate), entries, writer))
    {
      ghost var before := candidate;
      for i := 0 to |entries|
        invariant candidate == AfterWrite(before, entries[..i], writer)
        invariant Keyed(candidate)
      {
        assert entries[..i + 1] == entries[..i] + [entries[i]];
        WriteAppend(before, entries[..i], entries[i], writer);
        candidate := candidate[entries[i].id := Stamp(entries[i], writer)];
      }
      assert entries[..|entries|] == entries;
    }

    method Promote(q: Request) returns (r: Result<seq<Entry>, StoreError>)
      requires Valid()
      modifies this
      ensures Valid()
      ensures State() == AfterPromote(env, old(State()), q)
      ensures match PromotionFault(env, old(State()), q)
              case Some(fault) => r == Err(fault)
              case None => r.Ok? && |r.value| == |q.ids|
                           && forall k :: 0 <= k < |q.ids| ==>
                             q.ids[k] in live && r.value[k] == live[q.ids[k]]
                             && q.ids[k] in old(candidate) && PromotedFrom(r.value[k], old(candidate)[q.ids[k]], q.now)
    {
      ghost var s := State();
      if !GuardAllows(env, q.role) {
        return Err(TierConsumer);
      }
      if q.pre != env.hash(live) {
        return Err(Precondition);
      }
      if !Distinct(q.ids) {
        return Err(DuplicateIds);
      }
      r := Validate(q.ids, q.now);
      if r.Err? {
        return;
      }
      var archived := ArchiveAll(q);
      if !archived {
        return Err(ArchiveIo);
      }
      Commit(s, q, r.value);
    }

    /** Check a whole batch before anything changes; the bumped copies it returns are detached. */
    method Validate(ids: seq<string>, now: int) returns (r: Result<seq<Entry>, StoreError>)
      ensures match BatchFault(State(), ids)
              case Some(fault) => r == Err(fault)
              case None => r.Ok? && |r.value| == |ids|
                           && forall k :: 0 <= k < |ids| ==> ids[k] in candidate && r.value[k] == Bump(candidate[ids[k]], now)
    {
      var promoted: seq<Entry> := [];
      for i := 0 to |ids|
        invariant forall j :: 0 <= j < i ==> IdFault(State(), ids[j]).None?
        invariant |promoted| == i
        invariant forall j :: 0 <= j < i ==> promoted[j] == Bump(candidate[ids[j]], now)
      {
        var id := ids[i];
        if id !in candidate {
          BatchFaultFirst(State(), ids, i);
          return Err(MissingCandidate(id));
        }
        var cand := candidate[id];
        if !ValidPromotion(cand.trust, Promoted) {
          BatchFaultFirst(State(), ids, i);
          return Err(BadTransition(id));
        }
        var bumped := Bump(cand, now);
        if id in live && !ValidPromotion(live[id].trust, bumped.trust) {
          BatchFaultFirst(State(), ids, i);
          return Err(BadTransition(id));
        }
        promoted := promoted + [bumped];
      }
      r := Ok(promoted);
    }

    /** Archive the pre-promotion candidates one by one, up to the first write that fails. */
    method ArchiveAll(q: Request) returns (ok: bool)
      requires forall id :: id in q.ids ==> id in candidate
      modifies this`archive
      ensures ok <==> |q.ids| <= q.archiveOk
      ensures archive == old(archive) + Archived(State(), q.ids, q.why)[..if ok then |q.ids| else q.archiveOk]
    {
      ghost var records := Archived(State(), q.ids, q.why);
      ghost var before := archive;
      for i := 0 to |q.ids|
        invariant i <= q.archiveOk
        invariant archive == before + records[..i]
      {
        if i == q.archiveOk {
          return false;
        }
        assert records[..i + 1] == records[..i] + [records[i]];
        archive := archive + [ArchiveRecord(candidate[q.ids[i]], q.why)];
      }
      ok := true;
    }

    /** The last phase of a promotion: install the bumped entries and drop their candidates. */
    method Commit(ghost s: StoreState, q: Request, promoted: seq<Entry>)
      requires Valid() && candidate == s.candidate && live == s.live
      requires |promoted| == |q.ids|
      requires forall k :: 0 <= k < |q.ids| ==> q.ids[k] in s.candidate && promoted[k] == Bump(s.candidate[q.ids[k]], q.now)
      modifies this`candidate, this`live
      ensures Valid()
      ensures candidate == s.candidate - Elements(q.ids)
      ensures live == Installed(s.live, s.candidate, q.ids, q.now)
    {
      hide Installed, Bump;
      InstallNone(s.live, s.candidate, q.now);
      InstalledKeyed(s.live, s.candidate, q.ids, q.now);
      for i := 0 to |promoted|
        invariant candidate == s.candidate - Elements(q.ids[..i])
        invariant live == Installed(s.live, s.candidate, q.ids[..i], q.now)
      {
        BumpKeepsId(s.candidate[q.ids[i]], q.now);
        assert promoted[i].id == q.ids[i];
        assert q.ids[..i + 1] == q.ids[..i] + [q.ids[i]];
        InstallOne(s.live, s.candidate, q.ids[..i], q.ids[i], q.now);
        live := live[promoted[i].id := promoted[i]];
        candidate := candidate - {promoted[i].id};
      }
      assert q.ids[..|promoted|] == q.ids;
    }

    method MarkVerified(ids: seq<string>) returns (r: Result<seq<Entry>, StoreError>)
      requires Valid()
      modifies this`candidate
      ensures Valid()
      ensures State() == AfterMarkVerified(old(State()), ids)
      ensures match VerifyBatchFault(old(State()), ids)
              case Some(fault) => r == Err(fault)
              case None => r.Ok? && |r.value| == |ids|
                           && forall k :: 0 <= k < |ids| ==> ids[k] in candidate && r.value[k] == candidate[ids[k]]
    {
      r := CheckVerifiable(ids);
      if r.Ok? {
        InstallRaised(ids, r.value);
      }
    }

    /** The last phase of a verification: put the raised entries in place. */
    method InstallRaised(ghost ids: seq<string>, entries: seq<Entry>)
      requires Valid() && |entries| == |ids|
      requires forall k :: 0 <= k < |ids| ==> ids[k] in candidate && entries[k] == AtLeastVerified(candidate[ids[k]])
      modifies this`candidate
      ensures Valid()
      ensures candidate == Raised(old(candidate), ids)
    {
      ghost var before := candidate;
      for i := 0 to |entries|
        invariant candidate == Raised(before, ids[..i])
      {
        assert entries[i].id == ids[i];
        assert ids[..i + 1] == ids[..i] + [ids[i]];
        RaiseOne(before, ids[..i], ids[i]);
        candidate := candidate[entries[i].id := entries[i]];
      }
      assert ids[..|entries|] == ids;
    }

    /** Check a whole batch before any of it is raised. */
    method CheckVerifiable(ids: seq<string>) returns (r: Result<seq<Entry>, StoreError>)
      ensures match VerifyBatchFault(State(), ids)
              case Some(fault) => r == Err(fault)
              case None => r.Ok? && |r.value| == |ids|
                           && forall k :: 0 <= k < |ids| ==> ids[k] in candidate && r.value[k] == AtLeastVerified(candidate[ids[k]])
    {
      var out: seq<Entry> := [];
      for i := 0 to |ids|
        invariant forall j :: 0 <= j < i ==> VerifyFault(State(), ids[j]).None?
        invariant |out| == i
        invariant forall j :: 0 <= j < i ==> out[j] == AtLeastVerified(candidate[ids[j]])
      {
        var id := ids[i];
        if id !in candidate {
          VerifyFaultFirst(State(), ids, i);
          return Err(MissingCandidate(id));
        }
        var cand := candidate[id];
        if Rank(cand.trust) >= Rank(Verified) {
          out := out + [cand];
        } else {
          if !ValidPromotion(cand.trust, Verified) {
            VerifyFaultFirst(State(), ids, i);
            return Err(BadTransition(id));
          }
          out := out + [cand.(trust := Verified)];
        }
      }
      r := Ok(out);
    }

    /** Drop a candidate; `archives` says whether the archive write succeeds. If it fails the
        exception leaves the method after the candidate is gone. */
    method DiscardCandidate(id: string, reason: string, archives: bool) returns (raised: bool)
      requires Valid()
      modifies this`candidate, this`archive
      ensures Valid()
      ensures State() == AfterDiscard(old(State()), id, reason, archives)
      ensures raised <==> id in old(candidate) && !archives
    {
      if id !in candidate {
        return false;
      }
      var cand := candidate[id];
      candidate := candidate - {id};
      if !archives {
        return true;
      }
      archive := archive + [ArchiveRecord(cand, "discarded:" + reason)];
      raised := false;
    }

    method DeprecateLive(id: string, reason: string)
      requires Valid()
      modifies this`live
      ensures Valid()
      ensures State() == AfterDeprecate(old(State()), id, reason)
    {
      if id in live {
        live := live[id := live[id].(trust := Deprecated, deprecatedReason := Some(reason))];
      }
    }
  }
}
