/** Whole runs of one memory store: every operation takes the store's lock, so a run is a
    sequence of operations, whichever threads issue them. */
module StoreRuns {
  import opened Prelude
  import opened Trust
  import opened Store

  datatype Op =
    | OpWrite(entries: seq<Entry>, writer: Option<string>)
    | OpVerify(ids: seq<string>)
    | OpPromote(q: Request)
    | OpDiscard(id: string, reason: string, archives: bool)
    | OpDeprecate(id: string, reason: string)

  /** The state of a new store. */
  const EMPTY := StoreState(map[], map[], [])

  function Step(env: Env, s: StoreState, op: Op): StoreState {
    match op
    case OpWrite(entries, writer) => s.(candidate := AfterWrite(s.candidate, entries, writer))
    case OpVerify(ids) => AfterMarkVerified(s, ids)
    case OpPromote(q) => AfterPromote(env, s, q)
    case OpDiscard(id, reason, archives) => AfterDiscard(s, id, reason, archives)
    case OpDeprecate(id, reason) => AfterDeprecate(s, id, reason)
  }

  function Run(env: Env, s: StoreState, ops: seq<Op>): StoreState {
    if ops == [] then s else Step(env, Run(env, s, ops[..|ops| - 1]), ops[|ops| - 1])
  }

  /** One operation by whichever thread holds the store's lock. */
  method Perform(store: MemoryStore, op: Op)
    requires store.Valid()
    modifies store
    ensures store.Valid() && store.State() == Step(store.env, old(store.State()), op)
  {
    match op {
      case OpWrite(entries, writer) => store.WriteCandidates(entries, writer);
      case OpVerify(ids) => var _ := store.MarkVerified(ids);
      case OpPromote(q) => var _ := store.Promote(q);
      case OpDiscard(id, reason, archives) => var _ := store.DiscardCandidate(id, reason, archives);
      case OpDeprecate(id, reason) => store.DeprecateLive(id, reason);
    }
  }

  method PerformAll(store: MemoryStore, ops: seq<Op>)
    requires store.Valid()
    modifies store
    ensures store.Valid() && store.State() == Run(store.env, old(store.State()), ops)
  {
    hide Step, Keyed;
    for i := 0 to |ops|
      invariant store.Valid() && store.State() == Run(store.env, old(store.State()), ops[..i])
    {
      assert ops[..i + 1][..i] == ops[..i];
      Perform(store, ops[i]);
    }
    assert ops[..|ops|] == ops;
  }

  /** An operation that is a successful, non-empty promotion. */
  predicate Commits(env: Env, s: StoreState, op: Op) {
    op.OpPromote? && op.q.ids != [] && PromotionFault(env, s, op.q).None?
  }

  ghost predicate Injective(hash: Entries -> string) {
    forall a, b :: hash(a) == hash(b) ==> a == b
  }

  // ---- the invariant of reachable stores ----------------------------------------------------

  /** Equal but for the two fields that deprecation overwrites. */
  predicate SameBody(a: Entry, b: Entry) {
    a.(trust := Raw, deprecatedReason := None) == b.(trust := Raw, deprecatedReason := None)
  }

  /** This archive record holds the candidate a live entry was promoted from. */
  predicate TracedBy(r: ArchiveRecord, e: Entry) {
    && e.promotedAt.Some? && r.entry.trust !in {Promoted, Deprecated}
    && e.(trust := r.entry.trust, promotedAt := r.entry.promotedAt, deprecatedReason := r.entry.deprecatedReason) == r.entry
    && (e.trust == Promoted ==> e.deprecatedReason == r.entry.deprecatedReason)
  }

  ghost predicate Traced(archive: seq<ArchiveRecord>, e: Entry) {
    exists k :: 0 <= k < |archive| && TracedBy(archive[k], e)
  }

  predicate BothKeyed(s: StoreState) {
    Keyed(s.candidate) && Keyed(s.live)
  }

  /** Every live entry is PROMOTED or DEPRECATED. */
  predicate Settled(live: Entries) {
    forall id :: id in live ==> live[id].trust == Promoted || live[id].trust == Deprecated
  }

  ghost predicate AllTraced(s: StoreState) {
    forall id :: id in s.live ==> Traced(s.archive, s.live[id])
  }

  ghost predicate Sound(s: StoreState) {
    BothKeyed(s) && Settled(s.live) && AllTraced(s)
  }

  lemma TracedGrows(archive: seq<ArchiveRecord>, more: seq<ArchiveRecord>, e: Entry)
    requires Traced(archive, e)
    ensures Traced(archive + more, e)
  {
    var k :| 0 <= k < |archive| && TracedBy(archive[k], e);
    assert (archive + more)[k] == archive[k];
  }

  lemma ArchiveGrowthKeepsTraced(s: StoreState, more: seq<ArchiveRecord>)
    requires AllTraced(s)
    ensures forall id :: id in s.live ==> Traced(s.archive + more, s.live[id])
  {
    forall id | id in s.live ensures Traced(s.archive + more, s.live[id]) {
      TracedGrows(s.archive, more, s.live[id]);
    }
  }

  /** In a store whose live entries are settled, an id that may be promoted is not live. */
  lemma PromotableIsNew(s: StoreState, id: string)
    requires Settled(s.live) && IdFault(s, id).None?
    ensures id !in s.live
  {
  }

  /** The effect of a promotion that commits. */
  lemma CommitEffect(env: Env, s: StoreState, q: Request)
    requires Settled(s.live) && PromotionFault(env, s, q).None?
    ensures forall id :: id in q.ids ==>
              id in s.candidate && id !in s.live && s.candidate[id].trust !in {Promoted, Deprecated}
    ensures AfterPromote(env, s, q) ==
            StoreState(s.candidate - Elements(q.ids), Installed(s.live, s.candidate, q.ids, q.now),
                       s.archive + Archived(s, q.ids, q.why))
  {
  }

  /** A rejected promotion changes at most the archive, and that only by adding to it. */
  lemma RejectionEffect(env: Env, s: StoreState, q: Request) returns (more: seq<ArchiveRecord>)
    requires PromotionFault(env, s, q).Some?
    ensures AfterPromote(env, s, q) == s.(archive := s.archive + more)
  {
    more := [];
    if PromotionFault(env, s, q) == Some(ArchiveIo) && q.archiveOk < |q.ids| && BatchFault(s, q.ids).None? {
      more := Archived(s, q.ids, q.why)[..q.archiveOk];
    }
  }

  lemma InstalledEntry(live: Entries, candidate: Entries, ids: seq<string>, now: int, id: string)
    requires forall x :: x in ids ==> x in candidate
    ensures var l := Installed(live, candidate, ids, now);
            if id in ids then id in l && l[id] == Bump(candidate[id], now)
            else (id in l <==> id in live) && (id in live ==> l[id] == live[id])
  {
  }

  lemma CommitKeepsTraced(s: StoreState, q: Request)
    requires AllTraced(s) && forall id :: id in q.ids ==> id in s.candidate && s.candidate[id].trust !in {Promoted, Deprecated}
    ensures AllTraced(StoreState(s.candidate - Elements(q.ids), Installed(s.live, s.candidate, q.ids, q.now),
                                 s.archive + Archived(s, q.ids, q.why)))
  {
    var live' := Installed(s.live, s.candidate, q.ids, q.now);
    var more := Archived(s, q.ids, q.why);
    forall id | id in live'
      ensures Traced(s.archive + more, live'[id])
    {
      InstalledEntry(s.live, s.candidate, q.ids, q.now, id);
      if id in q.ids {
        var k :| 0 <= k < |q.ids| && q.ids[k] == id;
        assert (s.archive + more)[|s.archive| + k] == more[k];
        assert TracedBy(more[k], live'[id]);
      } else {
        TracedGrows(s.archive, more, s.live[id]);
      }
    }
  }

  lemma PromoteKeepsSound(env: Env, s: StoreState, q: Request)
    requires Sound(s)
    ensures Sound(AfterPromote(env, s, q))
  {
    hide AfterPromote, PromotionFault, Installed, AllTraced, Settled, Keyed;
    if PromotionFault(env, s, q).None? {
      CommitEffect(env, s, q);
      CommitKeepsTraced(s, q);
      InstalledKeyed(s.live, s.candidate, q.ids, q.now);
      InstalledSettled(s.live, s.candidate, q.ids, q.now);
      FewerKeyed(s.candidate, Elements(q.ids));
    } else {
      var more := RejectionEffect(env, s, q);
      MoreArchiveKeepsTraced(s, more);
    }
  }

  lemma InstalledSettled(live: Entries, candidate: Entries, ids: seq<string>, now: int)
    requires Settled(live) && forall id :: id in ids ==> id in candidate
    ensures Settled(Installed(live, candidate, ids, now))
  {
  }

  lemma FewerKeyed(m: Entries, gone: set<string>)
    requires Keyed(m)
    ensures Keyed(m - gone)
  {
  }

  lemma MoreArchiveKeepsTraced(s: StoreState, more: seq<ArchiveRecord>)
    requires AllTraced(s)
    ensures AllTraced(s.(archive := s.archive + more))
  {
    ArchiveGrowthKeepsTraced(s, more);
  }

  lemma DeprecateKeepsSound(s: StoreState, id: string, reason: string)
    requires Sound(s)
    ensures Sound(AfterDeprecate(s, id, reason))
  {
  }

  lemma StepKeepsSound(env: Env, s: StoreState, op: Op)
    requires Sound(s)
    ensures Sound(Step(env, s, op))
  {
    match op
    case OpWrite(entries, writer) => WriteKeyed(s.candidate, entries, writer);
    case OpVerify(ids) =>
    case OpPromote(q) => PromoteKeepsSound(env, s, q);
    case OpDiscard(id, reason, archives) =>
      if id in s.candidate {
        ArchiveGrowthKeepsTraced(s, [ArchiveRecord(s.candidate[id], "discarded:" + reason)]);
      }
    case OpDeprecate(id, reason) => DeprecateKeepsSound(s, id, reason);
  }

  lemma EmptyIsSound()
    ensures Sound(EMPTY)
  {
  }

  /** Every run from a sound store, such as a new one, stays sound: live entries are PROMOTED or
      DEPRECATED and each one came from an archived candidate. */
  lemma {:induction false} RunKeepsSound(env: Env, s: StoreState, ops: seq<Op>)
    requires Sound(s)
    ensures Sound(Run(env, s, ops))
    decreases |ops|
  {
    if ops != [] {
      RunKeepsSound(env, s, ops[..|ops| - 1]);
      StepKeepsSound(env, Run(env, s, ops[..|ops| - 1]), ops[|ops| - 1]);
    }
  }

  // ---- live is write-once -------------------------------------------------------------------

  /** No id is lost, and an entry that changed is now DEPRECATED, with its body as it was. */
  ghost predicate Grows(a: Entries, b: Entries) {
    a.Keys <= b.Keys
    && forall id :: id in a ==> SameBody(a[id], b[id]) && (b[id] == a[id] || b[id].trust == Deprecated)
  }

  lemma StepGrows(env: Env, s: StoreState, op: Op)
    requires Sound(s)
    ensures Grows(s.live, Step(env, s, op).live)
    ensures Commits(env, s, op) ==> s.live.Keys < Step(env, s, op).live.Keys
  {
    hide PromotionFault, AfterPromote, AfterWrite, AllTraced;
    if op.OpPromote? {
      if PromotionFault(env, s, op.q).None? {
        CommitEffect(env, s, op.q);
        if op.q.ids != [] {
          assert op.q.ids[0] in Step(env, s, op).live.Keys - s.live.Keys;
        }
      } else {
        var more := RejectionEffect(env, s, op.q);
      }
    }
  }

  lemma {:induction false} RunSplit(env: Env, s: StoreState, xs: seq<Op>, ys: seq<Op>)
    ensures Run(env, s, xs + ys) == Run(env, Run(env, s, xs), ys)
    decreases |ys|
  {
    if ys == [] {
      assert xs + ys == xs;
    } else {
      var last := |ys| - 1;
      assert (xs + ys)[..|xs + ys| - 1] == xs + ys[..last];
      RunSplit(env, s, xs, ys[..last]);
    }
  }

  /** Live is write-once over every run: ids only grow, and an entry never changes but for a
      deprecation. */
  lemma {:induction false} RunGrows(env: Env, s: StoreState, ops: seq<Op>)
    requires Sound(s)
    ensures Grows(s.live, Run(env, s, ops).live)
    decreases |ops|
  {
    if ops != [] {
      var init := ops[..|ops| - 1];
      RunGrows(env, s, init);
      RunKeepsSound(env, s, init);
      StepGrows(env, Run(env, s, init), ops[|ops| - 1]);
    }
  }

  /** Some run of operations leads from one state to the other. */
  ghost predicate Reaches(env: Env, s: StoreState, s': StoreState) {
    exists ops :: s' == Run(env, s, ops)
  }

  lemma RunReaches(env: Env, s: StoreState, ops: seq<Op>)
    ensures Reaches(env, s, Run(env, s, ops))
  {
  }

  lemma ReachesFurther(env: Env, s: StoreState, mid: StoreState, s': StoreState)
    requires Reaches(env, s, mid) && Reaches(env, mid, s')
    ensures Reaches(env, s, s')
  {
    var xs, ys :| mid == Run(env, s, xs) && s' == Run(env, mid, ys);
    RunSplit(env, s, xs, ys);
    assert s' == Run(env, s, xs + ys);
  }

  lemma ReachesSafely(env: Env, s: StoreState, s': StoreState)
    requires Sound(s) && Reaches(env, s, s')
    ensures Sound(s') && Grows(s.live, s'.live)
  {
    var ops :| s' == Run(env, s, ops);
    RunKeepsSound(env, s, ops);
    RunGrows(env, s, ops);
  }

  // ---- what an unrelated run leaves alone -----------------------------------------------------

  /** No write of the run names this id. */
  predicate Unwritten(ops: seq<Op>, id: string) {
    forall k :: 0 <= k < |ops| && ops[k].OpWrite? ==>
      forall j :: 0 <= j < |ops[k].entries| ==> ops[k].entries[j].id != id
  }

  /** A candidate that no write names, if it is still there after a run, is the one that was there
      before, its trust no lower. */
  lemma {:induction false} RunKeepsCandidate(env: Env, s: StoreState, ops: seq<Op>, id: string)
    requires Unwritten(ops, id) && id in Run(env, s, ops).candidate
    ensures var s' := Run(env, s, ops);
            id in s.candidate && s'.candidate[id].(trust := Raw) == s.candidate[id].(trust := Raw)
            && Rank(s'.candidate[id].trust) >= Rank(s.candidate[id].trust)
    decreases |ops|
  {
    if ops != [] {
      var init, op := ops[..|ops| - 1], ops[|ops| - 1];
      var mid := Run(env, s, init);
      assert id in mid.candidate && Step(env, mid, op).candidate[id].(trust := Raw) == mid.candidate[id].(trust := Raw)
             && Rank(Step(env, mid, op).candidate[id].trust) >= Rank(mid.candidate[id].trust) by {
        hide Run;
        StepKeepsCandidate(env, mid, op, id);
      }
      RunKeepsCandidate(env, s, init, id);
    }
  }

  lemma StepKeepsCandidate(env: Env, s: StoreState, op: Op, id: string)
    requires op.OpWrite? ==> forall j :: 0 <= j < |op.entries| ==> op.entries[j].id != id
    requires id in Step(env, s, op).candidate
    ensures var s' := Step(env, s, op);
            id in s.candidate && s'.candidate[id].(trust := Raw) == s.candidate[id].(trust := Raw)
            && Rank(s'.candidate[id].trust) >= Rank(s.candidate[id].trust)
  {
    match op
    case OpWrite(entries, writer) => WriteUntouched(s.candidate, entries, writer, id);
    case OpVerify(ids) =>
    case OpPromote(q) =>
    case OpDiscard(x, reason, archives) =>
    case OpDeprecate(x, reason) =>
  }

  /** Equal but for trust, and in trust as well unless both may still be promoted. */
  predicate AlikeEntry(a: Entry, b: Entry) {
    a.(trust := Raw) == b.(trust := Raw)
    && (a.trust == b.trust || (a.trust !in {Promoted, Deprecated} && b.trust !in {Promoted, Deprecated}))
  }

  predicate Alike(a: StoreState, b: StoreState) {
    a.live == b.live && a.candidate.Keys == b.candidate.Keys
    && forall id :: id in a.candidate ==> AlikeEntry(a.candidate[id], b.candidate[id])
  }

  lemma AlikeFaults(a: StoreState, b: StoreState, ids: seq<string>)
    requires Alike(a, b)
    ensures BatchFault(a, ids).None? <==> BatchFault(b, ids).None?
    ensures VerifyBatchFault(a, ids).None? <==> VerifyBatchFault(b, ids).None?
  {
    forall id ensures IdFault(a, id).None? <==> IdFault(b, id).None? {
    }
    forall id ensures VerifyFault(a, id).None? <==> VerifyFault(b, id).None? {
    }
  }

  lemma {:induction false} WriteKeepsAlike(a: StoreState, b: StoreState, entries: seq<Entry>, writer: Option<string>)
    requires Alike(a, b)
    ensures Alike(a.(candidate := AfterWrite(a.candidate, entries, writer)),
                  b.(candidate := AfterWrite(b.candidate, entries, writer)))
    decreases |entries|
  {
    if entries != [] {
      var x, e := entries[0].id, Stamp(entries[0], writer);
      WriteKeepsAlike(a.(candidate := a.candidate[x := e]), b.(candidate := b.candidate[x := e]), entries[1..], writer);
    }
  }

  lemma RaisedEntryAlike(e: Entry, f: Entry)
    requires AlikeEntry(e, f)
    ensures AlikeEntry(AtLeastVerified(e), AtLeastVerified(f))
  {
  }

  lemma FaultlessAreHeld(s: StoreState, ids: seq<string>)
    ensures BatchFault(s, ids).None? || VerifyBatchFault(s, ids).None? ==> forall id :: id in ids ==> id in s.candidate
  {
  }

  lemma VerifyKeepsAlike(a: StoreState, b: StoreState, ids: seq<string>)
    requires Alike(a, b)
    ensures Alike(AfterMarkVerified(a, ids), AfterMarkVerified(b, ids))
  {
    hide AlikeEntry, AtLeastVerified, VerifyFault;
    AlikeFaults(a, b, ids);
    FaultlessAreHeld(a, ids);
    forall id | id in a.candidate
      ensures AlikeEntry(AtLeastVerified(a.candidate[id]), AtLeastVerified(b.candidate[id]))
    {
      RaisedEntryAlike(a.candidate[id], b.candidate[id]);
    }
  }

  lemma AlikeInstalled(a: StoreState, b: StoreState, ids: seq<string>, now: int)
    requires Alike(a, b) && forall id :: id in ids ==> id in a.candidate
    ensures Installed(a.live, a.candidate, ids, now) == Installed(b.live, b.candidate, ids, now)
  {
    forall id | id in ids ensures Bump(a.candidate[id], now) == Bump(b.candidate[id], now) {
    }
  }

  lemma PromoteKeepsAlike(env: Env, a: StoreState, b: StoreState, q: Request)
    requires Alike(a, b)
    ensures Alike(AfterPromote(env, a, q), AfterPromote(env, b, q))
  {
    hide Installed, AlikeEntry, IdFault;
    AlikeFaults(a, b, q.ids);
    if PromotionFault(env, a, q).None? {
      FaultlessAreHeld(a, q.ids);
      AlikeInstalled(a, b, q.ids, q.now);
    } else {
      var more := RejectionEffect(env, a, q);
      var more' := RejectionEffect(env, b, q);
    }
  }

  lemma StepKeepsAlike(env: Env, a: StoreState, b: StoreState, op: Op)
    requires Alike(a, b)
    ensures Alike(Step(env, a, op), Step(env, b, op))
  {
    hide AfterPromote, AfterMarkVerified, AfterWrite;
    match op
    case OpWrite(entries, writer) => WriteKeepsAlike(a, b, entries, writer);
    case OpVerify(ids) => VerifyKeepsAlike(a, b, ids);
    case OpPromote(q) => PromoteKeepsAlike(env, a, b, q);
    case OpDiscard(x, reason, archives) =>
    case OpDeprecate(x, reason) =>
  }

  lemma {:induction false} RunKeepsAlike(env: Env, a: StoreState, b: StoreState, ops: seq<Op>)
    requires Alike(a, b)
    ensures Alike(Run(env, a, ops), Run(env, b, ops))
    decreases |ops|
  {
    if ops != [] {
      RunKeepsAlike(env, a, b, ops[..|ops| - 1]);
      StepKeepsAlike(env, Run(env, a, ops[..|ops| - 1]), Run(env, b, ops[..|ops| - 1]), ops[|ops| - 1]);
    }
  }

  lemma VerifyIsAlike(s: StoreState, ids: seq<string>)
    ensures Alike(AfterMarkVerified(s, ids), s)
  {
  }

  /** Verifying a batch steers no later operation on live: whatever runs afterwards, live comes out
      as if the verification had not happened. */
  lemma VerifyDoesNotSteerLive(env: Env, s: StoreState, ids: seq<string>, ops: seq<Op>)
    ensures Run(env, AfterMarkVerified(s, ids), ops).live == Run(env, s, ops).live
  {
    hide AfterMarkVerified, AlikeEntry;
    VerifyIsAlike(s, ids);
    RunKeepsAlike(env, AfterMarkVerified(s, ids), s, ops);
  }

  // ---- no ABA on the live hash --------------------------------------------------------------

  /** A committed promotion anywhere in a run leaves the live map with an id it did not have at
      the start. */
  lemma CommitIsPermanent(env: Env, s: StoreState, ops: seq<Op>, i: nat)
    requires Sound(s) && i < |ops|
    requires Commits(env, Run(env, s, ops[..i]), ops[i])
    ensures s.live.Keys < Run(env, s, ops).live.Keys
  {
    var before := Run(env, s, ops[..i]);
    var after := Step(env, before, ops[i]);
    assert s.live.Keys < after.live.Keys by {
      RunGrows(env, s, ops[..i]);
      RunKeepsSound(env, s, ops[..i]);
      StepGrows(env, before, ops[i]);
    }
    RunKeepsSound(env, s, ops[..i]);
    StepKeepsSound(env, before, ops[i]);
    RunAround(env, s, ops, i);
    RunGrows(env, after, ops[i + 1..]);
  }

  lemma RunAround(env: Env, s: StoreState, ops: seq<Op>, i: nat)
    requires i < |ops|
    ensures Run(env, s, ops) == Run(env, Step(env, Run(env, s, ops[..i]), ops[i]), ops[i + 1..])
  {
    assert ops == ops[..i + 1] + ops[i + 1..];
    RunSplit(env, s, ops[..i + 1], ops[i + 1..]);
    assert ops[..i + 1][..i] == ops[..i];
  }

  /** If the live hash is the same at both ends of a run, no promotion committed within it. */
  lemma NoCommitBetweenEqualHashes(env: Env, s: StoreState, ops: seq<Op>)
    requires Sound(s) && Injective(env.hash)
    requires env.hash(s.live) == env.hash(Run(env, s, ops).live)
    ensures Run(env, s, ops).live == s.live
    ensures forall i :: 0 <= i < |ops| ==> !Commits(env, Run(env, s, ops[..i]), ops[i])
  {
    forall i | 0 <= i < |ops| && Commits(env, Run(env, s, ops[..i]), ops[i])
      ensures false
    {
      CommitIsPermanent(env, s, ops, i);
    }
  }

  /** Of the promotions of a run that hold one precondition, at most one non-empty one commits. */
  lemma AtMostOneCommitPerPrecondition(env: Env, s: StoreState, ops: seq<Op>, i: nat, j: nat)
    requires Sound(s) && Injective(env.hash)
    requires i < |ops| && j < |ops|
    requires Commits(env, Run(env, s, ops[..i]), ops[i]) && Commits(env, Run(env, s, ops[..j]), ops[j])
    requires ops[i].q.pre == ops[j].q.pre
    ensures i == j
  {
    if i < j {
      EarlierCommitBlocks(env, s, ops, i, j);
    } else if j < i {
      EarlierCommitBlocks(env, s, ops, j, i);
    }
  }

  lemma EarlierCommitBlocks(env: Env, s: StoreState, ops: seq<Op>, i: nat, j: nat)
    requires Sound(s) && Injective(env.hash)
    requires i < j < |ops|
    requires Commits(env, Run(env, s, ops[..i]), ops[i]) && ops[j].OpPromote?
    requires ops[i].q.pre == ops[j].q.pre
    ensures !Commits(env, Run(env, s, ops[..j]), ops[j])
  {
    var mid := Run(env, s, ops[..i]);
    RunKeepsSound(env, s, ops[..i]);
    assert ops[..j] == ops[..i] + ops[i..j];
    RunSplit(env, s, ops[..i], ops[i..j]);
    assert ops[i..j][..0] == [];
    CommitIsPermanent(env, mid, ops[i..j], 0);
  }

  /** The live map itself can repeat within a run: deprecating again may restore an earlier
      reason. No promotion is involved, which is why the guarantees above speak of promotions. */
  lemma DeprecationReasonCanRepeat(env: Env, s: StoreState, id: string)
    requires id in s.live
    ensures var a := Step(env, s, OpDeprecate(id, "a"));
            var b := Step(env, a, OpDeprecate(id, "b"));
            a.live != b.live && Step(env, b, OpDeprecate(id, "a")).live == a.live
  {
  }

  // ---- all-or-nothing batches ----------------------------------------------------------------

  /** A rejected promotion, an archive failure included, leaves both maps as they were. */
  lemma RejectionChangesNothing(env: Env, s: StoreState, q: Request)
    requires PromotionFault(env, s, q).Some?
    ensures AfterPromote(env, s, q).candidate == s.candidate
    ensures AfterPromote(env, s, q).live == s.live
    ensures s.archive <= AfterPromote(env, s, q).archive
    ensures PromotionFault(env, s, q) != Some(ArchiveIo) ==> AfterPromote(env, s, q) == s
  {
  }

  /** A committed promotion moves exactly the batch: every moved entry is bumped, leaves the
      candidates and is new to live, and every other entry of either map stays as it was. */
  lemma CommitMovesTheBatch(env: Env, s: StoreState, q: Request, id: string)
    requires Sound(s) && PromotionFault(env, s, q).None?
    ensures var s' := AfterPromote(env, s, q);
            if id in q.ids
            then id in s.candidate && id !in s'.candidate && id !in s.live && id in s'.live
                 && PromotedFrom(s'.live[id], s.candidate[id], q.now)
            else SameAt(s.live, s'.live, id) && SameAt(s.candidate, s'.candidate, id)
  {
    CommitEffect(env, s, q);
    InstalledEntry(s.live, s.candidate, q.ids, q.now, id);
  }

  /** Live grows by exactly the batch size, the candidates shrink by it, and each pre-promotion
      candidate is archived once, in the order of the batch. */
  lemma CommitConserves(env: Env, s: StoreState, q: Request) returns (s': StoreState)
    requires Sound(s) && PromotionFault(env, s, q).None?
    ensures s' == AfterPromote(env, s, q)
    ensures |s'.live| == |s.live| + |q.ids|
    ensures |s'.candidate| == |s.candidate| - |q.ids|
    ensures |s'.archive| == |s.archive| + |q.ids| && s.archive <= s'.archive
    ensures forall k :: 0 <= k < |q.ids| ==> ArchivesBatchAt(s, s', q, k)
  {
    hide AfterPromote, Installed, AllTraced, BothKeyed;
    CommitEffect(env, s, q);
    InstalledSize(s.live, s.candidate, q.ids, q.now);
    s' := AfterPromote(env, s, q);
    BatchIsArchived(s, s', q);
  }

  lemma BatchIsArchived(s: StoreState, s': StoreState, q: Request)
    requires forall id :: id in q.ids ==> id in s.candidate
    requires s'.archive == s.archive + Archived(s, q.ids, q.why)
    ensures |s'.archive| == |s.archive| + |q.ids| && s.archive <= s'.archive
    ensures forall k :: 0 <= k < |q.ids| ==> ArchivesBatchAt(s, s', q, k)
  {
  }

  lemma SetSizes(all: set<string>, moved: set<string>)
    ensures all !! moved ==> |all + moved| == |all| + |moved|
    ensures moved <= all ==> |all - moved| == |all| - |moved|
  {
  }

  lemma InstalledSize(live: Entries, candidate: Entries, ids: seq<string>, now: int)
    requires Distinct(ids) && forall id :: id in ids ==> id in candidate && id !in live
    ensures |Installed(live, candidate, ids, now)| == |live| + |ids|
    ensures |candidate - Elements(ids)| == |candidate| - |ids|
  {
    var moved := Elements(ids);
    var live' := Installed(live, candidate, ids, now);
    var rest := candidate - moved;
    assert live'.Keys == live.Keys + moved;
    assert rest.Keys == candidate.Keys - moved;
    assert live.Keys !! moved && moved <= candidate.Keys;
    DistinctSize(ids);
    SetSizes(live.Keys, moved);
    SetSizes(candidate.Keys, moved);
    assert |live'| == |live'.Keys| && |rest| == |rest.Keys|;
  }

  predicate ArchivesBatchAt(s: StoreState, s': StoreState, q: Request, k: nat) {
    && k < |q.ids|
    && q.ids[k] in s.candidate
    && |s.archive| + k < |s'.archive|
    && s'.archive[|s.archive| + k] == ArchiveRecord(s.candidate[q.ids[k]], q.why)
  }

  predicate SameAt(a: Entries, b: Entries, id: string) {
    (id in a <==> id in b) && (id in a ==> a[id] == b[id])
  }

  /** Exactly which promotion requests commit. */
  lemma PromotionCommitsIff(env: Env, s: StoreState, q: Request)
    requires Sound(s)
    ensures PromotionFault(env, s, q).None? <==>
            && (env.guard.Some? && q.role.Some? ==> env.guard.value(q.role.value, env.tier))
            && q.pre == env.hash(s.live)
            && Distinct(q.ids)
            && |q.ids| <= q.archiveOk
            && forall id :: id in q.ids ==>
                 id in s.candidate && id !in s.live && s.candidate[id].trust !in {Promoted, Deprecated}
  {
  }

  /** Verification is all-or-nothing too: it never lowers a trust, never touches live, and fails
      exactly when some id is missing or DEPRECATED. */
  lemma VerificationIsAllOrNothing(s: StoreState, ids: seq<string>)
    ensures var s' := AfterMarkVerified(s, ids);
            && s'.live == s.live && s'.archive == s.archive
            && (VerifyBatchFault(s, ids).None? <==>
                forall id :: id in ids ==> id in s.candidate && s.candidate[id].trust != Deprecated)
            && (VerifyBatchFault(s, ids).Some? ==> s' == s)
            && (VerifyBatchFault(s, ids).None? ==>
                  s'.candidate.Keys == s.candidate.Keys
                  && forall id :: id in s.candidate ==>
                    s'.candidate[id].(trust := Raw) == s.candidate[id].(trust := Raw)
                    && Rank(s'.candidate[id].trust) ==
                       (if id in ids && Rank(s.candidate[id].trust) < Rank(Verified) then Rank(Verified)
                        else Rank(s.candidate[id].trust)))
  {
    hide VerifyBatchFault;
    VerifiableIff(s, ids);
    if VerifyBatchFault(s, ids).None? {
      RaisedEntries(s.candidate, ids);
    }
  }

  lemma VerifiableIff(s: StoreState, ids: seq<string>)
    ensures VerifyBatchFault(s, ids).None? <==>
            forall id :: id in ids ==> id in s.candidate && s.candidate[id].trust != Deprecated
  {
    forall id | id in ids
      ensures VerifyFault(s, id).None? <==> id in s.candidate && s.candidate[id].trust != Deprecated
    {
    }
  }

  lemma RaisedEntries(candidate: Entries, ids: seq<string>)
    requires forall id :: id in ids ==> id in candidate
    ensures var raised := Raised(candidate, ids);
            raised.Keys == candidate.Keys
            && forall id :: id in candidate ==>
              raised[id].(trust := Raw) == candidate[id].(trust := Raw)
              && Rank(raised[id].trust) ==
                 (if id in ids && Rank(candidate[id].trust) < Rank(Verified) then Rank(Verified) else Rank(candidate[id].trust))
  {
  }

  // ---- which fault a rejected batch reports ---------------------------------------------------

  predicate Promotable(s: StoreState, id: string) {
    && id in s.candidate && s.candidate[id].trust !in {Promoted, Deprecated}
    && (id in s.live ==> s.live[id].trust !in {Promoted, Deprecated})
  }

  /** The first id of the batch that may not be promoted stands here. */
  predicate FirstUnpromotable(s: StoreState, ids: seq<string>, k: int) {
    0 <= k < |ids| && !Promotable(s, ids[k]) && forall j :: 0 <= j < k ==> Promotable(s, ids[j])
  }

  lemma IdFaultIs(s: StoreState, id: string)
    ensures IdFault(s, id).None? <==> Promotable(s, id)
    ensures IdFault(s, id).Some? ==> IdFault(s, id).value == if id in s.candidate then BadTransition(id) else MissingCandidate(id)
  {
  }

  lemma {:induction false} BatchFaultIs(s: StoreState, ids: seq<string>)
    ensures (forall id :: id in ids ==> Promotable(s, id)) ==> BatchFault(s, ids).None?
    ensures forall k :: FirstUnpromotable(s, ids, k) ==>
              BatchFault(s, ids) == Some(if ids[k] in s.candidate then BadTransition(ids[k]) else MissingCandidate(ids[k]))
    ensures BatchFault(s, ids).Some? ==> exists k :: FirstUnpromotable(s, ids, k)
  {
    hide IdFault;
    forall id ensures IdFault(s, id).None? <==> Promotable(s, id) {
      IdFaultIs(s, id);
    }
    forall k | FirstUnpromotable(s, ids, k)
      ensures BatchFault(s, ids) == Some(if ids[k] in s.candidate then BadTransition(ids[k]) else MissingCandidate(ids[k]))
    {
      IdFaultIs(s, ids[k]);
      BatchFaultFirst(s, ids, k);
    }
    if BatchFault(s, ids).Some? {
      var i :| 0 <= i < |ids| && !Promotable(s, ids[i]);
      FirstExists(s, ids, i);
    }
  }

  lemma {:induction false} FirstExists(s: StoreState, ids: seq<string>, i: nat)
    requires i < |ids| && !Promotable(s, ids[i])
    ensures exists k :: FirstUnpromotable(s, ids, k)
  {
    if j :| 0 <= j < i && !Promotable(s, ids[j]) {
      FirstExists(s, ids, j);
    } else {
      assert FirstUnpromotable(s, ids, i);
    }
  }

  /** A rejected promotion says what was wrong first: the role, the moved live hash, a repeated id, the
      first id that is missing or may not be promoted, or the archive. */
  lemma PromotionFaultIs(env: Env, s: StoreState, q: Request, x: string)
    ensures var fault := PromotionFault(env, s, q);
            var allowed := env.guard.Some? && q.role.Some? ==> env.guard.value(q.role.value, env.tier);
            var current := allowed && q.pre == env.hash(s.live);
            var once := current && forall i, j :: 0 <= i < j < |q.ids| ==> q.ids[i] != q.ids[j];
            && (fault == Some(TierConsumer) <==> !allowed)
            && (fault == Some(Precondition) <==> allowed && q.pre != env.hash(s.live))
            && (fault == Some(DuplicateIds) <==> current && !once)
            && (fault == Some(MissingCandidate(x)) <==>
                once && exists k :: FirstUnpromotable(s, q.ids, k) && q.ids[k] == x && x !in s.candidate)
            && (fault == Some(BadTransition(x)) <==>
                once && exists k :: FirstUnpromotable(s, q.ids, k) && q.ids[k] == x && x in s.candidate)
            && (fault == Some(ArchiveIo) <==>
                once && (forall id :: id in q.ids ==> Promotable(s, id)) && q.archiveOk < |q.ids|)
  {
    hide BatchFault, Promotable, IdFault, FirstUnpromotable;
    BatchFaultSays(s, q.ids, x);
  }

  lemma BatchFaultSays(s: StoreState, ids: seq<string>, x: string)
    ensures var fault := BatchFault(s, ids);
            && (fault.None? <==> forall id :: id in ids ==> Promotable(s, id))
            && (fault.Some? ==> fault.value.MissingCandidate? || fault.value.BadTransition?)
            && (fault == Some(MissingCandidate(x)) <==>
                exists k :: FirstUnpromotable(s, ids, k) && ids[k] == x && x !in s.candidate)
            && (fault == Some(BadTransition(x)) <==>
                exists k :: FirstUnpromotable(s, ids, k) && ids[k] == x && x in s.candidate)
  {
    hide BatchFault, Promotable, IdFault;
    BatchFaultIs(s, ids);
    if BatchFault(s, ids).Some? {
      var k :| FirstUnpromotable(s, ids, k);
      assert ids[k] in ids && !Promotable(s, ids[k]);
    } else if i :| 0 <= i < |ids| && !Promotable(s, ids[i]) {
      FirstExists(s, ids, i);
    }
  }

  /** When an archive write fails, the records written before it stay: one for each candidate up to
      that point, in the order of the batch. */
  lemma FailedArchiveKeepsPrefix(env: Env, s: StoreState, q: Request, k: nat)
    requires PromotionFault(env, s, q) == Some(ArchiveIo)
    ensures var s' := AfterPromote(env, s, q);
            && s'.candidate == s.candidate && s'.live == s.live
            && s.archive <= s'.archive && |s'.archive| == |s.archive| + q.archiveOk
            && (k < q.archiveOk ==> ArchivesBatchAt(s, s', q, k))
  {
    BatchFaultSays(s, q.ids, "");
    var records := Archived(s, q.ids, q.why);
    var archive' := AfterPromote(env, s, q).archive;
    assert archive' == s.archive + records[..q.archiveOk];
    if k < q.archiveOk {
      assert archive'[|s.archive| + k] == records[k];
    }
  }

  predicate FirstUnverifiable(s: StoreState, ids: seq<string>, k: int) {
    0 <= k < |ids| && (ids[k] in s.candidate ==> s.candidate[ids[k]].trust == Deprecated)
    && forall j :: 0 <= j < k ==> ids[j] in s.candidate && s.candidate[ids[j]].trust != Deprecated
  }

  /** A rejected verification reports its first missing or DEPRECATED id. */
  lemma {:induction false} VerifyBatchFaultIs(s: StoreState, ids: seq<string>, k: nat)
    requires FirstUnverifiable(s, ids, k)
    ensures VerifyBatchFault(s, ids) == Some(if ids[k] in s.candidate then BadTransition(ids[k]) else MissingCandidate(ids[k]))
  {
    VerifyFaultFirst(s, ids, k);
  }

  // ---- the single-entry operations -------------------------------------------------------------

  /** A discard touches one candidate; its record, if it is written, is the candidate as it was. */
  lemma DiscardEffect(s: StoreState, id: string, reason: string, archives: bool, x: string)
    ensures var s' := AfterDiscard(s, id, reason, archives);
            && s'.live == s.live
            && (x == id ==> x !in s'.candidate) && (x != id ==> SameAt(s.candidate, s'.candidate, x))
            && s'.archive == s.archive + if id in s.candidate && archives
                                         then [ArchiveRecord(s.candidate[id], "discarded:" + reason)] else []
  {
  }

  /** A deprecation touches one live entry, in its trust and reason only. */
  lemma DeprecateEffect(s: StoreState, id: string, reason: string, x: string)
    ensures var s' := AfterDeprecate(s, id, reason);
            && s'.candidate == s.candidate && s'.archive == s.archive
            && (x != id ==> SameAt(s.live, s'.live, x)) && (id in s'.live <==> id in s.live)
            && (id in s.live ==>
                  && s'.live[id].trust == Deprecated && s'.live[id].deprecatedReason == Some(reason)
                  && s'.live[id].(trust := s.live[id].trust, deprecatedReason := s.live[id].deprecatedReason) == s.live[id])
  {
  }

  // ---- what leaves the candidates, and what stays deprecated ----------------------------------

  lemma {:induction false} WriteKeepsIds(m: Entries, entries: seq<Entry>, writer: Option<string>, id: string)
    requires id in m
    ensures id in AfterWrite(m, entries, writer)
    decreases |entries|
  {
    if entries != [] {
      WriteKeepsIds(m[entries[0].id := Stamp(entries[0], writer)], entries[1..], writer, id);
    }
  }

  /** The operation takes this candidate out of the store and archives no record of it. */
  predicate LosesCandidate(env: Env, s: StoreState, op: Op, id: string) {
    var s' := Step(env, s, op);
    && id in s.candidate && id !in s'.candidate
    && forall k :: |s.archive| <= k < |s'.archive| ==> s'.archive[k].entry != s.candidate[id]
  }

  /** A candidate disappears unrecorded exactly when it is discarded and its archive write fails;
      any other removal archives it. */
  lemma CandidateLostIff(env: Env, s: StoreState, op: Op, id: string)
    requires Settled(s.live)
    ensures LosesCandidate(env, s, op, id) <==> id in s.candidate && op.OpDiscard? && op.id == id && !op.archives
  {
    match op
    case OpWrite(entries, writer) =>
      if id in s.candidate {
        WriteKeepsIds(s.candidate, entries, writer, id);
      }
    case OpVerify(ids) =>
    case OpPromote(q) => PromotionLosesNone(env, s, q, id);
    case OpDiscard(x, reason, archives) =>
      if id in s.candidate && x == id && archives {
        assert AfterDiscard(s, x, reason, archives).archive[|s.archive|].entry == s.candidate[id];
      }
    case OpDeprecate(x, reason) =>
  }

  lemma PromotionLosesNone(env: Env, s: StoreState, q: Request, id: string)
    requires Settled(s.live)
    ensures !LosesCandidate(env, s, OpPromote(q), id)
  {
    hide AfterPromote, PromotionFault;
    var s' := AfterPromote(env, s, q);
    if PromotionFault(env, s, q).None? {
      CommitEffect(env, s, q);
      BatchIsArchived(s, s', q);
      if id in s.candidate && id !in s'.candidate {
        var k :| 0 <= k < |q.ids| && q.ids[k] == id;
        assert ArchivesBatchAt(s, s', q, k);
      }
    } else {
      var more := RejectionEffect(env, s, q);
    }
  }

  /** Still a candidate, or archived since. */
  predicate Accounted(s: StoreState, s': StoreState, id: string) {
    id in s'.candidate || exists k :: |s.archive| <= k < |s'.archive| && s'.archive[k].entry.id == id
  }

  lemma StepOnlyArchives(env: Env, s: StoreState, op: Op)
    ensures s.archive <= Step(env, s, op).archive
  {
    hide AfterWrite, AfterMarkVerified, PromotionFault, AfterPromote;
    if op.OpPromote? {
      PromoteOnlyArchives(env, s, op.q);
    } else if op.OpVerify? {
      VerificationIsAllOrNothing(s, op.ids);
    }
  }

  lemma PromoteOnlyArchives(env: Env, s: StoreState, q: Request)
    ensures s.archive <= AfterPromote(env, s, q).archive
  {
  }

  /** Over a whole run no candidate is lost track of, unless a discard of it failed to archive it. */
  lemma {:induction false} RunAccountsForCandidates(env: Env, s: StoreState, ops: seq<Op>, id: string)
    requires Sound(s) && id in s.candidate
    requires forall k :: 0 <= k < |ops| && ops[k].OpDiscard? && ops[k].id == id ==> ops[k].archives
    ensures Accounted(s, Run(env, s, ops), id) && s.archive <= Run(env, s, ops).archive
    decreases |ops|
  {
    if ops != [] {
      hide Step, AllTraced;
      var init, op := ops[..|ops| - 1], ops[|ops| - 1];
      var mid := Run(env, s, init);
      RunAccountsForCandidates(env, s, init, id);
      RunKeepsSound(env, s, init);
      StepOnlyArchives(env, mid, op);
      CandidateLostIff(env, mid, op, id);
    }
  }

  /** Deprecation is final: whatever runs afterwards, the entry stays live and DEPRECATED, so its
      id can never be promoted again. */
  lemma DeprecationIsFinal(env: Env, s: StoreState, id: string, reason: string, ops: seq<Op>, q: Request)
    requires Sound(s) && id in s.live && id in q.ids
    ensures var s' := Run(env, Step(env, s, OpDeprecate(id, reason)), ops);
            id in s'.live && s'.live[id].trust == Deprecated && SameBody(s.live[id], s'.live[id])
            && PromotionFault(env, s', q).Some?
  {
    var mid := Step(env, s, OpDeprecate(id, reason));
    StepKeepsSound(env, s, OpDeprecate(id, reason));
    RunGrows(env, mid, ops);
    assert mid.live[id].trust == Deprecated;
    var s' := Run(env, mid, ops);
    assert IdFault(s', id).Some?;
  }
}
