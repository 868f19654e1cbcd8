/** What an iteration means for the stores: consequences of the coordinator's exact effects, and
    the loop over iterations. */
module IterationProofs {
  import opened Prelude
  import opened Trust
  import opened Store
  import opened StoreRuns
  import opened Auditor
  import opened Coordinator
  import opened Endings

  // ---- every ending of an iteration is a run of store operations -----------------------------------

  function WriteOps(writes: seq<Writing>, t: Tier): seq<Op> {
    if writes == [] then []
    else
      var w := writes[|writes| - 1];
      var rest := WriteOps(writes[..|writes| - 1], t);
      if w.tier == t then rest + [OpWrite([w.entry], w.writer)] else rest
  }

  lemma {:induction false} WrittenIsARun(env: Env, s: StoreState, writes: seq<Writing>, t: Tier)
    ensures Written(s, writes, t) == Run(env, s, WriteOps(writes, t))
    decreases |writes|
  {
    if writes != [] {
      var w := writes[|writes| - 1];
      WrittenIsARun(env, s, writes[..|writes| - 1], t);
      if w.tier == t {
        WriteAppend(WriteAll(s.candidate, writes[..|writes| - 1], t), [], w.entry, w.writer);
        assert [] + [w.entry] == [w.entry];
      }
    }
  }

  function SweepOps(order: seq<string>, c: Sweep): seq<Op>
    decreases |order|
  {
    if order == [] then []
    else
      var x := order[|order| - 1];
      SweepOps(order[..|order| - 1], c) + [OpWrite(c.siblings(x), None), OpDiscard(x, MISMATCH, c.archives(x))]
  }

  lemma {:induction false} SweepIsARun(env: Env, s: StoreState, order: seq<string>, c: Sweep)
    ensures Swept(s, order, c) == Run(env, s, SweepOps(order, c))
    decreases |order|
  {
    if order != [] {
      hide AfterWrite, AfterDiscard;
      var init, x := order[..|order| - 1], order[|order| - 1];
      SweepIsARun(env, s, init, c);
      TwoMore(env, s, SweepOps(init, c), OpWrite(c.siblings(x), None), OpDiscard(x, MISMATCH, c.archives(x)));
    }
  }

  lemma TwoMore(env: Env, s: StoreState, ops: seq<Op>, a: Op, b: Op)
    ensures Run(env, s, ops + [a, b]) == Step(env, Step(env, Run(env, s, ops), a), b)
  {
    hide Step;
    assert (ops + [a, b])[..|ops| + 1] == ops + [a];
    assert (ops + [a])[..|ops|] == ops;
  }

  lemma CleanedIsARun(env: Env, s: StoreState, s': StoreState, owned: set<string>, c: Sweep)
    requires Cleaned(s, s', owned, c)
    ensures Reaches(env, s, s')
  {
    hide Swept, Run;
    var order :| Walks(order, owned, c) && s' == Swept(s, order, c);
    SweepIsARun(env, s, order, c);
  }

  lemma StepReaches(env: Env, s: StoreState, op: Op)
    ensures Reaches(env, s, Step(env, s, op))
  {
    assert [op][..0] == [];
    assert Step(env, s, op) == Run(env, s, [op]);
  }

  lemma PromotionIsARun(env: Env, signed: StoreState, a: Agents)
    ensures Reaches(env, signed, AfterBatch(env, signed, a))
  {
    hide Reaches, Run, AfterMarkVerified, AfterPromote;
    var v := AtVerify(env, signed, a);
    RunReaches(env, signed, a.afterSigning);
    if VerifyBatchFault(v, Batch(a)).None? {
      var verified := AfterMarkVerified(v, Batch(a));
      var p := AtPromote(env, v, a);
      StepReaches(env, v, OpVerify(Batch(a)));
      RunReaches(env, verified, a.afterVerifying);
      StepReaches(env, p, OpPromote(PromotionRequest(a, env.hash(signed.live))));
      ReachesFurther(env, signed, v, verified);
      ReachesFurther(env, signed, verified, p);
      ReachesFurther(env, signed, p, AfterBatch(env, signed, a));
    }
  }

  /** However an iteration ends, it leaves each tier at a state some run of store operations reaches
      from the one it found. */
  lemma IterationIsARun(env: Env, s: StoreState, s': StoreState, t: Tier, id: string, a: Agents, target: Tier, honest: bool,
                        stopped: bool)
    requires Leaves(env, s, s', t, id, a, target, honest, stopped)
    ensures Reaches(env, s, s')
  {
    hide Reaches, Cleaned, AfterBatch, Written;
    if !GatesPass(a) {
      RunReaches(env, s, []);
      assert Run(env, s, []) == s;
    } else {
      var w := Written(s, a.writes, t);
      WrittenIsARun(env, s, a.writes, t);
      RunReaches(env, s, WriteOps(a.writes, t));
      if Misplaced(a, target, honest) {
        if !stopped {
          CleanedIsARun(env, w, s', OwnedIn(s, t, id, a), a.sweep(t));
          ReachesFurther(env, s, w, s');
        }
      } else if t == target && Signs(a, target, honest) {
        PromotionIsARun(env, w, a);
        ReachesFurther(env, s, w, s');
      }
    }
  }

  /** So every iteration keeps the store invariant and live write-once, in every tier and however it
      ends. */
  lemma IterationKeepsSound(env: Env, s: StoreState, s': StoreState, t: Tier, id: string, a: Agents, target: Tier,
                            honest: bool, stopped: bool)
    requires Sound(s) && Leaves(env, s, s', t, id, a, target, honest, stopped)
    ensures Sound(s') && Grows(s.live, s'.live)
  {
    IterationIsARun(env, s, s', t, id, a, target, honest, stopped);
    ReachesSafely(env, s, s');
  }

  // ---- what an iteration does to live ---------------------------------------------------------------

  /** What siblings do to a tier from the signing to the promotion of an iteration. */
  function SiblingOps(env: Env, w: StoreState, t: Tier, a: Agents, target: Tier, honest: bool): seq<Op> {
    if !GatesPass(a) || t != target || !Signs(a, target, honest) then []
    else if VerifyBatchFault(AtVerify(env, w, a), Batch(a)).Some? then a.afterSigning
    else a.afterSigning + a.afterVerifying
  }

  /** An iteration that does not end promoted changes no live store, and a promoted one none but the
      target's: what live holds is what the siblings' operations alone make of it. */
  lemma UnpromotedLeavesLive(env: Env, s: StoreState, s': StoreState, t: Tier, id: string, a: Agents, target: Tier,
                             honest: bool, stopped: bool, cleans: bool)
    requires Leaves(env, s, s', t, id, a, target, honest, stopped)
    requires t != target || IterationEnd(env, Written(s, a.writes, t), a, target, honest, cleans) != Returned(PromotedBatch)
    ensures var w := Written(s, a.writes, t);
            s'.live == Run(env, w, SiblingOps(env, w, t, a, target, honest)).live && w.live == s.live
  {
    hide AfterMarkVerified, AfterPromote, PromotionFault, VerifyBatchFault, WriteAll, Cleaned;
    GateEndIff(a);
    if GatesPass(a) {
      var w := Written(s, a.writes, t);
      if Misplaced(a, target, honest) {
        if !stopped {
          CleanedKeepsLive(w, s', OwnedIn(s, t, id, a), a.sweep(t));
        }
      } else if t == target && Signs(a, target, honest) {
        UncommittedLeavesLive(env, w, a);
      }
    }
  }

  lemma CleanedKeepsLive(s: StoreState, s': StoreState, owned: set<string>, c: Sweep)
    requires Cleaned(s, s', owned, c)
    ensures s'.live == s.live
  {
    var order :| Walks(order, owned, c) && s' == Swept(s, order, c);
    SweepKeepsLive(s, order, c);
  }

  lemma {:induction false} SweepKeepsLive(s: StoreState, order: seq<string>, c: Sweep)
    ensures Swept(s, order, c).live == s.live
    decreases |order|
  {
    if order != [] {
      SweepKeepsLive(s, order[..|order| - 1], c);
    }
  }

  lemma UncommittedLeavesLive(env: Env, w: StoreState, a: Agents)
    requires !BatchCommits(env, w, a)
    ensures var v := AtVerify(env, w, a);
            AfterBatch(env, w, a).live
            == Run(env, w, if VerifyBatchFault(v, Batch(a)).Some? then a.afterSigning else a.afterSigning + a.afterVerifying).live
  {
    hide Run, AfterMarkVerified, AfterPromote, PromotionFault, VerifyBatchFault;
    var v := AtVerify(env, w, a);
    if VerifyBatchFault(v, Batch(a)).None? {
      RejectionChangesNothing(env, AtPromote(env, v, a), PromotionRequest(a, env.hash(w.live)));
      VerifyDoesNotSteerLive(env, v, Batch(a), a.afterVerifying);
      RunSplit(env, w, a.afterSigning, a.afterVerifying);
    }
  }

  /** All that happens to the target store between signing and promotion. */
  function SigningToPromotion(a: Agents): seq<Op> {
    a.afterSigning + ([OpVerify(Batch(a))] + a.afterVerifying)
  }

  lemma AtPromoteIsARun(env: Env, w: StoreState, a: Agents)
    ensures AtPromote(env, AtVerify(env, w, a), a) == Run(env, w, SigningToPromotion(a))
  {
    var v := AtVerify(env, w, a);
    RunSplit(env, w, a.afterSigning, [OpVerify(Batch(a))] + a.afterVerifying);
    RunSplit(env, v, [OpVerify(Batch(a))], a.afterVerifying);
    assert [OpVerify(Batch(a))][..0] == [];
  }

  lemma WrittenKeepsSound(env: Env, s: StoreState, writes: seq<Writing>, t: Tier)
    requires Sound(s)
    ensures Sound(Written(s, writes, t))
  {
    WrittenIsARun(env, s, writes, t);
    RunKeepsSound(env, s, WriteOps(writes, t));
  }

  /** The precondition does its work: if any promotion by a sibling committed between signing and
      promotion, the iteration does not end promoted. */
  lemma SiblingCommitBlocksPromotion(env: Env, s: StoreState, a: Agents, target: Tier, honest: bool, cleans: bool, i: nat)
    requires Sound(s) && Injective(env.hash)
    requires var w := Written(s, a.writes, target);
             i < |SigningToPromotion(a)| && Commits(env, Run(env, w, SigningToPromotion(a)[..i]), SigningToPromotion(a)[i])
    ensures IterationEnd(env, Written(s, a.writes, target), a, target, honest, cleans) != Returned(PromotedBatch)
  {
    hide Run, Commits, PromotionFault, Sound, Written, VerifyBatchFault;
    var w := Written(s, a.writes, target);
    PromotedIff(env, w, a, target, honest, cleans);
    if BatchCommits(env, w, a) {
      WrittenKeepsSound(env, s, a.writes, target);
      AtPromoteIsARun(env, w, a);
      CommittedHash(env, AtPromote(env, AtVerify(env, w, a), a), PromotionRequest(a, env.hash(w.live)));
      NoCommitBetweenEqualHashes(env, w, SigningToPromotion(a));
      assert false;
    }
  }

  /** Without siblings, exactly which iterations are promoted, in terms of what was there before and
      what was written. */
  lemma UndisturbedPromotedIff(env: Env, s: StoreState, a: Agents, target: Tier, honest: bool, cleans: bool)
    requires Sound(s) && a.afterSigning == [] && a.afterVerifying == []
    ensures var w := WriteAll(s.candidate, a.writes, target);
            IterationEnd(env, Written(s, a.writes, target), a, target, honest, cleans) == Returned(PromotedBatch) <==>
            && GatesPass(a)
            && a.librarian.Candidates? && honest && InTier(a.librarian.entries, target)
            && a.auditor.Replied? && a.evidence.Replied? && !a.whyFires
            && GuardAllows(env, Some(LIBRARIAN))
            && Distinct(Batch(a)) && |Batch(a)| <= a.archiveOk
            && forall x :: x in Batch(a) ==> x in w && x !in s.live && w[x].trust !in {Promoted, Deprecated}
  {
    hide GatesPass, InTier, WriteAll, Sound, IterationEnd, BatchCommits, Distinct;
    PromotedIff(env, Written(s, a.writes, target), a, target, honest, cleans);
    WrittenKeepsSound(env, s, a.writes, target);
    UndisturbedCommitsIff(env, Written(s, a.writes, target), a);
  }

  lemma UndisturbedCommitsIff(env: Env, w: StoreState, a: Agents)
    requires Sound(w) && a.afterSigning == [] && a.afterVerifying == []
    ensures BatchCommits(env, w, a) <==>
            && GuardAllows(env, Some(LIBRARIAN))
            && Distinct(Batch(a)) && |Batch(a)| <= a.archiveOk
            && forall x :: x in Batch(a) ==>
                 x in w.candidate && x !in w.live && w.candidate[x].trust !in {Promoted, Deprecated}
  {
    hide Sound, VerifyBatchFault, PromotionFault, AfterMarkVerified, Distinct, GuardAllows;
    VerificationIsAllOrNothing(w, Batch(a));
    StepKeepsSound(env, w, OpVerify(Batch(a)));
    CommitsIff(env, AfterMarkVerified(w, Batch(a)), PromotionRequest(a, env.hash(w.live)));
  }

  lemma CommitsIff(env: Env, s: StoreState, q: Request)
    requires Sound(s) && q.pre == env.hash(s.live)
    ensures PromotionFault(env, s, q).None? <==>
            && GuardAllows(env, q.role) && Distinct(q.ids) && |q.ids| <= q.archiveOk
            && forall x :: x in q.ids ==> x in s.candidate && x !in s.live && s.candidate[x].trust !in {Promoted, Deprecated}
  {
    hide PromotionFault, Sound, Distinct;
    PromotionCommitsIff(env, s, q);
  }

  lemma CommittedHash(env: Env, s: StoreState, q: Request)
    requires PromotionFault(env, s, q).None?
    ensures q.pre == env.hash(s.live)
  {
  }

  /** When a promoted iteration commits, live is the snapshot that was signed, and so what the
      iteration found. */
  lemma PromotedFindsLiveUnmoved(env: Env, s: StoreState, a: Agents, target: Tier, honest: bool,
                                 cleans: bool) returns (p: StoreState)
    requires Sound(s) && Injective(env.hash)
    requires IterationEnd(env, Written(s, a.writes, target), a, target, honest, cleans) == Returned(PromotedBatch)
    ensures p == Run(env, Written(s, a.writes, target), SigningToPromotion(a))
    ensures Sound(p) && p.live == s.live
    ensures PromotionFault(env, p, PromotionRequest(a, env.hash(s.live))).None?
    ensures AfterBatch(env, Written(s, a.writes, target), a) == AfterPromote(env, p, PromotionRequest(a, env.hash(s.live)))
  {
    hide Run, PromotionFault, Sound, WriteAll, VerifyBatchFault, AfterPromote;
    var w := Written(s, a.writes, target);
    PromotedIff(env, w, a, target, honest, cleans);
    WrittenKeepsSound(env, s, a.writes, target);
    AtPromoteIsARun(env, w, a);
    p := AtPromote(env, AtVerify(env, w, a), a);
    RunKeepsSound(env, w, SigningToPromotion(a));
    CommittedHash(env, p, PromotionRequest(a, env.hash(w.live)));
    NoCommitBetweenEqualHashes(env, w, SigningToPromotion(a));
  }

  /** A promoted iteration changes the target's live store by exactly its batch: each id is new,
      PROMOTED, and holds the candidate of the moment, which is the one that was there at signing
      unless a sibling wrote that id since; no other entry changes. */
  lemma PromotedIterationAddsItsBatch(env: Env, s: StoreState, s': StoreState, id: string, a: Agents, target: Tier,
                                      honest: bool, stopped: bool, cleans: bool, x: string)
    requires Sound(s) && Injective(env.hash) && Leaves(env, s, s', target, id, a, target, honest, stopped)
    requires IterationEnd(env, Written(s, a.writes, target), a, target, honest, cleans) == Returned(PromotedBatch)
    ensures |s'.live| == |s.live| + |Batch(a)|
    ensures if x in Batch(a)
            then x !in s.live && x in s'.live && s'.live[x].trust == Promoted && s'.live[x].promotedAt == Some(a.now)
                 && var w := WriteAll(s.candidate, a.writes, target);
                    Unwritten(SigningToPromotion(a), x) ==> x in w && PromotedFrom(s'.live[x], w[x], a.now)
            else SameAt(s.live, s'.live, x)
  {
    hide Run, PromotionFault, Sound, WriteAll, VerifyBatchFault, AfterPromote, BatchCommits, AfterBatch, SigningToPromotion, Unwritten;
    var w := Written(s, a.writes, target);
    var p := PromotedFindsLiveUnmoved(env, s, a, target, honest, cleans);
    PromotedIff(env, w, a, target, honest, cleans);
    var q := PromotionRequest(a, env.hash(s.live));
    CommitMovesTheBatch(env, p, q, x);
    var _ := CommitConserves(env, p, q);
    if x in Batch(a) && Unwritten(SigningToPromotion(a), x) {
      RunKeepsCandidate(env, w, SigningToPromotion(a), x);
      PromotedFromEither(s'.live[x], p.candidate[x], w.candidate[x], a.now);
    }
  }

  /** The last records of the archive are then the batch's, in its order, under the why-doc's id. */
  lemma PromotedIterationArchivesItsBatch(env: Env, s: StoreState, s': StoreState, id: string, a: Agents, target: Tier,
                                          honest: bool, stopped: bool, cleans: bool, k: nat)
    requires Sound(s) && Injective(env.hash) && Leaves(env, s, s', target, id, a, target, honest, stopped)
    requires IterationEnd(env, Written(s, a.writes, target), a, target, honest, cleans) == Returned(PromotedBatch)
    requires k < |Batch(a)|
    ensures var at := |s'.archive| - |Batch(a)| + k;
            at >= 0 && s'.archive[at].why == a.whyId && s'.archive[at].entry.id == Batch(a)[k]
  {
    hide Run, PromotionFault, Sound, WriteAll, VerifyBatchFault, AfterPromote, BatchCommits, AfterBatch, SigningToPromotion;
    var p := PromotedFindsLiveUnmoved(env, s, a, target, honest, cleans);
    PromotedIff(env, Written(s, a.writes, target), a, target, honest, cleans);
    var q := PromotionRequest(a, env.hash(s.live));
    var _ := CommitConserves(env, p, q);
    SoundIsKeyed(p);
    assert ArchivesBatchAt(p, s', q, k);
  }

  lemma SoundIsKeyed(s: StoreState)
    requires Sound(s)
    ensures forall x :: x in s.candidate ==> s.candidate[x].id == x
  {
  }

  lemma PromotedFromEither(live: Entry, e: Entry, f: Entry, now: int)
    requires e.(trust := Raw) == f.(trust := Raw) && PromotedFrom(live, e, now)
    ensures PromotedFrom(live, f, now)
  {
  }

  /** The why-doc of a promoted iteration is true of live at the moment it commits, and every delta
      in it is an "add". */
  lemma PromotedWhyDocIsTruthful(env: Env, entryHash: Entry -> string, s: StoreState, a: Agents, target: Tier, honest: bool,
                                 cleans: bool,
                                 deltas: seq<Delta>)
    requires Sound(s) && Injective(env.hash) && a.librarian.Candidates?
    requires IterationEnd(env, Written(s, a.writes, target), a, target, honest, cleans) == Returned(PromotedBatch)
    requires Truthful(entryHash, deltas, a.librarian.entries, s.live)
    ensures var p := Run(env, Written(s, a.writes, target), SigningToPromotion(a));
            Truthful(entryHash, deltas, a.librarian.entries, p.live)
    ensures NAdded(deltas) == |Batch(a)| && NModified(deltas) == 0
  {
    hide Run, PromotionFault, Sound, WriteAll, AfterPromote, Truthful, SigningToPromotion, AfterBatch, IterationEnd;
    var w := Written(s, a.writes, target);
    var p := PromotedFindsLiveUnmoved(env, s, a, target, honest, cleans);
    WrittenKeepsSound(env, s, a.writes, target);
    CommittedWhyDocIsTruthful(env, entryHash, w, SigningToPromotion(a), a.librarian.entries, deltas,
                              PromotionRequest(a, env.hash(s.live)));
  }

  /** A failed verification leaves the target as the siblings made it. After a failed promotion, its
      batch stays among the candidates, VERIFIED or above, unless a sibling removed or rewrote it. */
  lemma FailedPromotionLeavesVerified(env: Env, s: StoreState, s': StoreState, id: string, a: Agents, target: Tier,
                                      honest: bool, stopped: bool, cleans: bool, error: StoreError)
    requires Leaves(env, s, s', target, id, a, target, honest, stopped)
    ensures var w := Written(s, a.writes, target);
            var end := IterationEnd(env, w, a, target, honest, cleans);
            var v := AtVerify(env, w, a);
            && (end == Returned(RolledBack(MarkVerifiedFailed(error))) ==> s' == v)
            && (end == Returned(RolledBack(PromoteFailed(error))) ==>
                  var m := AfterMarkVerified(v, Batch(a));
                  && s' == Run(env, m, a.afterVerifying)
                  && forall x :: x in Batch(a) ==>
                       && x in m.candidate
                       && (x in s'.candidate && Unwritten(a.afterVerifying, x) ==> Rank(s'.candidate[x].trust) >= Rank(Verified)))
  {
    hide Run, VerifyBatchFault, PromotionFault, AfterPromote, AfterMarkVerified, Cleaned, WriteAll, Unwritten;
    var w := Written(s, a.writes, target);
    var v := AtVerify(env, w, a);
    var end := IterationEnd(env, w, a, target, honest, cleans);
    if end in {Returned(RolledBack(PromoteFailed(error))), Returned(RolledBack(MarkVerifiedFailed(error)))} {
      PromotionStepFailed(env, w, a, target, honest, cleans, error);
      if VerifyBatchFault(v, Batch(a)).None? {
        RejectionChangesNothing(env, AtPromote(env, v, a), PromotionRequest(a, env.hash(w.live)));
        VerifiedBatch(env, v, a);
      }
    }
  }

  lemma PromotionStepFailed(env: Env, w: StoreState, a: Agents, target: Tier, honest: bool, cleans: bool, error: StoreError)
    requires IterationEnd(env, w, a, target, honest, cleans)
             in {Returned(RolledBack(PromoteFailed(error))), Returned(RolledBack(MarkVerifiedFailed(error)))}
    ensures GatesPass(a) && Signs(a, target, honest)
    ensures IterationEnd(env, w, a, target, honest, cleans) == PromotionEnd(env, AtVerify(env, w, a), a, env.hash(w.live))
  {
    hide PromotionEnd, AtVerify;
    GateEndIff(a);
  }

  lemma VerifiedBatch(env: Env, v: StoreState, a: Agents)
    requires VerifyBatchFault(v, Batch(a)).None?
    ensures var m := AfterMarkVerified(v, Batch(a));
            var p := Run(env, m, a.afterVerifying);
            forall x :: x in Batch(a) ==>
              && x in m.candidate
              && (x in p.candidate && Unwritten(a.afterVerifying, x) ==> Rank(p.candidate[x].trust) >= Rank(Verified))
  {
    hide Run, AfterMarkVerified, Unwritten;
    VerificationIsAllOrNothing(v, Batch(a));
    var m := AfterMarkVerified(v, Batch(a));
    var p := Run(env, m, a.afterVerifying);
    forall x | x in Batch(a)
      ensures x in m.candidate
      ensures x in p.candidate && Unwritten(a.afterVerifying, x) ==> Rank(p.candidate[x].trust) >= Rank(Verified)
    {
      if x in p.candidate && Unwritten(a.afterVerifying, x) {
        RunKeepsCandidate(env, m, a.afterVerifying, x);
      }
    }
  }

  // ---- the cleanup after a tier mismatch ----------------------------------------------------------

  /** The writes of a run that siblings made. */
  function SiblingWrites(writes: seq<Writing>): seq<Writing> {
    if writes == [] then []
    else
      var w := writes[|writes| - 1];
      var rest := SiblingWrites(writes[..|writes| - 1]);
      if w.mine then rest else rest + [w]
  }

  predicate WritesTo(w: Writing, t: Tier, x: string) {
    w.tier == t && w.entry.id == x
  }

  /** The last write to the tier under its id. */
  predicate IsFinal(writes: seq<Writing>, t: Tier, i: int) {
    0 <= i < |writes| && writes[i].tier == t
    && forall j :: i < j < |writes| ==> !WritesTo(writes[j], t, writes[i].entry.id)
  }

  /** This iteration's ids were fresh: not in the tier before, and not written by a sibling. */
  predicate FreshIds(m: Entries, writes: seq<Writing>, t: Tier) {
    forall i :: 0 <= i < |writes| && writes[i].mine && writes[i].tier == t ==>
      && writes[i].entry.id !in m
      && forall j :: 0 <= j < |writes| && WritesTo(writes[j], t, writes[i].entry.id) ==> writes[j].mine
  }

  /** The cleanup's test tells whose write this is: this iteration's is stamped with its id, or
      unstamped, returned and not there before; a sibling's is neither. */
  predicate ToldApart(w: Writing, m: Entries, id: string, returned: set<string>) {
    var writer := if w.writer.Some? then w.writer else w.entry.writer;
    (writer == Some(id) || (writer.None? && w.entry.id in returned && w.entry.id !in m)) <==> w.mine
  }

  /** Nothing that was there before carries this iteration's stamp. */
  predicate NewStamp(m: Entries, id: string) {
    Keyed(m) && forall x :: x in m ==> m[x].writer != Some(id)
  }

  lemma {:induction false} FinalIsHeld(m: Entries, writes: seq<Writing>, t: Tier, i: int)
    requires IsFinal(writes, t, i)
    ensures var w := WriteAll(m, writes, t);
            writes[i].entry.id in w && w[writes[i].entry.id] == Stamp(writes[i].entry, writes[i].writer)
    decreases |writes|
  {
    var last := |writes| - 1;
    if i < last {
      assert IsFinal(writes[..last], t, i);
      assert !WritesTo(writes[last], t, writes[i].entry.id);
      FinalIsHeld(m, writes[..last], t, i);
    }
  }

  /** An id is either written, and then finally so once, or as it was. */
  lemma {:induction false} FinalOrUntouched(m: Entries, writes: seq<Writing>, t: Tier, x: string)
    ensures SameAt(m, WriteAll(m, writes, t), x)
            || exists i :: IsFinal(writes, t, i) && writes[i].entry.id == x
    decreases |writes|
  {
    if writes != [] {
      var last := |writes| - 1;
      if WritesTo(writes[last], t, x) {
        assert IsFinal(writes, t, last);
      } else {
        FinalOrUntouched(m, writes[..last], t, x);
        if i :| IsFinal(writes[..last], t, i) && writes[..last][i].entry.id == x {
          assert IsFinal(writes, t, i) && writes[i].entry.id == x;
        }
      }
    }
  }

  /** An id that only siblings write ends up as if only siblings had written. */
  lemma {:induction false} SiblingsAlone(m: Entries, writes: seq<Writing>, t: Tier, x: string)
    requires forall i :: 0 <= i < |writes| && WritesTo(writes[i], t, x) ==> !writes[i].mine
    ensures SameAt(WriteAll(m, writes, t), WriteAll(m, SiblingWrites(writes), t), x)
    decreases |writes|
  {
    if writes != [] {
      var last := |writes| - 1;
      var rest := SiblingWrites(writes[..last]);
      SiblingsAlone(m, writes[..last], t, x);
      assert (rest + [writes[last]])[..|rest|] == rest;
    }
  }

  /** An id that no sibling writes is untouched by the siblings. */
  lemma {:induction false} UntouchedBySiblings(m: Entries, writes: seq<Writing>, t: Tier, x: string)
    requires forall i :: 0 <= i < |writes| && WritesTo(writes[i], t, x) ==> writes[i].mine
    ensures SameAt(m, WriteAll(m, SiblingWrites(writes), t), x)
    decreases |writes|
  {
    if writes != [] {
      var last := |writes| - 1;
      var rest := SiblingWrites(writes[..last]);
      UntouchedBySiblings(m, writes[..last], t, x);
      assert (rest + [writes[last]])[..|rest|] == rest;
    }
  }

  /** For one finally written id: the cleanup leaves what the siblings alone would have left exactly
      if its test tells whose final write it was. */
  lemma CleanedAtFinal(m: Entries, writes: seq<Writing>, t: Tier, id: string, returned: set<string>, i: int)
    requires FreshIds(m, writes, t) && IsFinal(writes, t, i)
    ensures SameAt(Kept(WriteAll(m, writes, t), id, returned, m.Keys), WriteAll(m, SiblingWrites(writes), t), writes[i].entry.id)
            <==> ToldApart(writes[i], m, id, returned)
  {
    hide WriteAll;
    var x := writes[i].entry.id;
    FinalIsHeld(m, writes, t, i);
    if writes[i].mine {
      UntouchedBySiblings(m, writes, t, x);
    } else {
      assert forall j :: 0 <= j < |writes| && WritesTo(writes[j], t, x) ==> !writes[j].mine;
      SiblingsAlone(m, writes, t, x);
    }
  }

  /** A mismatch undoes exactly this iteration's candidate writes, leaving the candidate side as it
      was plus what the siblings wrote, if and only if the cleanup's test tells every final write's
      author. */
  lemma CleanupUndoesTheIterationIff(m: Entries, writes: seq<Writing>, t: Tier, id: string, returned: set<string>)
    requires NewStamp(m, id) && FreshIds(m, writes, t)
    ensures Kept(WriteAll(m, writes, t), id, returned, m.Keys) == WriteAll(m, SiblingWrites(writes), t)
            <==> forall i :: IsFinal(writes, t, i) ==> ToldApart(writes[i], m, id, returned)
  {
    hide WriteAll, Kept, ToldApart;
    var kept, wanted := Kept(WriteAll(m, writes, t), id, returned, m.Keys), WriteAll(m, SiblingWrites(writes), t);
    if kept == wanted {
      forall i | IsFinal(writes, t, i) ensures ToldApart(writes[i], m, id, returned) {
        CleanedAtFinal(m, writes, t, id, returned, i);
      }
    }
    if forall i :: IsFinal(writes, t, i) ==> ToldApart(writes[i], m, id, returned) {
      forall x ensures SameAt(kept, wanted, x) {
        CleanedAt(m, writes, t, id, returned, x);
      }
      SameEverywhere(kept, wanted);
    }
  }

  lemma SameEverywhere(a: Entries, b: Entries)
    requires forall x :: SameAt(a, b, x)
    ensures a == b
  {
    forall x ensures x in a <==> x in b {
      assert SameAt(a, b, x);
    }
    forall x | x in a ensures a[x] == b[x] {
      assert SameAt(a, b, x);
    }
  }

  lemma CleanedAt(m: Entries, writes: seq<Writing>, t: Tier, id: string, returned: set<string>, x: string)
    requires NewStamp(m, id) && FreshIds(m, writes, t)
    requires forall i :: IsFinal(writes, t, i) ==> ToldApart(writes[i], m, id, returned)
    ensures SameAt(Kept(WriteAll(m, writes, t), id, returned, m.Keys), WriteAll(m, SiblingWrites(writes), t), x)
  {
    hide WriteAll, ToldApart;
    if i :| IsFinal(writes, t, i) && writes[i].entry.id == x {
      CleanedAtFinal(m, writes, t, id, returned, i);
    } else {
      FinalOrUntouched(m, writes, t, x);
      NeverWritten(m, writes, t, x);
    }
  }

  lemma {:induction false} NeverWritten(m: Entries, writes: seq<Writing>, t: Tier, x: string)
    requires forall i :: IsFinal(writes, t, i) ==> writes[i].entry.id != x
    ensures SameAt(m, WriteAll(m, SiblingWrites(writes), t), x)
    decreases |writes|
  {
    forall i | 0 <= i < |writes| ensures !WritesTo(writes[i], t, x) {
      if WritesTo(writes[i], t, x) {
        FinalExists(writes, t, x, i);
      }
    }
    UntouchedBySiblings(m, writes, t, x);
  }

  lemma {:induction false} FinalExists(writes: seq<Writing>, t: Tier, x: string, i: int)
    requires 0 <= i < |writes| && WritesTo(writes[i], t, x)
    ensures exists k :: IsFinal(writes, t, k) && writes[k].entry.id == x
    decreases |writes| - i
  {
    if j :| i < j < |writes| && WritesTo(writes[j], t, x) {
      FinalExists(writes, t, x, j);
    } else {
      assert IsFinal(writes, t, i);
    }
  }

  /** One failing family: an unstamped write of this iteration that it did not return survives,
      however fresh its id. */
  lemma UnreturnedWriteSurvives(m: Entries, t: Tier, e: Entry, id: string, returned: set<string>)
    requires e.writer.None? && e.id !in m && e.id !in returned
    ensures var writes := [Writing(t, e, None, true)];
            && FreshIds(m, writes, t)
            && e.id in Kept(WriteAll(m, writes, t), id, returned, m.Keys)
            && e.id !in WriteAll(m, SiblingWrites(writes), t)
  {
    var writes := [Writing(t, e, None, true)];
    FinalIsHeld(m, writes, t, 0);
    assert SiblingWrites(writes) == [];
  }

  /** The other: a sibling's unstamped write under an id this iteration returned is discarded. */
  lemma SiblingWriteIsDiscarded(m: Entries, t: Tier, e: Entry, id: string, returned: set<string>)
    requires e.writer.None? && e.id !in m && e.id in returned
    ensures var writes := [Writing(t, e, None, false)];
            && FreshIds(m, writes, t)
            && e.id !in Kept(WriteAll(m, writes, t), id, returned, m.Keys)
            && e.id in WriteAll(m, SiblingWrites(writes), t)
  {
    var writes := [Writing(t, e, None, false)];
    FinalIsHeld(m, writes, t, 0);
    assert SiblingWrites(writes) == writes by {
      assert [] + [writes[0]] == writes;
    }
  }

  // ---- what a sweep leaves of one tier ----------------------------------------------------------------

  /** What siblings wrote during a sweep in this order, one after the other. */
  function Interlude(order: seq<string>, c: Sweep): seq<Entry>
    decreases |order|
  {
    if order == [] then []
    else Interlude(order[..|order| - 1], c) + c.siblings(order[|order| - 1])
  }

  predicate Names(entries: seq<Entry>, x: string) {
    exists k :: 0 <= k < |entries| && entries[k].id == x
  }

  lemma {:induction false} WriteJoin(m: Entries, a: seq<Entry>, b: seq<Entry>)
    ensures AfterWrite(m, a + b, None) == AfterWrite(AfterWrite(m, a, None), b, None)
    decreases |a|
  {
    if a == [] {
      assert a + b == b;
    } else {
      assert (a + b)[1..] == a[1..] + b;
      WriteJoin(m[a[0].id := Stamp(a[0], None)], a[1..], b);
    }
  }

  lemma {:induction false} WriteSameAt(m: Entries, n: Entries, entries: seq<Entry>, x: string)
    requires SameAt(m, n, x)
    ensures SameAt(AfterWrite(m, entries, None), AfterWrite(n, entries, None), x)
    decreases |entries|
  {
    if entries != [] {
      var id, e := entries[0].id, Stamp(entries[0], None);
      WriteSameAt(m[id := e], n[id := e], entries[1..], x);
    }
  }

  /** An id that is not discarded ends up as the siblings' writes alone leave it. */
  lemma {:induction false} SweptElsewhere(s: StoreState, order: seq<string>, c: Sweep, x: string)
    requires x !in order
    ensures SameAt(Swept(s, order, c).candidate, AfterWrite(s.candidate, Interlude(order, c), None), x)
    decreases |order|
  {
    if order != [] {
      hide AfterWrite;
      var init, y := order[..|order| - 1], order[|order| - 1];
      SweptElsewhere(s, init, c, x);
      WriteJoin(s.candidate, Interlude(init, c), c.siblings(y));
      WriteSameAt(Swept(s, init, c).candidate, AfterWrite(s.candidate, Interlude(init, c), None), c.siblings(y), x);
    }
  }

  /** A discarded id ends up as what siblings wrote after its discard leaves it; what they wrote under
      it before, after the snapshot was taken, is discarded with it. */
  lemma {:induction false} SweptAt(s: StoreState, order: seq<string>, c: Sweep, k: nat)
    requires Distinct(order) && k < |order|
    ensures SameAt(Swept(s, order, c).candidate, AfterWrite(map[], Interlude(order[k + 1..], c), None), order[k])
    decreases |order|
  {
    hide AfterWrite;
    var init, y := order[..|order| - 1], order[|order| - 1];
    if k == |order| - 1 {
      assert order[k + 1..] == [];
      NothingWritten(map[]);
    } else {
      SweptAt(s, init, c, k);
      assert order[k + 1..][..|order| - k - 2] == init[k + 1..];
      WriteJoin(map[], Interlude(init[k + 1..], c), c.siblings(y));
      WriteSameAt(Swept(s, init, c).candidate, AfterWrite(map[], Interlude(init[k + 1..], c), None), c.siblings(y), order[k]);
    }
  }

  lemma NothingWritten(m: Entries)
    ensures AfterWrite(m, [], None) == m
  {
  }

  lemma {:induction false} WrittenIffNamed(entries: seq<Entry>, x: string)
    ensures x in AfterWrite(map[], entries, None) <==> Names(entries, x)
  {
    if Names(entries, x) {
      var k :| 0 <= k < |entries| && entries[k].id == x;
      NamedIsWritten(map[], entries, k);
    } else {
      WriteUntouched(map[], entries, None, x);
    }
  }

  lemma {:induction false} NamedIsWritten(m: Entries, entries: seq<Entry>, k: nat)
    requires k < |entries|
    ensures entries[k].id in AfterWrite(m, entries, None)
    decreases |entries|
  {
    var m' := m[entries[0].id := Stamp(entries[0], None)];
    if k == 0 {
      WriteKeepsIds(m', entries[1..], None, entries[0].id);
    } else {
      NamedIsWritten(m', entries[1..], k - 1);
    }
  }

  /** Which sibling writes under an owned id survive the cleanup: exactly those that land after its
      discard. */
  lemma RewriteSurvivesIff(s: StoreState, order: seq<string>, c: Sweep, k: nat)
    requires Distinct(order) && k < |order|
    ensures order[k] in Swept(s, order, c).candidate <==> Names(Interlude(order[k + 1..], c), order[k])
  {
    SweptAt(s, order, c, k);
    WrittenIffNamed(Interlude(order[k + 1..], c), order[k]);
  }

  /** So the cleanup is not free of races: a sibling's rewrite of an owned id, stamped by the sibling,
      that lands between the snapshot and the discard is discarded, though it fails the test. */
  lemma RacingRewriteIsDiscarded(s: StoreState, x: string, e: Entry, id: string, returned: set<string>, before: set<string>)
    requires e.id == x && e.writer.Some? && e.writer != Some(id)
    ensures !Ours(e, id, returned, before)
    ensures x !in Swept(s, [x], Sweep(_ => [e], _ => true)).candidate
  {
    RewriteSurvivesIff(s, [x], Sweep(_ => [e], _ => true), 0);
    assert [x][1..] == [];
  }

  predicate Quiet(owned: set<string>, c: Sweep) {
    forall x :: x in owned ==> c.siblings(x) == []
  }

  /** An undisturbed sweep whose archive writes all succeed, in closed form. */
  lemma {:induction false} SweptQuietly(s: StoreState, order: seq<string>, c: Sweep)
    requires Distinct(order) && (forall x :: x in order ==> x in s.candidate && c.siblings(x) == [] && c.archives(x))
    ensures Swept(s, order, c)
            == StoreState(s.candidate - Elements(order), s.live, s.archive + DiscardRecords(s.candidate, order))
    decreases |order|
  {
    if order == [] {
      assert s.candidate - Elements(order) == s.candidate;
      assert s.archive + DiscardRecords(s.candidate, order) == s.archive;
    } else {
      var init, x := order[..|order| - 1], order[|order| - 1];
      SweptQuietly(s, init, c);
      assert x !in init && x in order;
      QuietDiscard(s, init, x);
      assert init + [x] == order;
    }
  }

  lemma QuietDiscard(s: StoreState, init: seq<string>, x: string)
    requires x !in init && x in s.candidate && forall y :: y in init ==> y in s.candidate
    ensures var met := StoreState(s.candidate - Elements(init), s.live, s.archive + DiscardRecords(s.candidate, init));
            x in met.candidate
            && AfterDiscard(met, x, MISMATCH, true)
               == StoreState(s.candidate - Elements(init + [x]), s.live, s.archive + DiscardRecords(s.candidate, init + [x]))
            && met.candidate - {x} == s.candidate - Elements(init + [x])
  {
    assert s.candidate - Elements(init + [x]) == s.candidate - Elements(init) - {x};
    assert DiscardRecords(s.candidate, init + [x])
        == DiscardRecords(s.candidate, init) + [ArchiveRecord(s.candidate[x], "discarded:" + MISMATCH)];
  }

  /** A cleanup of one tier that goes through, undisturbed: exactly the owned candidates are gone, each
      archived once, and live is as it was. */
  lemma CompleteCleanup(s: StoreState, s': StoreState, owned: set<string>, c: Sweep) returns (order: seq<string>)
    requires Cleaned(s, s', owned, c) && !Stops(owned, c) && Quiet(owned, c) && owned <= s.candidate.Keys
    ensures Distinct(order) && Elements(order) == owned
    ensures s' == StoreState(s.candidate - owned, s.live, s.archive + DiscardRecords(s.candidate, order))
    ensures forall k :: 0 <= k < |order| ==>
              s'.archive[|s.archive| + k] == ArchiveRecord(s.candidate[order[k]], "discarded:tier-mismatch")
  {
    hide Swept;
    order :| Walks(order, owned, c) && s' == Swept(s, order, c);
    SweptQuietly(s, order, c);
    RecordsAre(s.archive, s.candidate, order);
  }

  lemma RecordsAre(archive: seq<ArchiveRecord>, m: Entries, order: seq<string>)
    requires forall x :: x in order ==> x in m
    ensures var all := archive + DiscardRecords(m, order);
            forall k :: 0 <= k < |order| ==> all[|archive| + k] == ArchiveRecord(m[order[k]], "discarded:tier-mismatch")
  {
    assert "discarded:" + MISMATCH == "discarded:tier-mismatch";
  }

  /** A cleanup that stops, undisturbed: the candidates discarded before the failing write are gone and
      archived, the one whose write failed is gone without a record, and the others, live included,
      are untouched. */
  lemma BrokenCleanup(s: StoreState, s': StoreState, owned: set<string>, c: Sweep) returns (done: seq<string>, lost: string)
    requires Cleaned(s, s', owned, c) && Stops(owned, c) && Quiet(owned, c) && owned <= s.candidate.Keys
    ensures Distinct(done) && lost !in done && lost in owned && !c.archives(lost)
    ensures forall x :: x in done ==> x in owned && c.archives(x)
    ensures s' == StoreState(s.candidate - Elements(done) - {lost}, s.live, s.archive + DiscardRecords(s.candidate, done))
  {
    hide Swept, Stops;
    var order :| Walks(order, owned, c) && s' == Swept(s, order, c);
    done, lost := order[..|order| - 1], order[|order| - 1];
    assert forall x :: x in done ==> exists k :: 0 <= k < |order| - 1 && order[k] == x;
    SweptQuietly(s, done, c);
    LastSwept(s, order, c);
    NothingWritten(s.candidate - Elements(done));
  }

  lemma LastSwept(s: StoreState, order: seq<string>, c: Sweep)
    requires order != []
    ensures var x, met := order[|order| - 1], Swept(s, order[..|order| - 1], c);
            Swept(s, order, c)
            == AfterDiscard(met.(candidate := AfterWrite(met.candidate, c.siblings(x), None)), x, MISMATCH, c.archives(x))
  {
  }

  /** The tiers are walked from the working memory to the causal one: a tier is left alone exactly when
      the cleanup stopped in one before it. */
  lemma StopsEarlierIff(owned: map<Tier, set<string>>, sweep: Tier -> Sweep, j: nat)
    requires Total(owned) && j < 5
    ensures var tiers := [Working, Episodic, Semantic, Procedural, Causal];
            StopsEarlier(owned, sweep, tiers[j]) <==> exists i :: 0 <= i < j && Stops(owned[tiers[i]], sweep(tiers[i]))
  {
    hide Stops;
    var tiers := [Working, Episodic, Semantic, Procedural, Causal];
    assert forall i :: 0 <= i < 5 ==> Index(tiers[i]) == i;
    if u :| u in owned && Index(u) < j && Stops(owned[u], sweep(u)) {
      assert tiers[Index(u)] == u;
    }
  }

  /** An iteration whose batch is misplaced ends as such exactly when every owned candidate of every
      tier can be archived; otherwise the failed discard's exception escapes. */
  lemma MismatchEnds(env: Env, pre: map<Tier, StoreState>, id: string, a: Agents, target: Tier)
    requires Total(pre) && GatesPass(a) && Misplaced(a, target, HonestAfter(pre, a))
    ensures EndOf(env, pre, id, a, target) in {MISMATCHED, Raised(ArchiveFailed)}
    ensures EndOf(env, pre, id, a, target) == MISMATCHED <==>
            forall t, x :: x in OwnedIn(pre[t], t, id, a) ==> a.sweep(t).archives(x)
  {
    hide OwnedIn, Written, HonestAfter, VerdictOf;
    GateEndIff(a);
    var owned := OwnedOf(pre, id, a);
    if t, x :| x in OwnedIn(pre[t], t, id, a) && !a.sweep(t).archives(x) {
      assert x in owned[t];
      assert Stops(owned[t], a.sweep(t));
    }
  }

  /** When every write carries its author's stamp, as the librarian's own writing path makes sure, and
      siblings leave this iteration's ids alone, a cleanup that goes through undoes the iteration in
      its tier: what is left is the earlier state with the siblings' writes, those made during the
      cleanup last. */
  lemma StampedIterationIsUndone(env: Env, s: StoreState, s': StoreState, t: Tier, id: string, a: Agents, target: Tier,
                                 honest: bool)
      returns (order: seq<string>)
    requires Leaves(env, s, s', t, id, a, target, honest, false)
    requires GatesPass(a) && Misplaced(a, target, honest) && !Stops(OwnedIn(s, t, id, a), a.sweep(t))
    requires NewStamp(s.candidate, id) && FreshIds(s.candidate, a.writes, t)
    requires forall i :: 0 <= i < |a.writes| ==> a.writes[i].writer.Some? && (a.writes[i].writer.value == id <==> a.writes[i].mine)
    requires forall x :: x in OwnedIn(s, t, id, a) ==> forall y :: !Names(a.sweep(t).siblings(y), x)
    ensures Distinct(order) && Elements(order) == OwnedIn(s, t, id, a)
    ensures s'.live == s.live
    ensures s'.candidate == AfterWrite(WriteAll(s.candidate, SiblingWrites(a.writes), t), Interlude(order, a.sweep(t)), None)
  {
    hide WriteAll, Kept, FreshIds, Swept, AfterWrite, Names, IsFinal;
    var w, c, owned := Written(s, a.writes, t), a.sweep(t), OwnedIn(s, t, id, a);
    var kept := Kept(w.candidate, id, Elements(Batch(a)), s.candidate.Keys);
    order :| Walks(order, owned, c) && s' == Swept(w, order, c);
    SweepKeepsLive(w, order, c);
    StampsTellApart(s.candidate, a.writes, t, id, Elements(Batch(a)));
    CleanupUndoesTheIterationIff(s.candidate, a.writes, t, id, Elements(Batch(a)));
    forall x ensures SameAt(s'.candidate, AfterWrite(kept, Interlude(order, c), None), x) {
      SweptBeside(w, order, c, owned, kept, x) by {
        KeptIsRest(w.candidate, id, Elements(Batch(a)), s.candidate.Keys);
      }
    }
    SameEverywhere(s'.candidate, AfterWrite(kept, Interlude(order, c), None));
  }

  lemma StampsTellApart(m: Entries, writes: seq<Writing>, t: Tier, id: string, returned: set<string>)
    requires forall i :: 0 <= i < |writes| ==> writes[i].writer.Some? && (writes[i].writer.value == id <==> writes[i].mine)
    ensures forall i :: IsFinal(writes, t, i) ==> ToldApart(writes[i], m, id, returned)
  {
  }

  lemma KeptIsRest(m: Entries, id: string, returned: set<string>, before: set<string>)
    ensures Kept(m, id, returned, before) == m - Removed(m, id, returned, before)
  {
  }

  lemma {:induction false} NeverNamed(order: seq<string>, c: Sweep, x: string)
    requires forall y :: !Names(c.siblings(y), x)
    ensures !Names(Interlude(order, c), x)
    decreases |order|
  {
    if order != [] {
      NeverNamed(order[..|order| - 1], c, x);
      var a: seq<Entry> := Interlude(order[..|order| - 1], c);
      var b: seq<Entry> := c.siblings(order[|order| - 1]);
      NamesJoin(a, b, x);
    }
  }

  lemma NamesJoin(a: seq<Entry>, b: seq<Entry>, x: string)
    ensures Names(a + b, x) ==> Names(a, x) || Names(b, x)
  {
    if k :| 0 <= k < |a + b| && (a + b)[k].id == x {
      if k < |a| {
        assert a[k].id == x;
      } else {
        assert b[k - |a|].id == x;
      }
    }
  }

  /** One id after a sweep beside which siblings left the owned ids alone. */
  lemma SweptBeside(w: StoreState, order: seq<string>, c: Sweep, owned: set<string>, kept: Entries, x: string)
    requires Distinct(order) && Elements(order) == owned && kept == w.candidate - owned
    requires x in owned ==> forall y :: !Names(c.siblings(y), x)
    ensures SameAt(Swept(w, order, c).candidate, AfterWrite(kept, Interlude(order, c), None), x)
  {
    hide AfterWrite, Swept, Interlude, Names;
    assert x in owned <==> x in order;
    if x in order {
      var k :| 0 <= k < |order| && order[k] == x;
      RewriteSurvivesIff(w, order, c, k);
      NeverNamed(order[k + 1..], c, x);
      NeverNamed(order, c, x);
      UnnamedStays(kept, Interlude(order, c), x);
    } else {
      SweptElsewhere(w, order, c, x);
      WriteSameAt(w.candidate, kept, Interlude(order, c), x);
    }
  }

  lemma UnnamedStays(m: Entries, entries: seq<Entry>, x: string)
    requires !Names(entries, x)
    ensures SameAt(m, AfterWrite(m, entries, None), x)
  {
    WriteUntouched(m, entries, None, x);
  }

  // ---- the loop over iterations ---------------------------------------------------------------------

  /** One turn of the loop: the iteration to run, and whether a shutdown was signalled before it. */
  datatype Turn = Turn(id: string, agents: Agents, halt: bool)

  function Closing(turn: Turn, outcome: Outcome): Event {
    match outcome
    case PromotedBatch => IterPromoted(turn.id, Batch(turn.agents))
    case RolledBack(reason) => IterRolledBack(turn.id, reason)
  }

  /** The terminal events of the turns that returned, in order. */
  function Closings(script: seq<Turn>, done: seq<Outcome>): (r: seq<Event>)
    requires |done| <= |script|
    ensures |r| == |done|
    ensures forall k :: 0 <= k < |done| ==> r[k] == Closing(script[k], done[k])
  {
    seq(|done|, k requires 0 <= k < |done| => Closing(script[k], done[k]))
  }

  /** One turn of the loop that was not halted. */
  method RunTurn(c: Coordinator, turn: Turn, target: Tier) returns (r: Ending)
    requires c.stores.Valid() && !c.halted
    modifies c`log, c`everFired, c.stores.Stores()
    ensures c.stores.Valid() && old(c.log) <= c.log
    ensures Terminals(c.log[|old(c.log)|..]) == if r.Raised? then [] else [Closing(turn, r.outcome)]
    ensures forall t :: Reaches(c.stores.At(t).env, old(c.stores.At(t).State()), c.stores.At(t).State())
  {
    hide Leaves, LeavesAll, Reaches, EndOf, Story, Keyed;
    ghost var pre := c.stores.States();
    var promoted;
    r, promoted := c.RunIteration(turn.id, turn.agents, target);
    StoryTerminates(c.stores.At(target).env, pre, turn.id, turn.agents, target, old(c.everFired));
    assert c.log[|old(c.log)|..] == Story(c.stores.At(target).env, pre, turn.id, turn.agents, target, old(c.everFired));
    forall t ensures Reaches(c.stores.At(t).env, pre[t], c.stores.States()[t]) {
      LeavesEach(c.stores.At(target).env, c.stores.At(t).env, pre, c.stores.States(), t, turn.id, turn.agents, target);
      IterationIsARun(c.stores.At(t).env, pre[t], c.stores.States()[t], t, turn.id, turn.agents, target,
                      HonestAfter(pre, turn.agents), StopsEarlier(OwnedOf(pre, turn.id, turn.agents), turn.agents.sweep, t));
    }
  }

  /** One tier of what an iteration leaves; only the target's surroundings matter. */
  lemma LeavesEach(env: Env, own: Env, pre: map<Tier, StoreState>, post: map<Tier, StoreState>, t: Tier, id: string, a: Agents,
                   target: Tier)
    requires Total(pre) && Total(post) && LeavesAll(env, pre, post, id, a, target)
    requires t == target ==> own == env
    ensures Leaves(own, pre[t], post[t], t, id, a, target, HonestAfter(pre, a), StopsEarlier(OwnedOf(pre, id, a), a.sweep, t))
  {
    hide Cleaned, Written, AfterBatch, StopsEarlier, HonestAfter;
  }

  /** Run iterations until the script ends, a shutdown is signalled or an exception escapes. Every
      iteration that returned has exactly one terminal event, in order, and no other does; and
      every store is at a state that some run of store operations reaches, so that across any
      number of iterations a sound store stays sound and its live map write-once. */
  method RunContinuous(c: Coordinator, script: seq<Turn>, target: Tier) returns (done: seq<Outcome>, escaped: Option<Exception>)
    requires c.stores.Valid()
    modifies c`log, c`everFired, c`halted, c.stores.Stores()
    ensures c.stores.Valid() && old(c.log) <= c.log
    ensures |done| <= |script|
    ensures escaped.None? && |done| < |script| ==> c.halted
    ensures Terminals(c.log[|old(c.log)|..]) == Closings(script, done)
    ensures forall t :: Reaches(c.stores.At(t).env, old(c.stores.At(t).State()), c.stores.At(t).State())
    ensures forall t :: old(Sound(c.stores.At(t).State())) ==>
              Sound(c.stores.At(t).State()) && Grows(old(c.stores.At(t).live), c.stores.At(t).live)
  {
    hide Reaches, Keyed, Terminals, Terminal, Sound, Grows;
    done, escaped := [], None;
    ghost var base := |c.log|;
    NothingYet(c, base);
    StoresAreSafe(c);
    for i := 0 to |script|
      invariant c.stores.Valid() && old(c.log) <= c.log
      invariant |done| == i
      invariant Terminals(c.log[base..]) == Closings(script, done)
      invariant forall t :: Reaches(c.stores.At(t).env, old(c.stores.At(t).State()), c.stores.At(t).State())
      invariant forall t :: old(Sound(c.stores.At(t).State())) ==>
                  Sound(c.stores.At(t).State()) && Grows(old(c.stores.At(t).live), c.stores.At(t).live)
    {
      if script[i].halt {
        c.halted := true;
      }
      if c.halted {
        HaltIsNotTerminal(c.log[base..]);
        assert (c.log + [Progress("halt")])[base..] == c.log[base..] + [Progress("halt")];
        c.log := c.log + [Progress("halt")];
        return;
      }
      label before:
      ghost var from := |c.log|;
      var r := RunTurn(c, script[i], target);
      assert c.log[base..] == old@before(c.log)[base..] + c.log[from..];
      TerminalsJoin(old@before(c.log)[base..], c.log[from..]);
      forall t ensures Reaches(c.stores.At(t).env, old(c.stores.At(t).State()), c.stores.At(t).State()) {
        ReachesFurther(c.stores.At(t).env, old(c.stores.At(t).State()), old@before(c.stores.At(t).State()), c.stores.At(t).State());
      }
      StoresAreSafe(c);
      if r.Raised? {
        return done, Some(r.error);
      }
      done := done + [r.outcome];
    }
  }

  lemma NothingYet(c: Coordinator, base: nat)
    requires base == |c.log|
    ensures Terminals(c.log[base..]) == []
    ensures forall t :: Reaches(c.stores.At(t).env, c.stores.At(t).State(), c.stores.At(t).State())
  {
    forall t ensures Reaches(c.stores.At(t).env, c.stores.At(t).State(), c.stores.At(t).State()) {
      assert c.stores.At(t).State() == Run(c.stores.At(t).env, c.stores.At(t).State(), []);
    }
  }

  twostate lemma StoresAreSafe(c: Coordinator)
    requires forall t :: Reaches(c.stores.At(t).env, old(c.stores.At(t).State()), c.stores.At(t).State())
    ensures forall t :: old(Sound(c.stores.At(t).State())) ==>
              Sound(c.stores.At(t).State()) && Grows(old(c.stores.At(t).live), c.stores.At(t).live)
  {
    hide Reaches, Sound, Grows;
    forall t | old(Sound(c.stores.At(t).State()))
      ensures Sound(c.stores.At(t).State()) && Grows(old(c.stores.At(t).live), c.stores.At(t).live)
    {
      ReachesSafely(c.stores.At(t).env, old(c.stores.At(t).State()), c.stores.At(t).State());
    }
  }

  lemma HaltIsNotTerminal(part: seq<Event>)
    ensures Terminals(part + [Progress("halt")]) == Terminals(part)
  {
    hide Terminals;
    TerminalsAppend(part, Progress("halt"));
  }
}
