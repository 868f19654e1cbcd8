/** The signed why-doc: the per-entry diff of a candidate batch against an atomic live snapshot. */
module Auditor {
  import opened Prelude
  import opened Trust
  import opened Store
  import opened StoreRuns

  datatype Delta =
    | Add(id: string, tier: Tier, candidateHash: string)
    | Mod(id: string, tier: Tier, candidateHash: string, liveHash: string)

  datatype Diff = Diff(deltas: seq<Delta>, tierCounts: map<Tier, nat>)

  /** Raised when a candidate claims another tier than the promotion's target. */
  datatype TierMismatch = TierMismatch(claimed: Tier, target: Tier)

  datatype WhyDoc = WhyDoc(
    diffAgainst: string,
    precondition: string,
    diff: Diff,
    nAdded: nat,
    nModified: nat,
    escalated: bool)

  function NAdded(deltas: seq<Delta>): nat {
    if deltas == [] then 0 else (if deltas[0].Add? then 1 else 0) + NAdded(deltas[1..])
  }

  function NModified(deltas: seq<Delta>): nat {
    if deltas == [] then 0 else (if deltas[0].Mod? then 1 else 0) + NModified(deltas[1..])
  }

  /** What a truthful delta says of an entry: "add" exactly when live has no such id, and for a
      "mod" the hash of the live entry it would replace. */
  predicate Describes(entryHash: Entry -> string, d: Delta, e: Entry, live: Entries) {
    && d.id == e.id && d.tier == e.tier && d.candidateHash == entryHash(e)
    && (d.Add? <==> e.id !in live)
    && (d.Mod? ==> e.id in live && d.liveHash == entryHash(live[e.id]))
  }

  /** One truthful delta per entry, in order. */
  predicate Truthful(entryHash: Entry -> string, deltas: seq<Delta>, entries: seq<Entry>, live: Entries) {
    |deltas| == |entries|
    && forall k :: 0 <= k < |entries| ==> Describes(entryHash, deltas[k], entries[k], live)
  }

  function Ids(entries: seq<Entry>): (ids: seq<string>)
    ensures |ids| == |entries|
    ensures forall k :: 0 <= k < |entries| ==> ids[k] == entries[k].id
  {
    seq(|entries|, k requires 0 <= k < |entries| => entries[k].id)
  }

  method BuildDiff(entryHash: Entry -> string, target: Tier, entries: seq<Entry>, snapshot: Entries)
    returns (r: Result<Diff, TierMismatch>)
    ensures r.Ok? <==> forall k :: 0 <= k < |entries| ==> entries[k].tier == target
    ensures r.Err? ==> exists k :: 0 <= k < |entries| && entries[k].tier != target
                                   && r.error == TierMismatch(entries[k].tier, target)
                                   && forall j :: 0 <= j < k ==> entries[j].tier == target
    ensures r.Ok? ==> Truthful(entryHash, r.value.deltas, entries, snapshot)
    ensures r.Ok? ==> r.value.tierCounts == if entries == [] then map[] else map[target := |entries|]
  {
    var deltas: seq<Delta> := [];
    var counts: map<Tier, nat> := map[];
    for i := 0 to |entries|
      invariant forall j :: 0 <= j < i ==> entries[j].tier == target
      invariant |deltas| == i
      invariant forall j :: 0 <= j < i ==> Describes(entryHash, deltas[j], entries[j], snapshot)
      invariant counts == if i == 0 then map[] else map[target := i]
    {
      var e := entries[i];
      if e.tier != target {
        return Err(TierMismatch(e.tier, target));
      }
      if e.id !in snapshot {
        deltas := deltas + [Add(e.id, e.tier, entryHash(e))];
      } else {
        deltas := deltas + [Mod(e.id, e.tier, entryHash(e), entryHash(snapshot[e.id]))];
      }
      counts := counts[e.tier := (if e.tier in counts then counts[e.tier] else 0) + 1];
    }
    r := Ok(Diff(deltas, counts));
  }

  /** Sign a why-doc: the precondition and the diff come from one atomic snapshot of live. */
  method WriteWhyDoc(store: MemoryStore, entryHash: Entry -> string, target: Tier, entries: seq<Entry>, certPassed: bool)
    returns (r: Result<WhyDoc, TierMismatch>)
    ensures r.Ok? <==> forall k :: 0 <= k < |entries| ==> entries[k].tier == target
    ensures r.Err? ==> exists k :: 0 <= k < |entries| && r.error == TierMismatch(entries[k].tier, target)
    ensures r.Ok? ==>
              var why := r.value;
              && why.precondition == store.env.hash(store.live)
              && why.diffAgainst == why.precondition
              && Truthful(entryHash, why.diff.deltas, entries, store.live)
              && why.nAdded == NAdded(why.diff.deltas) && why.nModified == NModified(why.diff.deltas)
              && why.escalated == !certPassed
  {
    var hash, snapshot := store.LiveSnapshot();
    var diff := BuildDiff(entryHash, target, entries, snapshot);
    if diff.Err? {
      return Err(diff.error);
    }
    r := Ok(WhyDoc(hash, hash, diff.value, NAdded(diff.value.deltas), NModified(diff.value.deltas), !certPassed));
  }

  /** The two counts of a diff add up to its batch, and say exactly which kinds occur. */
  lemma {:induction false} CountsCover(deltas: seq<Delta>)
    ensures NAdded(deltas) + NModified(deltas) == |deltas|
    ensures NModified(deltas) == 0 <==> forall k :: 0 <= k < |deltas| ==> deltas[k].Add?
  {
    if deltas != [] {
      CountsCover(deltas[1..]);
      assert forall k :: 0 < k < |deltas| ==> deltas[k] == deltas[1..][k - 1];
    }
  }

  /** A why-doc whose promotion commits is truthful at commit time: whatever ran between signing
      and promoting, live is still the snapshot that was diffed, and every delta is an "add". */
  lemma CommittedWhyDocIsTruthful(env: Env, entryHash: Entry -> string, signed: StoreState, ops: seq<Op>,
                                  entries: seq<Entry>, deltas: seq<Delta>, q: Request)
    requires Sound(signed) && Injective(env.hash)
    requires Truthful(entryHash, deltas, entries, signed.live)
    requires q.pre == env.hash(signed.live) && q.ids == Ids(entries)
    requires PromotionFault(env, Run(env, signed, ops), q).None?
    ensures Run(env, signed, ops).live == signed.live
    ensures Truthful(entryHash, deltas, entries, Run(env, signed, ops).live)
    ensures NAdded(deltas) == |q.ids| && NModified(deltas) == 0
  {
    NoCommitBetweenEqualHashes(env, signed, ops);
    if exists k :: 0 <= k < |deltas| && deltas[k].Mod? {
      var k :| 0 <= k < |deltas| && deltas[k].Mod?;
      WhyDocWithModNeverCommits(env, entryHash, signed, ops, entries, deltas, q, k);
    }
    CountsCover(deltas);
  }

  /** A why-doc that contains a "mod" can never commit, whatever hash it was signed against. */
  lemma WhyDocWithModNeverCommits(env: Env, entryHash: Entry -> string, signed: StoreState, ops: seq<Op>,
                                  entries: seq<Entry>, deltas: seq<Delta>, q: Request, k: nat)
    requires Sound(signed)
    requires Truthful(entryHash, deltas, entries, signed.live)
    requires q.ids == Ids(entries) && k < |deltas| && deltas[k].Mod?
    ensures PromotionFault(env, Run(env, signed, ops), q).Some?
  {
    var s := Run(env, signed, ops);
    RunGrows(env, signed, ops);
    RunKeepsSound(env, signed, ops);
    assert Describes(entryHash, deltas[k], entries[k], signed.live);
    assert q.ids[k] in s.live;
    if PromotionFault(env, s, q).None? {
      PromotableIsNew(s, q.ids[k]);
      assert false;
    }
  }
}
