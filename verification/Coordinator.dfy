/** One coordinator iteration: a chain of gates, the librarian's candidate writes, the signed
    why-doc, the promotion, and the cleanup after a tier mismatch; and the loop over iterations.
    Sibling iterations on the same stores act in between. */
module Coordinator {
  import opened Prelude
  import opened Trust
  import opened Store
  import opened StoreRuns
  import opened Auditor

  datatype Reason =
    | Tripwire | ResearcherRaised | Constitution | TierViolation | BuilderRaised | CrossCheckpoint
    | GraderDrift | VerifierRejected | LibrarianBlocked | TierMismatched | AuditorRaised
    | MarkVerifiedFailed(error: StoreError) | PromoteFailed(error: StoreError)

  datatype Outcome = PromotedBatch | RolledBack(reason: Reason)

  datatype Event =
    | IterStart(id: string)
    | Progress(kind: string)
    | MismatchCleaned(discarded: map<Tier, set<string>>)
    | IterPromoted(id: string, ids: seq<string>)
    | IterRolledBack(id: string, reason: Reason)

  /** How a run of an iteration ends: it returns an outcome, or an exception leaves it. */
  datatype Ending = Returned(outcome: Outcome) | Raised(error: Exception)

  datatype Exception = Halted | BudgetCap | UncaughtError | ArchiveFailed

  // ---- what the agents do in one iteration --------------------------------------------------

  datatype Reply = Replied | OverBudget | Failed

  datatype Verdict = Certified(passed: bool) | SameCheckpoint | Drifted | VerifierOverBudget | VerifierFailed

  datatype Consolidation = Candidates(entries: seq<Entry>) | Blocked | LibrarianOverBudget | LibrarianFailed

  /** One candidate-side write, by this iteration's librarian or by a sibling iteration. */
  datatype Writing = Writing(tier: Tier, entry: Entry, writer: Option<string>, mine: bool)

  /** What meets the cleanup of one tier: what siblings write just before an id is discarded, and
      whether the archive write of a discarded id succeeds. */
  datatype Sweep = Sweep(siblings: string -> seq<Entry>, archives: string -> bool)

  /** What happens around one iteration: the replies of its agents, where the auditor may fail before
      the diff and, reading its evidence, after it; the candidate writes made while the librarian
      works; what siblings do to the target store after the why-doc is signed and again after the
      batch is verified; and what meets a cleanup in each tier. */
  datatype Agents = Agents(
    frontierFires: bool,
    researcher: Reply,
    planFires: bool,
    constitutionAllows: bool,
    tierWithinCeiling: bool,
    builder: Reply,
    bodyFires: bool,
    verifier: Verdict,
    writes: seq<Writing>,
    librarian: Consolidation,
    auditor: Reply,
    evidence: Reply,
    whyFires: bool,
    afterSigning: seq<Op>,
    afterVerifying: seq<Op>,
    sweep: Tier -> Sweep,
    entryHash: Entry -> string,
    whyId: string,
    now: int,
    archiveOk: nat)

  /** Every gate before the librarian lets the iteration through. */
  predicate GatesPass(a: Agents) {
    && !a.frontierFires && a.researcher.Replied? && !a.planFires
    && a.constitutionAllows && a.tierWithinCeiling
    && a.builder.Replied? && !a.bodyFires
    && a.verifier == Certified(true)
  }

  const TRIPPED := Returned(RolledBack(Tripwire))

  /** How the gates up to the plan's tier end an iteration, if they do. */
  function PlanEnd(a: Agents): Option<Ending> {
    if a.frontierFires then Some(TRIPPED)
    else if a.researcher.OverBudget? then Some(Raised(BudgetCap))
    else if a.researcher.Failed? then Some(Returned(RolledBack(ResearcherRaised)))
    else if a.planFires then Some(TRIPPED)
    else if !a.constitutionAllows then Some(Returned(RolledBack(Constitution)))
    else if !a.tierWithinCeiling then Some(Returned(RolledBack(TierViolation)))
    else None
  }

  /** How the builder's and the verifier's gates end an iteration, if they do. */
  function BuildEnd(a: Agents): Option<Ending> {
    if a.builder.OverBudget? then Some(Raised(BudgetCap))
    else if a.builder.Failed? then Some(Returned(RolledBack(BuilderRaised)))
    else if a.bodyFires then Some(TRIPPED)
    else match a.verifier
      case SameCheckpoint => Some(Returned(RolledBack(CrossCheckpoint)))
      case Drifted => Some(Returned(RolledBack(GraderDrift)))
      case VerifierOverBudget => Some(Raised(BudgetCap))
      case VerifierFailed => Some(Raised(UncaughtError))
      case Certified(passed) => if passed then None else Some(Returned(RolledBack(VerifierRejected)))
  }

  function GateEnd(a: Agents): Option<Ending> {
    if PlanEnd(a).Some? then PlanEnd(a) else BuildEnd(a)
  }

  lemma GateEndIff(a: Agents)
    ensures GateEnd(a).None? <==> GatesPass(a)
  {
  }

  lemma GatesCertify(a: Agents)
    requires GatesPass(a)
    ensures a.verifier == Certified(true)
  {
  }

  function LibrarianEnd(c: Consolidation): (end: Ending)
    requires !c.Candidates?
    ensures end != TRIPPED && end != Returned(PromotedBatch)
  {
    match c
    case Blocked => Returned(RolledBack(LibrarianBlocked))
    case LibrarianOverBudget => Raised(BudgetCap)
    case LibrarianFailed => Raised(UncaughtError)
  }

  // ---- the log -------------------------------------------------------------------------------

  predicate Terminal(e: Event) {
    e.IterPromoted? || e.IterRolledBack?
  }

  function Terminals(log: seq<Event>): seq<Event> {
    if log == [] then []
    else Terminals(log[..|log| - 1]) + if Terminal(log[|log| - 1]) then [log[|log| - 1]] else []
  }

  /** The iteration's part of the log, from its start event, without a terminal event. */
  predicate Open(part: seq<Event>, id: string) {
    part != [] && part[0] == IterStart(id) && Terminals(part) == []
  }

  /** The iteration's part of the log with exactly one terminal event, which matches the outcome. */
  predicate Closed(part: seq<Event>, id: string, outcome: Outcome, ids: seq<string>) {
    && part != [] && part[0] == IterStart(id)
    && Terminals(part) == [match outcome
                           case PromotedBatch => IterPromoted(id, ids)
                           case RolledBack(reason) => IterRolledBack(id, reason)]
  }

  /** However an iteration that started ends, its part of the log says so: a raised exception
      leaves no terminal event, an outcome exactly one. */
  predicate Terminates(part: seq<Event>, id: string, a: Agents, end: Ending) {
    match end
    case Raised(error) => error != Halted && Open(part, id)
    case Returned(outcome) => Closed(part, id, outcome, if outcome.PromotedBatch? then Batch(a) else [])
  }

  lemma TerminalsAppend(part: seq<Event>, e: Event)
    ensures Terminals(part + [e]) == Terminals(part) + if Terminal(e) then [e] else []
  {
  }

  lemma {:induction false} TerminalsJoin(a: seq<Event>, b: seq<Event>)
    ensures Terminals(a + b) == Terminals(a) + Terminals(b)
    decreases |b|
  {
    if b == [] {
      assert a + b == a;
    } else {
      assert (a + b)[..|a + b| - 1] == a + b[..|b| - 1];
      TerminalsJoin(a, b[..|b| - 1]);
    }
  }

  // ---- what is logged, gate by gate ------------------------------------------------------------

  function Fired(id: string): seq<Event> {
    [Progress("tripwire.fired"), IterRolledBack(id, Tripwire)]
  }

  function Told(kind: string, id: string, reason: Reason): seq<Event> {
    [Progress(kind), IterRolledBack(id, reason)]
  }

  function PlanStory(id: string, a: Agents): seq<Event> {
    if a.frontierFires then Fired(id)
    else if a.researcher.OverBudget? then []
    else if a.researcher.Failed? then [IterRolledBack(id, ResearcherRaised)]
    else
      [Progress("plan.proposed")]
      + (if a.planFires then Fired(id)
         else if !a.constitutionAllows then Told("constitution.reject", id, Constitution)
         else if !a.tierWithinCeiling then Told("tier.violation", id, TierViolation)
         else [])
  }

  function BuildStory(id: string, a: Agents): seq<Event> {
    if a.builder.OverBudget? then []
    else if a.builder.Failed? then [IterRolledBack(id, BuilderRaised)]
    else
      [Progress("artifact.produced")]
      + (if a.bodyFires then Fired(id)
         else match a.verifier
           case SameCheckpoint => Told("cross_checkpoint.violation", id, CrossCheckpoint)
           case Drifted => Told("grader.drift", id, GraderDrift)
           case VerifierOverBudget => [Progress("iter.partial")]
           case VerifierFailed => []
           case Certified(passed) =>
             [Progress("verifier.cert")] + (if passed then [] else [IterRolledBack(id, VerifierRejected)]))
  }

  function GateStory(id: string, a: Agents): seq<Event> {
    PlanStory(id, a) + if PlanEnd(a).Some? then [] else BuildStory(id, a)
  }

  function LibrarianStory(id: string, c: Consolidation): seq<Event> {
    match c
    case Candidates(_) => []
    case Blocked => Told("tier.write.blocked", id, LibrarianBlocked)
    case LibrarianOverBudget => [Progress("iter.partial")]
    case LibrarianFailed => []
  }

  function EvidenceStory(id: string, a: Agents): seq<Event> {
    match a.evidence
    case OverBudget => []
    case Failed => Told("auditor.failed", id, AuditorRaised)
    case Replied => [Progress("auditor.signed")] + if a.whyFires then Fired(id) else []
  }

  function AuditStory(id: string, a: Agents, target: Tier, honest: bool): seq<Event> {
    if !honest then []
    else match a.auditor
      case OverBudget => []
      case Failed => Told("auditor.failed", id, AuditorRaised)
      case Replied => if InTier(Returns(a), target) then EvidenceStory(id, a) else []
  }

  /** `flagged`: a tripwire has fired in this process before, or it is shutting down. */
  function PromotionStory(id: string, a: Agents, end: Ending, flagged: bool): seq<Event> {
    match end
    case Raised(_) => []
    case Returned(PromotedBatch) => [IterPromoted(id, Batch(a))] + if flagged then [Progress("post.halt")] else []
    case Returned(RolledBack(reason)) => Told("promote.failed", id, reason)
  }

  /** From the librarian's reply on, without a cleanup. */
  function BatchStory(id: string, a: Agents, target: Tier, honest: bool, end: Ending, flagged: bool): seq<Event> {
    if !a.librarian.Candidates? then LibrarianStory(id, a.librarian)
    else [Progress("librarian.consolidate")] + (AuditStory(id, a, target, honest)
         + if Signs(a, target, honest) then PromotionStory(id, a, end, flagged) else [])
  }

  function CleanupStory(id: string, owned: map<Tier, set<string>>, cleans: bool): seq<Event> {
    if cleans then [MismatchCleaned(owned), IterRolledBack(id, TierMismatched)] else []
  }

  /** All that an iteration logs, given its ending. */
  function StoryOf(id: string, a: Agents, target: Tier, honest: bool, owned: map<Tier, set<string>>, end: Ending,
                   flagged: bool): seq<Event> {
    [IterStart(id)] + (GateStory(id, a)
    + if GateEnd(a).Some? then []
      else BatchStory(id, a, target, honest, end, flagged)
           + if Misplaced(a, target, honest) then CleanupStory(id, owned, end == MISMATCHED) else [])
  }

  // ---- candidate-side writes and the cleanup ---------------------------------------------------

  function WriteAll(m: Entries, writes: seq<Writing>, t: Tier): Entries
    decreases |writes|
  {
    if writes == [] then m
    else
      var w := writes[|writes| - 1];
      var m' := WriteAll(m, writes[..|writes| - 1], t);
      if w.tier == t then m'[w.entry.id := Stamp(w.entry, w.writer)] else m'
  }

  /** The cleanup's test for one stored candidate: stamped by this iteration, or unstamped,
      returned by this iteration and absent from the tier before consolidation. */
  predicate Ours(e: Entry, id: string, returned: set<string>, before: set<string>) {
    e.writer == Some(id) || (e.writer.None? && e.id in returned && e.id !in before)
  }

  function Kept(m: Entries, id: string, returned: set<string>, before: set<string>): Entries {
    map x | x in m && !Ours(m[x], id, returned, before) :: m[x]
  }

  function Removed(m: Entries, id: string, returned: set<string>, before: set<string>): set<string> {
    set x | x in m && Ours(m[x], id, returned, before)
  }

  const MISMATCH := "tier-mismatch"

  function DiscardRecords(m: Entries, order: seq<string>): (r: seq<ArchiveRecord>)
    requires forall x :: x in order ==> x in m
    ensures |r| == |order|
    ensures forall k :: 0 <= k < |order| ==> r[k] == ArchiveRecord(m[order[k]], "discarded:" + MISMATCH)
  {
    seq(|order|, k requires 0 <= k < |order| => ArchiveRecord(m[order[k]], "discarded:" + MISMATCH))
  }

  /** The sweep of these candidates stops before its end. */
  ghost predicate Stops(owned: set<string>, c: Sweep) {
    exists x :: x in owned && !c.archives(x)
  }

  /** An order in which these candidates may be discarded, up to the first whose archive write
      fails, or to the end. */
  ghost predicate Walks(order: seq<string>, owned: set<string>, c: Sweep) {
    && Distinct(order)
    && (forall x :: x in order ==> x in owned)
    && (forall k :: 0 <= k < |order| - 1 ==> c.archives(order[k]))
    && if Stops(owned, c) then order != [] && !c.archives(order[|order| - 1])
       else forall x :: x in owned ==> x in order
  }

  /** The store after a sweep of these candidates in this order, siblings writing in between. */
  function Swept(s: StoreState, order: seq<string>, c: Sweep): StoreState
    decreases |order|
  {
    if order == [] then s
    else
      var x := order[|order| - 1];
      var met := Swept(s, order[..|order| - 1], c);
      AfterDiscard(met.(candidate := AfterWrite(met.candidate, c.siblings(x), None)), x, MISMATCH, c.archives(x))
  }

  /** What the cleanup may leave of one tier in which these candidates are owned. */
  ghost predicate Cleaned(s: StoreState, s': StoreState, owned: set<string>, c: Sweep) {
    exists order :: Walks(order, owned, c) && s' == Swept(s, order, c)
  }

  function Index(t: Tier): nat {
    match t
    case Working => 0
    case Episodic => 1
    case Semantic => 2
    case Procedural => 3
    case Causal => 4
  }

  /** The cleanup stops in a tier it walks before this one. */
  ghost predicate StopsEarlier(owned: map<Tier, set<string>>, sweep: Tier -> Sweep, t: Tier) {
    exists u :: u in owned && Index(u) < Index(t) && Stops(owned[u], sweep(u))
  }

  ghost predicate StopsAnywhere(owned: map<Tier, set<string>>, sweep: Tier -> Sweep) {
    exists u :: u in owned && Stops(owned[u], sweep(u))
  }

  const TIERS: seq<Tier> := [Working, Episodic, Semantic, Procedural, Causal]

  lemma TiersAreAll()
    ensures forall t: Tier :: t in TIERS
  {
    forall t: Tier ensures t in TIERS {
      match t
      case Working => assert TIERS[0] == t;
      case Episodic => assert TIERS[1] == t;
      case Semantic => assert TIERS[2] == t;
      case Procedural => assert TIERS[3] == t;
      case Causal => assert TIERS[4] == t;
    }
  }

  lemma TierIndex(t: Tier)
    ensures Index(t) < |TIERS| && TIERS[Index(t)] == t
  {
  }

  lemma IndexTier(i: nat)
    requires i < |TIERS|
    ensures Index(TIERS[i]) == i
  {
  }

  /** Where the cleanup stands with one tier when it has gone through the first i tiers. */
  ghost predicate Stage(i: int, t: Tier, s: StoreState, s': StoreState, owned: set<string>, c: Sweep) {
    if Index(t) < i then Cleaned(s, s', owned, c) && !Stops(owned, c) else s' == s
  }

  ghost predicate Total<T>(m: map<Tier, T>) {
    forall t: Tier :: t in m
  }

  lemma SameTiers(a: map<Tier, set<string>>, b: map<Tier, set<string>>)
    requires Total(a) && Total(b) && forall t :: t in a ==> a[t] == b[t]
    ensures a == b
  {
    assert a.Keys == b.Keys;
  }

  lemma NoStageYet(pre: map<Tier, StoreState>, owned: map<Tier, set<string>>, sweep: Tier -> Sweep)
    requires Total(pre) && Total(owned)
    ensures forall t :: Stage(0, t, pre[t], pre[t], owned[t], sweep(t))
  {
  }

  lemma StageStart(i: nat, t: Tier, s: StoreState, s': StoreState, owned: set<string>, c: Sweep)
    requires Index(t) == i && Stage(i, t, s, s', owned, c)
    ensures s' == s
  {
  }

  lemma NextStage(i: nat, t: Tier, pre: map<Tier, StoreState>, mid: map<Tier, StoreState>, now: map<Tier, StoreState>,
                  owned: map<Tier, set<string>>, sweep: Tier -> Sweep)
    requires Total(pre) && Total(mid) && Total(now) && Total(owned) && Index(t) == i
    requires forall u :: Stage(i, u, pre[u], mid[u], owned[u], sweep(u))
    requires forall u :: u != t ==> now[u] == mid[u]
    requires Cleaned(pre[t], now[t], owned[t], sweep(t)) && !Stops(owned[t], sweep(t))
    ensures forall u :: Stage(i + 1, u, pre[u], now[u], owned[u], sweep(u))
    ensures forall u :: Index(u) < i + 1 <==> Index(u) < i || u == t
  {
    hide Cleaned, Stops;
    forall u ensures Index(u) == i ==> u == t {
      TierIndex(u);
      TierIndex(t);
    }
  }

  /** What the cleanup leaves of all tiers: those before the one where it stops are swept to the end,
      that one up to the failing discard, and those after it not at all. */
  ghost predicate SweptTiers(pre: map<Tier, StoreState>, now: map<Tier, StoreState>, owned: map<Tier, set<string>>,
                             sweep: Tier -> Sweep)
    requires Total(pre) && Total(now) && Total(owned)
  {
    forall u :: if StopsEarlier(owned, sweep, u) then now[u] == pre[u] else Cleaned(pre[u], now[u], owned[u], sweep(u))
  }

  lemma StoppedAt(i: nat, t: Tier, pre: map<Tier, StoreState>, mid: map<Tier, StoreState>, now: map<Tier, StoreState>,
                  owned: map<Tier, set<string>>, sweep: Tier -> Sweep)
    requires Total(pre) && Total(mid) && Total(now) && Total(owned) && Index(t) == i
    requires forall u :: Stage(i, u, pre[u], mid[u], owned[u], sweep(u))
    requires forall u :: u != t ==> now[u] == mid[u]
    requires Cleaned(pre[t], now[t], owned[t], sweep(t)) && Stops(owned[t], sweep(t))
    ensures StopsAnywhere(owned, sweep) && SweptTiers(pre, now, owned, sweep)
  {
    hide Cleaned, Stops, Index;
    forall u
      ensures StopsEarlier(owned, sweep, u) <==> i < Index(u)
      ensures if i < Index(u) then now[u] == pre[u] else Cleaned(pre[u], now[u], owned[u], sweep(u))
    {
      TierIndex(u);
      TierIndex(t);
      StopsAfter(i, t, u, pre, mid, owned, sweep);
      assert Stage(i, u, pre[u], mid[u], owned[u], sweep(u));
    }
  }

  lemma StopsAfter(i: nat, t: Tier, u: Tier, pre: map<Tier, StoreState>, mid: map<Tier, StoreState>,
                   owned: map<Tier, set<string>>, sweep: Tier -> Sweep)
    requires Total(pre) && Total(mid) && Total(owned) && Index(t) == i
    requires forall v :: Stage(i, v, pre[v], mid[v], owned[v], sweep(v))
    requires Stops(owned[t], sweep(t))
    ensures StopsEarlier(owned, sweep, u) <==> i < Index(u)
  {
    hide Cleaned, Stops, Index;
  }

  lemma NeverStopped(pre: map<Tier, StoreState>, now: map<Tier, StoreState>, owned: map<Tier, set<string>>,
                     sweep: Tier -> Sweep)
    requires Total(pre) && Total(now) && Total(owned)
    requires forall u :: Stage(|TIERS|, u, pre[u], now[u], owned[u], sweep(u))
    ensures !StopsAnywhere(owned, sweep) && SweptTiers(pre, now, owned, sweep)
    ensures forall u :: Index(u) < |TIERS|
  {
    hide Cleaned, Stops;
    forall u ensures Index(u) < |TIERS| {
      TierIndex(u);
    }
  }

  // ---- the five stores -----------------------------------------------------------------------

  class Hierarchy {
    const working: MemoryStore
    const episodic: MemoryStore
    const semantic: MemoryStore
    const procedural: MemoryStore
    const causal: MemoryStore

    constructor (working: MemoryStore, episodic: MemoryStore, semantic: MemoryStore,
                 procedural: MemoryStore, causal: MemoryStore)
      ensures this.working == working && this.episodic == episodic && this.semantic == semantic
      ensures this.procedural == procedural && this.causal == causal
    {
      this.working, this.episodic, this.semantic := working, episodic, semantic;
      this.procedural, this.causal := procedural, causal;
    }

    function At(t: Tier): (m: MemoryStore)
      ensures m in Stores()
    {
      match t
      case Working => working
      case Episodic => episodic
      case Semantic => semantic
      case Procedural => procedural
      case Causal => causal
    }

    ghost function Stores(): set<MemoryStore> {
      {working, episodic, semantic, procedural, causal}
    }

    ghost predicate Valid()
      reads Stores()
    {
      && (forall t, u :: At(t) == At(u) ==> t == u)
      && forall t :: At(t).Valid() && At(t).env.tier == t
    }

    /** The ids present in each tier's candidates. */
    function CandidateIds(): (ids: map<Tier, set<string>>)
      reads Stores()
      ensures forall t: Tier :: t in ids && ids[t] == At(t).candidate.Keys
    {
      TiersAreAll();
      map t | t in TIERS :: At(t).candidate.Keys
    }

    /** Candidate-side writes into any tiers; live and the archives are not touched. */
    method WriteCandidates(writes: seq<Writing>)
      requires Valid()
      modifies Stores()`candidate
      ensures Valid()
      ensures forall t :: At(t).State() == Written(old(At(t).State()), writes, t)
    {
      for i := 0 to |writes|
        invariant Valid()
        invariant forall t :: At(t).candidate == WriteAll(old(At(t).candidate), writes[..i], t)
      {
        var w := writes[i];
        assert writes[..i + 1][..i] == writes[..i];
        At(w.tier).WriteCandidates([w.entry], w.writer);
      }
      assert writes[..|writes|] == writes;
    }

    /** Discard exactly the candidates this iteration owns, tier by tier, and report exactly those. A
        discard that fails to archive stops the cleanup: the tiers before are done, the tiers after
        are untouched. */
    method Cleanup(id: string, returned: set<string>, before: map<Tier, set<string>>, sweep: Tier -> Sweep,
                   ghost owned: map<Tier, set<string>>)
      returns (discarded: map<Tier, set<string>>, raised: bool)
      requires Valid() && forall t: Tier :: t in before
      requires forall t: Tier :: t in owned && owned[t] == Removed(At(t).candidate, id, returned, before[t])
      modifies Stores()`candidate, Stores()`archive
      ensures Valid()
      ensures raised <==> StopsAnywhere(owned, sweep)
      ensures SweptTiers(old(States()), States(), owned, sweep)
      ensures !raised ==> discarded == owned
    {
      hide Keyed, Cleaned, Removed, Stops, StopsEarlier, StopsAnywhere, Index, Stage, SweptTiers;
      ghost var pre := States();
      discarded := map[];
      NoStageYet(pre, owned, sweep);
      for i := 0 to |TIERS|
        invariant Valid()
        invariant forall t :: Stage(i, t, pre[t], At(t).State(), owned[t], sweep(t))
        invariant forall t :: t in discarded <==> Index(t) < i
        invariant forall t :: t in discarded ==> discarded[t] == owned[t]
      {
        IndexTier(i);
        var t := TIERS[i];
        StageStart(i, t, pre[t], At(t).State(), owned[t], sweep(t));
        ghost var mid := States();
        var gone, stopped := CleanupOne(t, id, returned, before[t], sweep(t));
        if stopped {
          StoppedAt(i, t, pre, mid, States(), owned, sweep);
          return discarded, true;
        }
        NextStage(i, t, pre, mid, States(), owned, sweep);
        discarded := discarded[t := gone];
      }
      NeverStopped(pre, States(), owned, sweep);
      SameTiers(discarded, owned);
      raised := false;
    }

    twostate lemma StatesStay()
      requires forall t :: At(t).State() == old(At(t).State())
      ensures States() == old(States())
    {
    }

    /** The states of the five stores. */
    ghost function States(): (states: map<Tier, StoreState>)
      reads Stores()
      ensures forall t: Tier :: t in states && states[t] == At(t).State()
    {
      TiersAreAll();
      map t | t in TIERS :: At(t).State()
    }

    /** Clean up one tier and leave the others alone. */
    method CleanupOne(t: Tier, id: string, returned: set<string>, before: set<string>, c: Sweep)
      returns (gone: set<string>, raised: bool)
      requires Valid()
      modifies Stores()`candidate, Stores()`archive
      ensures Valid()
      ensures var owned := Removed(old(At(t).candidate), id, returned, before);
              && Cleaned(old(At(t).State()), At(t).State(), owned, c)
              && (raised <==> Stops(owned, c))
              && (!raised ==> gone == owned)
      ensures forall u :: u != t ==> At(u).State() == old(At(u).State())
    {
      hide Keyed, Cleaned, Removed, Stops;
      gone, raised := CleanupTier(At(t), id, returned, before, c);
    }
  }

  /** The inner loop of the cleanup: walk a snapshot of one tier's candidates, in any order, and
      discard by id those whose snapshot this iteration owns. */
  method CleanupTier(store: MemoryStore, id: string, returned: set<string>, before: set<string>, c: Sweep)
    returns (gone: set<string>, raised: bool)
    requires store.Valid()
    modifies store`candidate, store`archive
    ensures store.Valid()
    ensures var owned := Removed(old(store.candidate), id, returned, before);
            && Cleaned(old(store.State()), store.State(), owned, c)
            && (raised <==> Stops(owned, c))
            && (!raised ==> gone == owned)
  {
    hide Swept, AfterWrite, AfterDiscard, Keyed, Ours;
    ghost var s := store.State();
    ghost var owned := Removed(store.candidate, id, returned, before);
    var snapshot := store.candidate;
    var todo := snapshot.Keys;
    ghost var order: seq<string> := [];
    gone := {};
    SweptNone(s, c);
    while todo != {}
      invariant store.Valid() && store.State() == Swept(s, order, c)
      invariant todo <= snapshot.Keys && todo <= store.candidate.Keys
      invariant Distinct(order) && gone == Elements(order)
      invariant forall x :: x in gone <==> x in owned && x !in todo
      invariant forall k :: 0 <= k < |order| ==> c.archives(order[k])
      decreases todo
    {
      var x :| x in todo;
      todo := todo - {x};
      if Ours(snapshot[x], id, returned, before) {
        SnapshotKey(snapshot, x);
        raised := DiscardBetween(store, s, order, x, todo, c);
        order := order + [x];
        if raised {
          return;
        }
        gone := gone + {x};
      }
    }
    raised := false;
  }

  lemma SnapshotKey(m: Entries, x: string)
    requires Keyed(m) && x in m
    ensures m[x].id == x
  {
  }

  lemma SweptNone(s: StoreState, c: Sweep)
    ensures Swept(s, [], c) == s
  {
  }

  /** One discard of the cleanup, after whatever siblings write first. */
  method DiscardBetween(store: MemoryStore, ghost s: StoreState, ghost order: seq<string>, x: string,
                        ghost todo: set<string>, c: Sweep)
    returns (raised: bool)
    requires store.Valid() && store.State() == Swept(s, order, c)
    requires x in store.candidate && todo <= store.candidate.Keys && x !in todo
    modifies store`candidate, store`archive
    ensures store.Valid() && store.State() == Swept(s, order + [x], c)
    ensures todo <= store.candidate.Keys
    ensures raised <==> !c.archives(x)
  {
    hide AfterWrite;
    forall y | y in store.candidate ensures y in AfterWrite(store.candidate, c.siblings(x), None) {
      WriteKeepsIds(store.candidate, c.siblings(x), None, y);
    }
    assert (order + [x])[..|order|] == order;
    store.WriteCandidates(c.siblings(x), None);
    raised := store.DiscardCandidate(x, MISMATCH, c.archives(x));
  }

  // ---- the iteration ------------------------------------------------------------------------------

  const LIBRARIAN := "librarian"

  function Batch(a: Agents): seq<string> {
    if a.librarian.Candidates? then Ids(a.librarian.entries) else []
  }

  /** The request to promote the batch against the precondition that was signed. */
  function PromotionRequest(a: Agents, pre: string): Request {
    Request(Batch(a), pre, a.whyId, Some(LIBRARIAN), a.now, a.archiveOk)
  }

  /** The target store when the batch is verified, from its state when the why-doc was signed. */
  function AtVerify(env: Env, signed: StoreState, a: Agents): StoreState {
    Run(env, signed, a.afterSigning)
  }

  /** The target store when the batch is promoted, from its state when it was verified. */
  function AtPromote(env: Env, s: StoreState, a: Agents): StoreState {
    Run(env, AfterMarkVerified(s, Batch(a)), a.afterVerifying)
  }

  /** The two store operations of the promotion step both succeed, siblings notwithstanding. */
  predicate BatchCommits(env: Env, signed: StoreState, a: Agents) {
    var s := AtVerify(env, signed, a);
    VerifyBatchFault(s, Batch(a)).None?
    && PromotionFault(env, AtPromote(env, s, a), PromotionRequest(a, env.hash(signed.live))).None?
  }

  /** What the promotion step leaves of the target store, however it ends. */
  function AfterPromotion(env: Env, s: StoreState, a: Agents, pre: string): StoreState {
    if VerifyBatchFault(s, Batch(a)).Some? then s
    else AfterPromote(env, AtPromote(env, s, a), PromotionRequest(a, pre))
  }

  /** What is left of the target store once a why-doc was signed. */
  function AfterBatch(env: Env, signed: StoreState, a: Agents): StoreState {
    AfterPromotion(env, AtVerify(env, signed, a), a, env.hash(signed.live))
  }

  /** The returned entries are the live entries of the batch, in its order. */
  predicate HoldsBatch(live: Entries, ids: seq<string>, promoted: seq<Entry>) {
    |promoted| == |ids|
    && forall k :: 0 <= k < |ids| ==> ids[k] in live && promoted[k] == live[ids[k]]
  }

  /** The promotion step's two store calls, with the exceptions its handlers catch, against the
      precondition that was signed, whatever live is by now. */
  method VerifyThenPromote(store: MemoryStore, a: Agents, pre: string) returns (end: Ending, promoted: seq<Entry>)
    requires store.Valid()
    modifies store
    ensures store.Valid()
    ensures end == PromotionEnd(store.env, old(store.State()), a, pre)
    ensures store.State() == AfterPromotion(store.env, old(store.State()), a, pre)
    ensures end == Returned(PromotedBatch) ==> HoldsBatch(store.live, Batch(a), promoted)
  {
    hide AfterPromote, AfterMarkVerified, PromotionFault, VerifyBatchFault, Keyed, Run;
    ghost var s := store.State();
    promoted := [];
    var verified := store.MarkVerified(Batch(a));
    if verified.Err? {
      VerifyFaultKeeps(s, Batch(a));
      return Returned(RolledBack(MarkVerifiedFailed(verified.error))), promoted;
    }
    PerformAll(store, a.afterVerifying);
    assert store.State() == AtPromote(store.env, s, a);
    var result := store.Promote(PromotionRequest(a, pre));
    if result.Ok? {
      return Returned(PromotedBatch), result.value;
    }
    end := if result.error == ArchiveIo then Raised(ArchiveFailed)
           else Returned(RolledBack(PromoteFailed(result.error)));
  }

  lemma VerifyFaultKeeps(s: StoreState, ids: seq<string>)
    requires VerifyBatchFault(s, ids).Some?
    ensures AfterMarkVerified(s, ids) == s
  {
  }

  const MISMATCHED := Returned(RolledBack(TierMismatched))

  datatype AuditVerdict = Signed | Mismatch | Stopped(end: Ending)

  function Written(s: StoreState, writes: seq<Writing>, t: Tier): StoreState {
    s.(candidate := WriteAll(s.candidate, writes, t))
  }

  function Returns(a: Agents): seq<Entry> {
    if a.librarian.Candidates? then a.librarian.entries else []
  }

  predicate InTier(entries: seq<Entry>, target: Tier) {
    forall k :: 0 <= k < |entries| ==> entries[k].tier == target
  }

  function VerdictAfterDiff(a: Agents): AuditVerdict {
    match a.evidence
    case OverBudget => Stopped(Raised(BudgetCap))
    case Failed => Stopped(Returned(RolledBack(AuditorRaised)))
    case Replied => if a.whyFires then Stopped(TRIPPED) else Signed
  }

  /** The audit's verdict: lies are found first, then the auditor may fail, then the diff compares
      tiers, then the auditor may fail over its evidence, then the why-doc is scanned. */
  function VerdictOf(a: Agents, target: Tier, honest: bool): (v: AuditVerdict)
    ensures v.Stopped? ==> v.end != Returned(PromotedBatch)
  {
    if !honest then Mismatch
    else match a.auditor
      case OverBudget => Stopped(Raised(BudgetCap))
      case Failed => Stopped(Returned(RolledBack(AuditorRaised)))
      case Replied =>
        if !InTier(Returns(a), target) then Mismatch
        else VerdictAfterDiff(a)
  }

  /** How the promotion step ends. */
  function PromotionEnd(env: Env, s: StoreState, a: Agents, pre: string): (end: Ending)
    ensures end != MISMATCHED && end != Raised(Halted) && end != TRIPPED
  {
    var unverified := VerifyBatchFault(s, Batch(a));
    var unpromoted := PromotionFault(env, AtPromote(env, s, a), PromotionRequest(a, pre));
    if unverified.Some? then Returned(RolledBack(MarkVerifiedFailed(unverified.value)))
    else if unpromoted.None? then Returned(PromotedBatch)
    else if unpromoted == Some(ArchiveIo) then Raised(ArchiveFailed)
    else Returned(RolledBack(PromoteFailed(unpromoted.value)))
  }

  /** How an iteration ends from the librarian's reply on; None for a tier mismatch. */
  function BatchEnd(env: Env, s: StoreState, a: Agents, target: Tier, honest: bool): Option<Ending> {
    if !a.librarian.Candidates? then Some(LibrarianEnd(a.librarian))
    else match VerdictOf(a, target, honest)
      case Mismatch => None
      case Stopped(end) => Some(end)
      case Signed => Some(PromotionEnd(env, AtVerify(env, s, a), a, env.hash(s.live)))
  }

  /** The librarian's batch is not where it should be. */
  predicate Misplaced(a: Agents, target: Tier, honest: bool) {
    a.librarian.Candidates? && VerdictOf(a, target, honest).Mismatch?
  }

  /** The why-doc is signed and passes its scan. */
  predicate Signs(a: Agents, target: Tier, honest: bool) {
    a.librarian.Candidates? && VerdictOf(a, target, honest).Signed?
  }

  /** The candidates of one tier that this iteration owns after the writes. */
  function OwnedIn(s: StoreState, t: Tier, id: string, a: Agents): set<string> {
    Removed(WriteAll(s.candidate, a.writes, t), id, Elements(Batch(a)), s.candidate.Keys)
  }

  /** What an iteration that starts leaves of one tier, from the state it found there, however it
      ends. The gates touch no store. From then on the candidate writes are made; after a mismatch
      they are cleaned up, unless the cleanup stopped in an earlier tier; a signed why-doc is
      followed by the promotion step on the target. */
  ghost predicate Leaves(env: Env, s: StoreState, s': StoreState, t: Tier, id: string, a: Agents, target: Tier, honest: bool,
                         stopped: bool) {
    if GatesPass(a) then Consolidates(env, s, s', t, id, a, target, honest, stopped) else s' == s
  }

  ghost predicate Consolidates(env: Env, s: StoreState, s': StoreState, t: Tier, id: string, a: Agents, target: Tier,
                               honest: bool, stopped: bool) {
    var w := Written(s, a.writes, t);
    if Misplaced(a, target, honest) then
      if stopped then s' == w else Cleaned(w, s', OwnedIn(s, t, id, a), a.sweep(t))
    else if t == target && Signs(a, target, honest) then s' == AfterBatch(env, w, a)
    else s' == w
  }

  /** How an iteration ends, given the target store after the librarian's writes, whether every
      returned candidate is where it claims to be, and whether a cleanup would go through. */
  function IterationEnd(env: Env, s: StoreState, a: Agents, target: Tier, honest: bool, cleans: bool): Ending {
    if GateEnd(a).Some? then GateEnd(a).value
    else if BatchEnd(env, s, a, target, honest).None? then CleanupEnd(cleans)
    else BatchEnd(env, s, a, target, honest).value
  }

  function CleanupEnd(cleans: bool): Ending {
    if cleans then MISMATCHED else Raised(ArchiveFailed)
  }

  /** From the states of the five stores before the iteration: after the writes, every candidate the
      librarian returned will be in the tier it claims. */
  ghost predicate HonestAfter(pre: map<Tier, StoreState>, a: Agents)
    requires Total(pre)
  {
    forall k :: 0 <= k < |Returns(a)| ==>
      Returns(a)[k].id in WriteAll(pre[Returns(a)[k].tier].candidate, a.writes, Returns(a)[k].tier)
  }

  /** The candidates of every tier that the iteration owns after the writes. */
  ghost function OwnedOf(pre: map<Tier, StoreState>, id: string, a: Agents): (owned: map<Tier, set<string>>)
    requires Total(pre)
    ensures Total(owned) && forall t :: owned[t] == OwnedIn(pre[t], t, id, a)
  {
    map t | t in pre :: OwnedIn(pre[t], t, id, a)
  }

  ghost function EndAfterGates(env: Env, pre: map<Tier, StoreState>, id: string, a: Agents, target: Tier): Ending
    requires Total(pre)
  {
    var end := BatchEnd(env, Written(pre[target], a.writes, target), a, target, HonestAfter(pre, a));
    if end.Some? then end.value else CleanupEnd(!StopsAnywhere(OwnedOf(pre, id, a), a.sweep))
  }

  /** The ending that the states of the stores and what meets the iteration lead to; `env` is the
      target store's. */
  ghost function EndOf(env: Env, pre: map<Tier, StoreState>, id: string, a: Agents, target: Tier): Ending
    requires Total(pre)
  {
    IterationEnd(env, Written(pre[target], a.writes, target), a, target, HonestAfter(pre, a),
                 !StopsAnywhere(OwnedOf(pre, id, a), a.sweep))
  }

  ghost predicate ConsolidatesAll(env: Env, pre: map<Tier, StoreState>, post: map<Tier, StoreState>, id: string, a: Agents,
                                  target: Tier)
    requires Total(pre) && Total(post)
  {
    forall t :: Consolidates(env, pre[t], post[t], t, id, a, target, HonestAfter(pre, a), StopsEarlier(OwnedOf(pre, id, a), a.sweep, t))
  }

  /** What the iteration leaves of the five stores. */
  ghost predicate LeavesAll(env: Env, pre: map<Tier, StoreState>, post: map<Tier, StoreState>, id: string, a: Agents,
                            target: Tier)
    requires Total(pre) && Total(post)
  {
    forall t :: Leaves(env, pre[t], post[t], t, id, a, target, HonestAfter(pre, a), StopsEarlier(OwnedOf(pre, id, a), a.sweep, t))
  }

  lemma NeverHalted(env: Env, pre: map<Tier, StoreState>, id: string, a: Agents, target: Tier)
    requires Total(pre)
    ensures EndOf(env, pre, id, a, target) != Raised(Halted)
  {
    hide PromotionEnd, HonestAfter, Written, StopsAnywhere, OwnedOf;
  }

  lemma MisplacedBatch(a: Agents, target: Tier, honest: bool)
    requires Misplaced(a, target, honest)
    ensures a.librarian.Candidates?
  {
  }

  lemma NoStory(id: string, owned: map<Tier, set<string>>)
    ensures CleanupStory(id, owned, false) == []
  {
  }

  lemma MismatchStory(id: string, a: Agents, target: Tier, honest: bool, end: Ending, other: Ending, flagged: bool)
    requires Misplaced(a, target, honest)
    ensures BatchStory(id, a, target, honest, end, flagged) == BatchStory(id, a, target, honest, other, flagged)
  {
    hide AuditStory, PromotionStory;
  }

  /** The ending and the story after the gates, put together from the batch's and the cleanup's. */
  lemma EndAndStory(env: Env, pre: map<Tier, StoreState>, id: string, a: Agents, target: Tier, stop: Option<Ending>,
                    r: Ending, flagged: bool)
    requires Total(pre)
    requires var honest := HonestAfter(pre, a);
             stop == BatchEnd(env, Written(pre[target], a.writes, target), a, target, honest)
             && (stop.None? <==> Misplaced(a, target, honest))
    requires r == if stop.Some? then stop.value else CleanupEnd(!StopsAnywhere(OwnedOf(pre, id, a), a.sweep))
    ensures r == EndAfterGates(env, pre, id, a, target)
    ensures StoryAfterGates(env, pre, id, a, target, flagged)
            == BatchStory(id, a, target, HonestAfter(pre, a), if stop.Some? then stop.value else MISMATCHED, flagged)
               + if stop.Some? then [] else CleanupStory(id, OwnedOf(pre, id, a), r == MISMATCHED)
    ensures r == TRIPPED <==> stop == Some(TRIPPED)
  {
    hide BatchEnd, BatchStory, CleanupStory, Misplaced, OwnedOf, StopsAnywhere, HonestAfter, Written;
    if stop.None? {
      MismatchStory(id, a, target, HonestAfter(pre, a), MISMATCHED, r, flagged);
    }
  }

  /** What the writes and, if the why-doc is signed, the promotion step leave of the five stores. */
  ghost predicate WritesAndPromotes(env: Env, pre: map<Tier, StoreState>, post: map<Tier, StoreState>, a: Agents, target: Tier)
    requires Total(pre) && Total(post)
  {
    forall t :: post[t] ==
      var w := Written(pre[t], a.writes, t);
      if t == target && Signs(a, target, HonestAfter(pre, a)) then AfterBatch(env, w, a) else w
  }

  lemma WritesThenPromotes(env: Env, pre: map<Tier, StoreState>, mid: map<Tier, StoreState>, post: map<Tier, StoreState>,
                           a: Agents, target: Tier)
    requires Total(pre) && Total(mid) && Total(post)
    requires forall t :: mid[t] == Written(pre[t], a.writes, t)
    requires forall t :: t != target ==> post[t] == mid[t]
    requires post[target] == if Signs(a, target, HonestAfter(pre, a)) then AfterBatch(env, mid[target], a) else mid[target]
    ensures WritesAndPromotes(env, pre, post, a, target)
  {
    hide Written, AfterBatch, Signs, HonestAfter;
  }

  lemma OwnedAfterWrites(env: Env, pre: map<Tier, StoreState>, mid: map<Tier, StoreState>, before: map<Tier, set<string>>,
                         id: string, a: Agents, target: Tier)
    requires Total(pre) && Total(mid) && Total(before) && forall t :: before[t] == pre[t].candidate.Keys
    requires WritesAndPromotes(env, pre, mid, a, target) && Misplaced(a, target, HonestAfter(pre, a))
    ensures forall t :: OwnedOf(pre, id, a)[t] == Removed(mid[t].candidate, id, Elements(Batch(a)), before[t])
  {
    hide AfterBatch, VerdictOf, WriteAll, Removed, Batch, Elements, HonestAfter;
  }

  lemma CleanedUp(env: Env, pre: map<Tier, StoreState>, mid: map<Tier, StoreState>, post: map<Tier, StoreState>,
                  id: string, a: Agents, target: Tier)
    requires Total(pre) && Total(mid) && Total(post)
    requires WritesAndPromotes(env, pre, mid, a, target) && Misplaced(a, target, HonestAfter(pre, a))
    requires SweptTiers(mid, post, OwnedOf(pre, id, a), a.sweep)
    ensures ConsolidatesAll(env, pre, post, id, a, target)
  {
    hide AfterBatch, VerdictOf, WriteAll, Written, OwnedIn, Cleaned, StopsEarlier, HonestAfter;
  }

  lemma NotCleanedUp(env: Env, pre: map<Tier, StoreState>, post: map<Tier, StoreState>, id: string, a: Agents, target: Tier)
    requires Total(pre) && Total(post)
    requires WritesAndPromotes(env, pre, post, a, target) && !Misplaced(a, target, HonestAfter(pre, a))
    ensures ConsolidatesAll(env, pre, post, id, a, target)
  {
    hide AfterBatch, VerdictOf, WriteAll, Written, OwnedIn, StopsEarlier, HonestAfter;
  }

  /** All that the iteration logs. */
  ghost function Story(env: Env, pre: map<Tier, StoreState>, id: string, a: Agents, target: Tier, flagged: bool): seq<Event>
    requires Total(pre)
  {
    StoryOf(id, a, target, HonestAfter(pre, a), OwnedOf(pre, id, a), EndOf(env, pre, id, a, target), flagged)
  }

  ghost function StoryAfterGates(env: Env, pre: map<Tier, StoreState>, id: string, a: Agents, target: Tier,
                                 flagged: bool): seq<Event>
    requires Total(pre)
  {
    var honest, end := HonestAfter(pre, a), EndAfterGates(env, pre, id, a, target);
    BatchStory(id, a, target, honest, end, flagged)
    + if Misplaced(a, target, honest) then CleanupStory(id, OwnedOf(pre, id, a), end == MISMATCHED) else []
  }

  lemma StopsAtGates(env: Env, pre: map<Tier, StoreState>, id: string, a: Agents, target: Tier)
    requires Total(pre) && GateEnd(a).Some?
    ensures EndOf(env, pre, id, a, target) == GateEnd(a).value && LeavesAll(env, pre, pre, id, a, target)
    ensures GateEnd(a).value != Returned(PromotedBatch)
    ensures forall flagged :: Story(env, pre, id, a, target, flagged) == [IterStart(id)] + GateStory(id, a)
  {
    hide GateStory, Consolidates, Written, GatesPass, BatchEnd, StopsEarlier, StopsAnywhere;
    GateEndIff(a);
  }

  lemma PassesGates(env: Env, pre: map<Tier, StoreState>, post: map<Tier, StoreState>, id: string, a: Agents, target: Tier)
    requires Total(pre) && Total(post) && GateEnd(a).None?
    requires ConsolidatesAll(env, pre, post, id, a, target)
    ensures EndOf(env, pre, id, a, target) == EndAfterGates(env, pre, id, a, target)
    ensures LeavesAll(env, pre, post, id, a, target)
    ensures forall flagged :: Story(env, pre, id, a, target, flagged)
                              == [IterStart(id)] + (GateStory(id, a) + StoryAfterGates(env, pre, id, a, target, flagged))
  {
    hide GateStory, BatchStory, CleanupStory, Misplaced, Consolidates, Written, GateEnd, GatesPass, BatchEnd, StopsEarlier, StopsAnywhere;
    GateEndIff(a);
  }

  /** What a promoted iteration passed: every gate, the check for lies, the audit, and both store
      operations. */
  predicate Succeeds(env: Env, s: StoreState, a: Agents, target: Tier, honest: bool) {
    && GatesPass(a)
    && a.librarian.Candidates? && honest && InTier(a.librarian.entries, target)
    && a.auditor.Replied? && a.evidence.Replied? && !a.whyFires
    && BatchCommits(env, s, a)
  }

  /** An iteration ends promoted exactly when it passed all of that. */
  lemma PromotedIff(env: Env, s: StoreState, a: Agents, target: Tier, honest: bool, cleans: bool)
    ensures IterationEnd(env, s, a, target, honest, cleans) == Returned(PromotedBatch) <==> Succeeds(env, s, a, target, honest)
  {
    hide Run, AfterMarkVerified, PromotionFault, VerifyBatchFault, GatesPass;
    GateEndIff(a);
  }

  class Coordinator {
    const stores: Hierarchy
    var log: seq<Event>
    var everFired: bool
    var halted: bool

    constructor (stores: Hierarchy)
      ensures this.stores == stores && log == [] && !everFired && !halted
    {
      this.stores := stores;
      log, everFired, halted := [], false, false;
    }

    method Note(kind: string)
      modifies this`log
      ensures log == old(log) + [Progress(kind)]
    {
      log := log + [Progress(kind)];
    }

    method Rollback(id: string, reason: Reason) returns (r: Ending)
      modifies this`log
      ensures r == Returned(RolledBack(reason))
      ensures log == old(log) + [IterRolledBack(id, reason)]
    {
      log := log + [IterRolledBack(id, reason)];
      r := Returned(RolledBack(reason));
    }

    method ScanFired(id: string) returns (r: Ending)
      modifies this`log, this`everFired
      ensures everFired && r == TRIPPED && log == old(log) + Fired(id)
    {
      everFired := true;
      r := NoteAndRollback("tripwire.fired", Tripwire, id);
    }

    method NoteAndRollback(kind: string, reason: Reason, id: string) returns (r: Ending)
      modifies this`log
      ensures r == Returned(RolledBack(reason)) && log == old(log) + Told(kind, id, reason)
    {
      Note(kind);
      r := Rollback(id, reason);
    }

    /** The gates up to the verifier's certificate. */
    method RunGates(id: string, a: Agents) returns (stop: Option<Ending>)
      modifies this`log, this`everFired
      ensures stop == GateEnd(a)
      ensures log == old(log) + GateStory(id, a)
      ensures everFired == (old(everFired) || stop == Some(TRIPPED))
    {
      hide BuildStory, BuildEnd, Told;
      if a.frontierFires {
        var r := ScanFired(id);
        return Some(r);
      }
      match a.researcher {
        case OverBudget => return Some(Raised(BudgetCap));
        case Failed =>
          var r := Rollback(id, ResearcherRaised);
          return Some(r);
        case Replied =>
      }
      Note("plan.proposed");
      if a.planFires {
        var r := ScanFired(id);
        return Some(r);
      }
      if !a.constitutionAllows {
        var r := NoteAndRollback("constitution.reject", Constitution, id);
        return Some(r);
      }
      if !a.tierWithinCeiling {
        var r := NoteAndRollback("tier.violation", TierViolation, id);
        return Some(r);
      }
      stop := RunBuilderAndVerifier(id, a);
    }

    method RunBuilderAndVerifier(id: string, a: Agents) returns (stop: Option<Ending>)
      modifies this`log, this`everFired
      ensures stop == BuildEnd(a)
      ensures log == old(log) + BuildStory(id, a)
      ensures everFired == (old(everFired) || stop == Some(TRIPPED))
    {
      hide Told;
      match a.builder {
        case OverBudget => return Some(Raised(BudgetCap));
        case Failed =>
          var r := Rollback(id, BuilderRaised);
          return Some(r);
        case Replied =>
      }
      Note("artifact.produced");
      if a.bodyFires {
        var r := ScanFired(id);
        return Some(r);
      }
      match a.verifier {
        case SameCheckpoint =>
          var r := NoteAndRollback("cross_checkpoint.violation", CrossCheckpoint, id);
          return Some(r);
        case Drifted =>
          var r := NoteAndRollback("grader.drift", GraderDrift, id);
          return Some(r);
        case VerifierOverBudget =>
          Note("iter.partial");
          return Some(Raised(BudgetCap));
        case VerifierFailed => return Some(Raised(UncaughtError));
        case Certified(passed) =>
          Note("verifier.cert");
          if !passed {
            var r := Rollback(id, VerifierRejected);
            return Some(r);
          }
      }
      stop := None;
    }

    /** The check that the candidates are where they claim to be, and the signed why-doc. */
    method Audit(id: string, a: Agents, target: Tier) returns (v: AuditVerdict, pre: string)
      requires stores.Valid()
      requires a.verifier == Certified(true) && a.librarian.Candidates?
      modifies this`log, this`everFired
      ensures v == VerdictOf(a, target, Honest(a))
      ensures v.Signed? ==> pre == stores.At(target).env.hash(stores.At(target).live)
      ensures log == old(log) + AuditStory(id, a, target, Honest(a))
      ensures everFired == (old(everFired) || v == Stopped(TRIPPED))
    {
      hide Truthful, NAdded, NModified, Keyed, VerdictAfterDiff, EvidenceStory, Told;
      var entries := a.librarian.entries;
      pre := "";
      var honest := ClaimsHold(entries);
      if !honest {
        return Mismatch, pre;
      }
      match a.auditor {
        case OverBudget =>
          return Stopped(Raised(BudgetCap)), pre;
        case Failed =>
          var r := NoteAndRollback("auditor.failed", AuditorRaised, id);
          return Stopped(r), pre;
        case Replied =>
      }
      var why := WriteWhyDoc(stores.At(target), a.entryHash, target, entries, a.verifier.passed);
      if why.Err? {
        return Mismatch, pre;
      }
      assert !why.value.escalated;
      pre := why.value.precondition;
      v := AuditEvidence(id, a);
    }

    /** The auditor's evidence and the scan of the why-doc, once the diff is made. */
    method AuditEvidence(id: string, a: Agents) returns (v: AuditVerdict)
      modifies this`log, this`everFired
      ensures v == VerdictAfterDiff(a)
      ensures log == old(log) + EvidenceStory(id, a)
      ensures everFired == (old(everFired) || v == Stopped(TRIPPED))
    {
      match a.evidence {
        case OverBudget =>
          return Stopped(Raised(BudgetCap));
        case Failed =>
          var r := NoteAndRollback("auditor.failed", AuditorRaised, id);
          return Stopped(r);
        case Replied =>
      }
      Note("auditor.signed");
      if a.whyFires {
        var r := ScanFired(id);
        return Stopped(r);
      }
      v := Signed;
    }

    /** The librarian's own failures. */
    method LibrarianEnds(id: string, c: Consolidation) returns (r: Ending)
      requires !c.Candidates?
      modifies this`log
      ensures r == LibrarianEnd(c) && log == old(log) + LibrarianStory(id, c)
    {
      match c {
        case Blocked =>
          r := NoteAndRollback("tier.write.blocked", LibrarianBlocked, id);
        case LibrarianOverBudget =>
          Note("iter.partial");
          r := Raised(BudgetCap);
        case LibrarianFailed =>
          r := Raised(UncaughtError);
      }
    }

    /** Every entry is present among the candidates of the tier it claims. */
    ghost predicate Claimed(entries: seq<Entry>)
      reads stores.Stores()
    {
      forall k :: 0 <= k < |entries| ==> entries[k].id in stores.At(entries[k].tier).candidate
    }

    ghost predicate Honest(a: Agents)
      reads stores.Stores()
    {
      Claimed(Returns(a))
    }

    lemma HonestIsHonestAfter(pre: map<Tier, StoreState>, a: Agents)
      requires Total(pre) && forall t :: stores.At(t).candidate == WriteAll(pre[t].candidate, a.writes, t)
      ensures Honest(a) <==> HonestAfter(pre, a)
    {
    }

    twostate lemma HonestStays(a: Agents)
      requires forall t :: stores.At(t).candidate == old(stores.At(t).candidate)
      ensures Honest(a) == old(Honest(a))
    {
    }

    /** Lie detection: every returned candidate is present in the tier it claims. */
    method ClaimsHold(entries: seq<Entry>) returns (honest: bool)
      ensures honest <==> Claimed(entries)
    {
      for i := 0 to |entries|
        invariant forall k :: 0 <= k < i ==> entries[k].id in stores.At(entries[k].tier).candidate
      {
        if entries[i].id !in stores.At(entries[i].tier).candidate {
          return false;
        }
      }
      honest := true;
    }

    method MismatchCleanup(id: string, a: Agents, before: map<Tier, set<string>>, ghost owned: map<Tier, set<string>>)
      returns (r: Ending)
      requires stores.Valid()
      requires a.librarian.Candidates? && Total(before) && Total(owned)
      requires forall t :: owned[t] == Removed(stores.At(t).candidate, id, Elements(Batch(a)), before[t])
      modifies this`log, stores.Stores()`candidate, stores.Stores()`archive
      ensures stores.Valid()
      ensures r == CleanupEnd(!StopsAnywhere(owned, a.sweep))
      ensures SweptTiers(old(stores.States()), stores.States(), owned, a.sweep)
      ensures log == old(log) + CleanupStory(id, owned, r == MISMATCHED)
    {
      hide Keyed, SweptTiers, Removed, StopsAnywhere, CleanupStory, Hierarchy.States;
      var discarded, raised := stores.Cleanup(id, Elements(Ids(a.librarian.entries)), before, a.sweep, owned);
      if raised {
        NoStory(id, owned);
        return Raised(ArchiveFailed);
      }
      label cleaned:
      r := LogMismatch(id, discarded);
      stores.StatesStay@cleaned();
    }

    /** The two events of a cleanup that went through. */
    method LogMismatch(id: string, discarded: map<Tier, set<string>>) returns (r: Ending)
      modifies this`log
      ensures r == MISMATCHED && log == old(log) + CleanupStory(id, discarded, true)
    {
      log := log + [MismatchCleaned(discarded)];
      r := Rollback(id, TierMismatched);
    }

    /** Raise the batch to VERIFIED on the candidate side, then promote it. */
    method PromoteBatch(id: string, a: Agents, target: Tier, pre: string) returns (r: Ending, promoted: seq<Entry>)
      requires stores.Valid()
      modifies this`log, stores.At(target)
      ensures stores.Valid()
      ensures r == PromotionEnd(stores.At(target).env, old(stores.At(target).State()), a, pre)
      ensures stores.At(target).State() == AfterPromotion(stores.At(target).env, old(stores.At(target).State()), a, pre)
      ensures r == Returned(PromotedBatch) ==> HoldsBatch(stores.At(target).live, Batch(a), promoted)
      ensures log == old(log) + PromotionStory(id, a, r, everFired || halted)
    {
      hide PromotionEnd, AfterPromotion, HoldsBatch, Keyed, Batch;
      r, promoted := VerifyThenPromote(stores.At(target), a, pre);
      match r {
        case Raised(_) =>
        case Returned(PromotedBatch) =>
          log := log + [IterPromoted(id, Batch(a))];
          if everFired || halted {
            Note("post.halt");
          }
        case Returned(RolledBack(reason)) =>
          var _ := NoteAndRollback("promote.failed", reason, id);
      }
    }

    /** One iteration. It returns an outcome or lets an exception through. */
    method RunIteration(id: string, a: Agents, target: Tier) returns (r: Ending, promoted: seq<Entry>)
      requires stores.Valid()
      modifies this`log, this`everFired, stores.Stores()
      ensures stores.Valid()
      ensures r == Raised(Halted) <==> halted
      ensures halted ==> log == old(log) && stores.States() == old(stores.States())
      // the ending is the one the first failing gate or check gives
      ensures !halted ==> r == EndOf(stores.At(target).env, old(stores.States()), id, a, target)
      // every event that is logged, in order
      ensures !halted ==> log == old(log) + Story(stores.At(target).env, old(stores.States()), id, a, target, old(everFired))
      // what every ending leaves of every tier: candidates, live and archive
      ensures !halted ==> LeavesAll(stores.At(target).env, old(stores.States()), stores.States(), id, a, target)
      ensures r == Returned(PromotedBatch) ==> HoldsBatch(stores.At(target).live, Batch(a), promoted)
      ensures everFired == (old(everFired) || r == TRIPPED)
    {
      hide HoldsBatch, Keyed, EndOf, LeavesAll, Story, Hierarchy.States;
      if halted {
        return Raised(Halted), [];
      }
      r, promoted := RunStarted(id, a, target, stores.States());
    }

    /** An iteration once the shutdown check has let it through. */
    method RunStarted(id: string, a: Agents, target: Tier, ghost pre: map<Tier, StoreState>)
      returns (r: Ending, promoted: seq<Entry>)
      requires stores.Valid() && !halted
      requires pre == stores.States()
      modifies this`log, this`everFired, stores.Stores()
      ensures stores.Valid() && r != Raised(Halted)
      ensures r == EndOf(stores.At(target).env, pre, id, a, target)
      ensures log == old(log) + Story(stores.At(target).env, pre, id, a, target, old(everFired))
      ensures LeavesAll(stores.At(target).env, pre, stores.States(), id, a, target)
      ensures r == Returned(PromotedBatch) ==> HoldsBatch(stores.At(target).live, Batch(a), promoted)
      ensures everFired == (old(everFired) || r == TRIPPED)
    {
      hide EndOf, EndAfterGates, LeavesAll, ConsolidatesAll, GateEnd, HoldsBatch, Keyed, Story, StoryAfterGates, GateStory, Hierarchy.States;
      log := log + [IterStart(id)];
      var stop := RunGates(id, a);
      assert log == old(log) + ([IterStart(id)] + GateStory(id, a));
      NeverHalted(stores.At(target).env, pre, id, a, target);
      if stop.Some? {
        StopsAtGates(stores.At(target).env, pre, id, a, target);
        return stop.value, [];
      }
      GateEndIff(a);
      GatesCertify(a);
      r, promoted := Consolidate(id, a, target, pre);
      ghost var story := StoryAfterGates(stores.At(target).env, pre, id, a, target, old(everFired));
      Joined(old(log), [IterStart(id)] + GateStory(id, a), story);
      Joined([IterStart(id)], GateStory(id, a), story);
      PassesGates(stores.At(target).env, pre, stores.States(), id, a, target);
    }

    /** From the librarian on: write, audit and promote, or clean up after a tier mismatch. */
    method Consolidate(id: string, a: Agents, target: Tier, ghost pre: map<Tier, StoreState>)
      returns (r: Ending, promoted: seq<Entry>)
      requires stores.Valid() && !halted
      requires pre == stores.States()
      requires a.verifier == Certified(true)
      modifies this`log, this`everFired, stores.Stores()
      ensures stores.Valid()
      ensures r == EndAfterGates(stores.At(target).env, pre, id, a, target)
      ensures log == old(log) + StoryAfterGates(stores.At(target).env, pre, id, a, target, old(everFired))
      ensures ConsolidatesAll(stores.At(target).env, pre, stores.States(), id, a, target)
      ensures r == Returned(PromotedBatch) ==> HoldsBatch(stores.At(target).live, Batch(a), promoted)
      ensures everFired == (old(everFired) || r == TRIPPED)
    {
      hide WritesAndPromotes, ConsolidatesAll, EndAfterGates, StoryAfterGates, BatchEnd, BatchStory, CleanupStory,
           HoldsBatch, Keyed, Misplaced, HonestAfter, StopsAnywhere, OwnedOf, Written, Batch, Hierarchy.States;
      var before := stores.CandidateIds();
      var stop: Option<Ending>;
      stop, promoted := WriteAndPromote(id, a, target, pre);
      if stop.None? {
        ghost var story := BatchStory(id, a, target, HonestAfter(pre, a), MISMATCHED, old(everFired));
        r := CleanUpAfter(id, a, target, before, pre);
        Joined(old(log), story, CleanupStory(id, OwnedOf(pre, id, a), r == MISMATCHED));
      } else {
        r := stop.value;
        Joined(old(log), BatchStory(id, a, target, HonestAfter(pre, a), r, old(everFired)), []);
        NotCleanedUp(stores.At(target).env, pre, stores.States(), id, a, target);
      }
      EndAndStory(stores.At(target).env, pre, id, a, target, stop, r, old(everFired));
    }

    /** The cleanup once the batch turned out to be misplaced. */
    method CleanUpAfter(id: string, a: Agents, target: Tier, before: map<Tier, set<string>>, ghost pre: map<Tier, StoreState>)
      returns (r: Ending)
      requires stores.Valid() && Total(before) && Total(pre) && forall t :: before[t] == pre[t].candidate.Keys
      requires Misplaced(a, target, HonestAfter(pre, a))
      requires WritesAndPromotes(stores.At(target).env, pre, stores.States(), a, target)
      modifies this`log, stores.Stores()`candidate, stores.Stores()`archive
      ensures stores.Valid()
      ensures r == CleanupEnd(!StopsAnywhere(OwnedOf(pre, id, a), a.sweep))
      ensures log == old(log) + CleanupStory(id, OwnedOf(pre, id, a), r == MISMATCHED)
      ensures ConsolidatesAll(stores.At(target).env, pre, stores.States(), id, a, target)
    {
      hide WritesAndPromotes, ConsolidatesAll, CleanupStory, SweptTiers, Elements, Keyed, Misplaced, HonestAfter, StopsAnywhere,
           Removed, OwnedOf, Batch, Hierarchy.States;
      ghost var mid := stores.States();
      MisplacedBatch(a, target, HonestAfter(pre, a));
      OwnedAfterWrites(stores.At(target).env, pre, mid, before, id, a, target);
      r := MismatchCleanup(id, a, before, OwnedOf(pre, id, a));
      CleanedUp(stores.At(target).env, pre, mid, stores.States(), id, a, target);
    }

    /** The librarian's writes with whatever sibling iterations write meanwhile, then the audit and
        the promotion; None when the batch is not where it should be. */
    method WriteAndPromote(id: string, a: Agents, target: Tier, ghost pre: map<Tier, StoreState>)
      returns (r: Option<Ending>, promoted: seq<Entry>)
      requires stores.Valid() && !halted
      requires pre == stores.States()
      requires a.verifier == Certified(true)
      modifies this`log, this`everFired, stores.Stores()
      ensures stores.Valid()
      ensures r == BatchEnd(stores.At(target).env, Written(pre[target], a.writes, target), a, target, HonestAfter(pre, a))
      ensures r.None? <==> Misplaced(a, target, HonestAfter(pre, a))
      ensures log == old(log) + BatchStory(id, a, target, HonestAfter(pre, a), if r.Some? then r.value else MISMATCHED, old(everFired))
      ensures WritesAndPromotes(stores.At(target).env, pre, stores.States(), a, target)
      ensures r == Some(Returned(PromotedBatch)) ==> HoldsBatch(stores.At(target).live, Batch(a), promoted)
      ensures everFired == (old(everFired) || r == Some(TRIPPED))
    {
      hide AfterBatch, BatchEnd, BatchStory, WriteAll, HoldsBatch, Keyed, Honest, HonestAfter, VerdictOf, Signs,
           Misplaced, WritesAndPromotes, Hierarchy.States;
      stores.WriteCandidates(a.writes);
      HonestIsHonestAfter(pre, a);
      ghost var mid := stores.States();
      r, promoted := AuditAndPromote(id, a, target);
      WritesThenPromotes(stores.At(target).env, pre, mid, stores.States(), a, target);
    }

    /** From the librarian's reply to the promotion; None when the batch is in the wrong tier. */
    method AuditAndPromote(id: string, a: Agents, target: Tier) returns (r: Option<Ending>, promoted: seq<Entry>)
      requires stores.Valid() && !halted
      requires a.verifier == Certified(true)
      modifies this`log, this`everFired, stores.At(target)
      ensures stores.Valid()
      ensures r == BatchEnd(stores.At(target).env, old(stores.At(target).State()), a, target, old(Honest(a)))
      ensures r.None? <==> Misplaced(a, target, old(Honest(a)))
      ensures log == old(log) + BatchStory(id, a, target, old(Honest(a)), if r.Some? then r.value else MISMATCHED, old(everFired))
      ensures stores.At(target).State() ==
                if Signs(a, target, old(Honest(a)))
                then AfterBatch(stores.At(target).env, old(stores.At(target).State()), a)
                else old(stores.At(target).State())
      ensures forall t :: t != target ==> stores.At(t).State() == old(stores.At(t).State())
      ensures r == Some(Returned(PromotedBatch)) ==> HoldsBatch(stores.At(target).live, Batch(a), promoted)
      ensures everFired == (old(everFired) || r == Some(TRIPPED))
    {
      hide AfterBatch, PromotionEnd, PromotionStory, AuditStory, LibrarianStory, HoldsBatch, Keyed, AtVerify, VerdictOf, Honest;
      promoted := [];
      if !a.librarian.Candidates? {
        var end := LibrarianEnds(id, a.librarian);
        return Some(end), promoted;
      }
      Note("librarian.consolidate");
      var verdict, pre := Audit(id, a, target);
      HonestStays(a);
      match verdict {
        case Mismatch =>
          r := None;
        case Stopped(end) =>
          r := Some(end);
        case Signed =>
          var end;
          end, promoted := PromoteSigned(id, a, target, pre);
          r := Some(end);
      }
    }

    /** From the signed why-doc on; siblings may have moved the target before the promotion step. */
    method PromoteSigned(id: string, a: Agents, target: Tier, pre: string) returns (r: Ending, promoted: seq<Entry>)
      requires stores.Valid() && !halted
      requires pre == stores.At(target).env.hash(stores.At(target).live)
      modifies this`log, stores.At(target)
      ensures stores.Valid()
      ensures var env, signed := stores.At(target).env, old(stores.At(target).State());
              r == PromotionEnd(env, AtVerify(env, signed, a), a, env.hash(signed.live))
              && stores.At(target).State() == AfterBatch(env, signed, a)
      ensures r == Returned(PromotedBatch) ==> HoldsBatch(stores.At(target).live, Batch(a), promoted)
      ensures log == old(log) + PromotionStory(id, a, r, everFired)
    {
      hide AfterPromotion, PromotionEnd, PromotionStory, HoldsBatch, Keyed, Run, Batch;
      PerformAll(stores.At(target), a.afterSigning);
      r, promoted := PromoteBatch(id, a, target, pre);
    }
  }
}
