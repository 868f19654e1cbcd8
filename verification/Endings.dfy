/** When an iteration ends how, and what it logs: each ending and each event told by the point the
    iteration came to. */
module Endings {
  import opened Prelude
  import opened Store
  import opened StoreRuns
  import opened Auditor
  import opened Coordinator

  // ---- how far an iteration comes -----------------------------------------------------------------

  predicate Planned(a: Agents) {
    !a.frontierFires && a.researcher.Replied?
  }

  predicate PlanCleared(a: Agents) {
    Planned(a) && !a.planFires && a.constitutionAllows && a.tierWithinCeiling
  }

  predicate Built(a: Agents) {
    PlanCleared(a) && a.builder.Replied?
  }

  predicate Examined(a: Agents) {
    Built(a) && !a.bodyFires && a.verifier.Certified?
  }

  predicate CertPassed(a: Agents) {
    Examined(a) && a.verifier.passed
  }

  predicate Consolidated(a: Agents) {
    CertPassed(a) && a.librarian.Candidates?
  }

  predicate Audited(a: Agents, honest: bool) {
    Consolidated(a) && honest && a.auditor.Replied?
  }

  predicate Diffed(a: Agents, target: Tier, honest: bool) {
    Audited(a, honest) && forall k :: 0 <= k < |a.librarian.entries| ==> a.librarian.entries[k].tier == target
  }

  predicate WhySigned(a: Agents, target: Tier, honest: bool) {
    Diffed(a, target, honest) && a.evidence.Replied?
  }

  /** The verifier or the librarian runs over budget, and says so in the log. */
  predicate PartialRun(a: Agents) {
    || (Built(a) && !a.bodyFires && a.verifier.VerifierOverBudget?)
    || (CertPassed(a) && a.librarian.LibrarianOverBudget?)
  }

  // ---- each ending, exactly when -------------------------------------------------------------------

  /** A budget cap hit anywhere escapes as such; it is never swallowed as a rollback. */
  lemma BudgetCapEscapesIff(env: Env, w: StoreState, a: Agents, target: Tier, honest: bool, cleans: bool)
    ensures IterationEnd(env, w, a, target, honest, cleans) == Raised(BudgetCap) <==>
            || (!a.frontierFires && a.researcher.OverBudget?)
            || (PlanCleared(a) && a.builder.OverBudget?)
            || PartialRun(a)
            || (Consolidated(a) && honest && a.auditor.OverBudget?)
            || (Diffed(a, target, honest) && a.evidence.OverBudget?)
    ensures IterationEnd(env, w, a, target, honest, cleans) == Raised(UncaughtError) <==>
            || (Built(a) && !a.bodyFires && a.verifier.VerifierFailed?)
            || (CertPassed(a) && a.librarian.LibrarianFailed?)
  {
    hide AtVerify, PromotionEnd;
    OfThePromotion(env, AtVerify(env, w, a), a, env.hash(w.live));
  }

  /** An ending of the promotion step. */
  predicate FromPromotion(end: Ending) {
    match end
    case Raised(error) => error == ArchiveFailed
    case Returned(PromotedBatch) => true
    case Returned(RolledBack(reason)) => reason.MarkVerifiedFailed? || reason.PromoteFailed?
  }

  lemma OfThePromotion(env: Env, s: StoreState, a: Agents, pre: string)
    ensures FromPromotion(PromotionEnd(env, s, a, pre))
  {
    hide AtPromote, VerifyBatchFault, PromotionFault;
  }

  /** The iteration ends by the promotion step's ending exactly when its why-doc is signed and passes
      its scan, by the cleanup's exactly when its batch is misplaced, and else by neither. */
  lemma LateEndIs(env: Env, w: StoreState, a: Agents, target: Tier, honest: bool, cleans: bool)
    ensures var end := IterationEnd(env, w, a, target, honest, cleans);
            if WhySigned(a, target, honest) && !a.whyFires then end == PromotionEnd(env, AtVerify(env, w, a), a, env.hash(w.live))
            else if (Consolidated(a) && !honest) || (Audited(a, honest) && !Diffed(a, target, honest)) then end == CleanupEnd(cleans)
            else !FromPromotion(end) && end != MISMATCHED && end != Raised(Halted)
  {
    hide PromotionEnd, AtVerify;
  }

  /** Each rollback up to the certificate, exactly when its gate is reached and fails. */
  lemma GateEndsIff(env: Env, w: StoreState, a: Agents, target: Tier, honest: bool, cleans: bool)
    ensures var end := IterationEnd(env, w, a, target, honest, cleans);
            && (end == Returned(RolledBack(ResearcherRaised)) <==> !a.frontierFires && a.researcher.Failed?)
            && (end == Returned(RolledBack(Constitution)) <==> Planned(a) && !a.planFires && !a.constitutionAllows)
            && (end == Returned(RolledBack(TierViolation)) <==>
                Planned(a) && !a.planFires && a.constitutionAllows && !a.tierWithinCeiling)
            && (end == Returned(RolledBack(BuilderRaised)) <==> PlanCleared(a) && a.builder.Failed?)
            && (end == Returned(RolledBack(CrossCheckpoint)) <==> Built(a) && !a.bodyFires && a.verifier.SameCheckpoint?)
            && (end == Returned(RolledBack(GraderDrift)) <==> Built(a) && !a.bodyFires && a.verifier.Drifted?)
            && (end == Returned(RolledBack(VerifierRejected)) <==> Examined(a) && !a.verifier.passed)
  {
    hide BatchEnd;
    LaterEndings(env, w, a, target, honest);
  }

  /** No ending after the gates is one of theirs. */
  lemma LaterEndings(env: Env, w: StoreState, a: Agents, target: Tier, honest: bool)
    ensures var batch := BatchEnd(env, w, a, target, honest);
            batch.Some? && batch.value.Returned? && batch.value.outcome.RolledBack? ==>
              batch.value.outcome.reason
              !in {ResearcherRaised, Constitution, TierViolation, BuilderRaised, CrossCheckpoint, GraderDrift, VerifierRejected}
  {
    hide AtVerify, PromotionEnd;
    OfThePromotion(env, AtVerify(env, w, a), a, env.hash(w.live));
  }

  /** A tripwire ends an iteration at any of four scans; the librarian and the auditor each end it exactly
      when they are reached and fail. */
  lemma ScanEndsIff(env: Env, w: StoreState, a: Agents, target: Tier, honest: bool, cleans: bool)
    ensures var end := IterationEnd(env, w, a, target, honest, cleans);
            && (end == Returned(RolledBack(Tripwire)) <==>
                || a.frontierFires || (Planned(a) && a.planFires) || (Built(a) && a.bodyFires)
                || (WhySigned(a, target, honest) && a.whyFires))
            && (end == Returned(RolledBack(LibrarianBlocked)) <==> CertPassed(a) && a.librarian.Blocked?)
            && (end == Returned(RolledBack(AuditorRaised)) <==>
                || (Consolidated(a) && honest && a.auditor.Failed?)
                || (Diffed(a, target, honest) && a.evidence.Failed?))
  {
    hide AtVerify, PromotionEnd;
    OfThePromotion(env, AtVerify(env, w, a), a, env.hash(w.live));
  }

  /** The endings the stores decide: a misplaced batch and its cleanup, and the two calls of the
      promotion step. */
  lemma StoreEndsIff(env: Env, w: StoreState, a: Agents, target: Tier, honest: bool, cleans: bool, error: StoreError)
    ensures var end := IterationEnd(env, w, a, target, honest, cleans);
            var misplaced := (Consolidated(a) && !honest) || (Audited(a, honest) && !Diffed(a, target, honest));
            var signed := WhySigned(a, target, honest) && !a.whyFires;
            var ids, v := Batch(a), Run(env, w, a.afterSigning);
            var p := Run(env, AfterMarkVerified(v, ids), a.afterVerifying);
            var q := Request(ids, env.hash(w.live), a.whyId, Some("librarian"), a.now, a.archiveOk);
            var verified := signed && VerifyBatchFault(v, ids).None?;
            && (end == Returned(RolledBack(TierMismatched)) <==> misplaced && cleans)
            && (end == Returned(RolledBack(MarkVerifiedFailed(error))) <==> signed && VerifyBatchFault(v, ids) == Some(error))
            && (end == Returned(RolledBack(PromoteFailed(error))) <==>
                verified && PromotionFault(env, p, q) == Some(error) && error != ArchiveIo)
            && (end == Raised(ArchiveFailed) <==>
                (misplaced && !cleans) || (verified && PromotionFault(env, p, q) == Some(ArchiveIo)))
            && (end == Returned(PromotedBatch) <==> verified && PromotionFault(env, p, q).None?)
            && end != Raised(Halted)
  {
    hide IterationEnd, WhySigned, Consolidated, Audited, Diffed, Run, AfterMarkVerified, VerifyBatchFault, PromotionFault, Batch;
    LateEndIs(env, w, a, target, honest, cleans);
    assert WhySigned(a, target, honest) ==> Audited(a, honest) && Diffed(a, target, honest) && honest by {
      SignedIsDiffed(a, target, honest);
    }
  }

  lemma SignedIsDiffed(a: Agents, target: Tier, honest: bool)
    ensures WhySigned(a, target, honest) ==> Audited(a, honest) && Diffed(a, target, honest) && honest
  {
  }

  /** The three lemmas above speak of an iteration from the states of its stores. */
  lemma EndOfIs(env: Env, pre: map<Tier, StoreState>, id: string, a: Agents, target: Tier) returns (cleans: bool)
    requires Total(pre)
    ensures EndOf(env, pre, id, a, target) == IterationEnd(env, Written(pre[target], a.writes, target), a, target, HonestAfter(pre, a), cleans)
    ensures cleans <==> forall t, x :: x in OwnedIn(pre[t], t, id, a) ==> a.sweep(t).archives(x)
  {
    hide IterationEnd, OwnedIn, Written, HonestAfter;
    var owned := OwnedOf(pre, id, a);
    cleans := !StopsAnywhere(owned, a.sweep);
    if t, x :| x in OwnedIn(pre[t], t, id, a) && !a.sweep(t).archives(x) {
      assert x in owned[t];
      assert Stops(owned[t], a.sweep(t));
    }
  }

  /** A librarian that returns a candidate absent from the tier it claims is caught: the iteration is
      cleaned up, never promoted. */
  lemma LiesAreCaught(env: Env, pre: map<Tier, StoreState>, id: string, a: Agents, target: Tier, k: nat)
    requires Total(pre) && Consolidated(a) && k < |a.librarian.entries|
    requires var e := a.librarian.entries[k];
             e.id !in WriteAll(pre[e.tier].candidate, a.writes, e.tier)
    ensures EndOf(env, pre, id, a, target) in {MISMATCHED, Raised(ArchiveFailed)}
  {
    hide WriteAll, IterationEnd;
    var cleans := EndOfIs(env, pre, id, a, target);
    assert Returns(a)[k] == a.librarian.entries[k];
    assert !HonestAfter(pre, a);
    LateEndIs(env, Written(pre[target], a.writes, target), a, target, false, cleans);
  }

  /** An honest one is not: nothing else makes a batch misplaced before the auditor is asked. */
  lemma HonestIsBelieved(pre: map<Tier, StoreState>, a: Agents)
    requires Total(pre) && a.librarian.Candidates?
    requires forall k :: 0 <= k < |a.librarian.entries| ==>
               var e := a.librarian.entries[k];
               e.id in WriteAll(pre[e.tier].candidate, a.writes, e.tier)
    ensures HonestAfter(pre, a)
  {
  }

  // ---- the log: milestones, the alarm, the terminal event -------------------------------------------

  function If(b: bool, e: Event): seq<Event> {
    if b then [e] else []
  }

  /** One event for each point the iteration reached. */
  function Milestones(a: Agents, target: Tier, honest: bool): seq<Event> {
    If(Planned(a), Progress("plan.proposed"))
    + If(Built(a), Progress("artifact.produced"))
    + If(Examined(a), Progress("verifier.cert"))
    + If(Consolidated(a), Progress("librarian.consolidate"))
    + If(WhySigned(a, target, honest), Progress("auditor.signed"))
  }

  /** The event that says which gate failed, before the terminal event. */
  function Alarm(a: Agents, owned: map<Tier, set<string>>, end: Ending): seq<Event> {
    match end
    case Raised(_) => If(PartialRun(a), Progress("iter.partial"))
    case Returned(PromotedBatch) => []
    case Returned(RolledBack(reason)) =>
      match reason
      case Tripwire => [Progress("tripwire.fired")]
      case Constitution => [Progress("constitution.reject")]
      case TierViolation => [Progress("tier.violation")]
      case CrossCheckpoint => [Progress("cross_checkpoint.violation")]
      case GraderDrift => [Progress("grader.drift")]
      case LibrarianBlocked => [Progress("tier.write.blocked")]
      case TierMismatched => [MismatchCleaned(owned)]
      case AuditorRaised => [Progress("auditor.failed")]
      case MarkVerifiedFailed(_) => [Progress("promote.failed")]
      case PromoteFailed(_) => [Progress("promote.failed")]
      case _ => []
  }

  /** The one terminal event of an outcome, none when an exception escapes. */
  function TerminalOf(id: string, a: Agents, end: Ending): seq<Event> {
    match end
    case Raised(_) => []
    case Returned(PromotedBatch) => [IterPromoted(id, Batch(a))]
    case Returned(RolledBack(reason)) => [IterRolledBack(id, reason)]
  }

  function GateMilestones(a: Agents): seq<Event> {
    If(Planned(a), Progress("plan.proposed"))
    + If(Built(a), Progress("artifact.produced"))
    + If(Examined(a), Progress("verifier.cert"))
  }

  function LateMilestones(a: Agents, target: Tier, honest: bool): seq<Event> {
    If(Consolidated(a), Progress("librarian.consolidate"))
    + If(WhySigned(a, target, honest), Progress("auditor.signed"))
  }

  lemma MilestonesSplit(a: Agents, target: Tier, honest: bool)
    ensures Milestones(a, target, honest) == GateMilestones(a) + LateMilestones(a, target, honest)
  {
    hide Planned, Built, Examined, Consolidated, WhySigned;
  }

  lemma PlanStoryIs(id: string, a: Agents, owned: map<Tier, set<string>>)
    ensures PlanEnd(a).Some? ==>
              PlanStory(id, a) == GateMilestones(a) + (Alarm(a, owned, PlanEnd(a).value) + TerminalOf(id, a, PlanEnd(a).value))
              && !PlanCleared(a)
    ensures PlanEnd(a).None? ==> PlanStory(id, a) == [Progress("plan.proposed")] && PlanCleared(a)
  {
  }

  lemma BuildStoryIs(id: string, a: Agents, owned: map<Tier, set<string>>)
    requires PlanCleared(a)
    ensures BuildEnd(a).Some? ==>
              [Progress("plan.proposed")] + BuildStory(id, a)
              == GateMilestones(a) + (Alarm(a, owned, BuildEnd(a).value) + TerminalOf(id, a, BuildEnd(a).value))
              && !CertPassed(a)
    ensures BuildEnd(a).None? ==> [Progress("plan.proposed")] + BuildStory(id, a) == GateMilestones(a) && CertPassed(a)
  {
  }

  lemma GateStoryIs(id: string, a: Agents, owned: map<Tier, set<string>>)
    ensures GateEnd(a).Some? ==>
              GateStory(id, a) == GateMilestones(a) + (Alarm(a, owned, GateEnd(a).value) + TerminalOf(id, a, GateEnd(a).value))
              && !CertPassed(a)
    ensures GateEnd(a).None? ==> GateStory(id, a) == GateMilestones(a) && CertPassed(a)
  {
    hide PlanStory, BuildStory, PlanEnd, BuildEnd, GateMilestones, Alarm, TerminalOf, PlanCleared;
    PlanStoryIs(id, a, owned);
    if PlanEnd(a).None? {
      BuildStoryIs(id, a, owned);
    } else {
      NotCertified(a);
      Joined(PlanStory(id, a), [], []);
    }
  }

  lemma NotCertified(a: Agents)
    ensures CertPassed(a) ==> PlanCleared(a)
  {
  }

  lemma UncertifiedIsLate(a: Agents, target: Tier, honest: bool)
    ensures !CertPassed(a) ==> LateMilestones(a, target, honest) == []
  {
  }

  /** After the gates: the late milestones, the alarm and the terminal event. */
  lemma BatchStoryIs(env: Env, w: StoreState, id: string, a: Agents, target: Tier, honest: bool, owned: map<Tier, set<string>>,
                     cleans: bool, flagged: bool)
    requires CertPassed(a)
    ensures var batch := BatchEnd(env, w, a, target, honest);
            var end := if batch.Some? then batch.value else CleanupEnd(cleans);
            BatchStory(id, a, target, honest, end, flagged)
            + (if Misplaced(a, target, honest) then CleanupStory(id, owned, end == MISMATCHED) else [])
            == LateMilestones(a, target, honest)
               + (Alarm(a, owned, end) + TerminalOf(id, a, end)
                  + If(end == Returned(PromotedBatch) && flagged, Progress("post.halt")))
  {
    hide PromotionEnd, AtVerify, Batch, AuditStory, PromotionStory, VerdictOf, WhySigned, Alarm, TerminalOf;
    var batch := BatchEnd(env, w, a, target, honest);
    var end := if batch.Some? then batch.value else CleanupEnd(cleans);
    if a.librarian.Candidates? {
      AuditStoryIs(id, a, target, honest, owned);
      if Signs(a, target, honest) {
        OfThePromotion(env, AtVerify(env, w, a), a, env.hash(w.live));
        PromotionStoryIs(id, a, owned, end, flagged);
      } else if Misplaced(a, target, honest) {
        CleanupStoryIs(id, a, owned, cleans);
      }
    } else {
      LibrarianStoryIs(id, a, target, honest, owned);
    }
  }

  lemma LibrarianStoryIs(id: string, a: Agents, target: Tier, honest: bool, owned: map<Tier, set<string>>)
    requires CertPassed(a) && !a.librarian.Candidates?
    ensures LibrarianStory(id, a.librarian)
            == Alarm(a, owned, LibrarianEnd(a.librarian)) + TerminalOf(id, a, LibrarianEnd(a.librarian))
    ensures !WhySigned(a, target, honest)
  {
  }

  lemma AuditStoryIs(id: string, a: Agents, target: Tier, honest: bool, owned: map<Tier, set<string>>)
    requires Consolidated(a)
    ensures match VerdictOf(a, target, honest)
            case Mismatch => AuditStory(id, a, target, honest) == [] && !WhySigned(a, target, honest)
            case Signed => AuditStory(id, a, target, honest) == [Progress("auditor.signed")] && WhySigned(a, target, honest)
            case Stopped(end) =>
              && end != Returned(PromotedBatch)
              && AuditStory(id, a, target, honest)
                 == If(WhySigned(a, target, honest), Progress("auditor.signed")) + (Alarm(a, owned, end) + TerminalOf(id, a, end))
  {
  }

  lemma PromotionStoryIs(id: string, a: Agents, owned: map<Tier, set<string>>, end: Ending, flagged: bool)
    requires Consolidated(a)
    requires FromPromotion(end)
    ensures PromotionStory(id, a, end, flagged)
            == Alarm(a, owned, end) + TerminalOf(id, a, end) + If(end == Returned(PromotedBatch) && flagged, Progress("post.halt"))
  {
    hide Batch;
  }

  lemma CleanupStoryIs(id: string, a: Agents, owned: map<Tier, set<string>>, cleans: bool)
    requires Consolidated(a)
    ensures CleanupStory(id, owned, CleanupEnd(cleans) == MISMATCHED)
            == Alarm(a, owned, CleanupEnd(cleans)) + TerminalOf(id, a, CleanupEnd(cleans))
  {
  }

  /** What an iteration logs, whatever its path: its start, a milestone for every point it reached, the
      alarm of the gate that failed, its terminal event, and a note if it was promoted after a
      tripwire had fired earlier. */
  lemma StoryIs(env: Env, w: StoreState, id: string, a: Agents, target: Tier, honest: bool, owned: map<Tier, set<string>>,
                cleans: bool, flagged: bool)
    ensures var end := IterationEnd(env, w, a, target, honest, cleans);
            StoryOf(id, a, target, honest, owned, end, flagged)
            == [IterStart(id)] + Milestones(a, target, honest) + Alarm(a, owned, end) + TerminalOf(id, a, end)
               + If(end == Returned(PromotedBatch) && flagged, Progress("post.halt"))
  {
    hide GateStory, BatchStory, CleanupStory, GateMilestones, LateMilestones, Milestones, Alarm, TerminalOf, CertPassed, GateEnd,
         BatchEnd, Misplaced;
    var end := IterationEnd(env, w, a, target, honest, cleans);
    var late := LateMilestones(a, target, honest);
    var tail := Alarm(a, owned, end) + TerminalOf(id, a, end);
    var post := If(end == Returned(PromotedBatch) && flagged, Progress("post.halt"));
    MilestonesSplit(a, target, honest);
    GateStoryIs(id, a, owned);
    if GateEnd(a).Some? {
      UncertifiedIsLate(a, target, honest);
      GatesPromoteNothing(a);
      assert StoryOf(id, a, target, honest, owned, end, flagged) == [IterStart(id)] + (GateMilestones(a) + tail);
      assert late == [] && post == [];
    } else {
      BatchStoryIs(env, w, id, a, target, honest, owned, cleans, flagged);
      assert StoryOf(id, a, target, honest, owned, end, flagged) == [IterStart(id)] + (GateMilestones(a) + (late + (tail + post)));
    }
  }

  lemma GatesPromoteNothing(a: Agents)
    requires GateEnd(a).Some?
    ensures GateEnd(a).value != Returned(PromotedBatch)
  {
  }

  // ---- one terminal event --------------------------------------------------------------------------

  lemma NoTerminals(a: Agents, target: Tier, honest: bool, owned: map<Tier, set<string>>, end: Ending, b: bool)
    ensures Terminals(Milestones(a, target, honest)) == []
    ensures Terminals(Alarm(a, owned, end)) == []
    ensures Terminals(If(b, Progress("post.halt"))) == []
  {
    IfQuiet(Planned(a), "plan.proposed");
    IfQuiet(Built(a), "artifact.produced");
    IfQuiet(Examined(a), "verifier.cert");
    IfQuiet(Consolidated(a), "librarian.consolidate");
    IfQuiet(WhySigned(a, target, honest), "auditor.signed");
    IfQuiet(b, "post.halt");
    AlarmQuiet(a, owned, end);
    var p, q, r := If(Planned(a), Progress("plan.proposed")), If(Built(a), Progress("artifact.produced")),
                   If(Examined(a), Progress("verifier.cert"));
    var s, t := If(Consolidated(a), Progress("librarian.consolidate")), If(WhySigned(a, target, honest), Progress("auditor.signed"));
    hide If, Planned, Built, Examined, Consolidated, WhySigned, Terminals;
    TerminalsJoin(p, q);
    TerminalsJoin(p + q, r);
    TerminalsJoin(p + q + r, s);
    TerminalsJoin(p + q + r + s, t);
  }

  lemma IfQuiet(b: bool, kind: string)
    ensures Terminals(If(b, Progress(kind))) == []
  {
    TerminalsAppend([], Progress(kind));
    assert [] + [Progress(kind)] == [Progress(kind)];
  }

  lemma AlarmQuiet(a: Agents, owned: map<Tier, set<string>>, end: Ending)
    ensures Terminals(Alarm(a, owned, end)) == []
  {
    hide Terminals, PartialRun;
    var alarm := Alarm(a, owned, end);
    if alarm != [] {
      assert alarm == [alarm[0]] && !Terminal(alarm[0]);
      TerminalsAppend([], alarm[0]);
      assert [] + [alarm[0]] == alarm;
    }
    assert Terminals([]) == [] by {
      IfQuiet(false, "");
    }
  }

  /** Whatever its path, an iteration that started logs its start event first and exactly one terminal
      event, which matches its outcome, or none when an exception escapes. */
  lemma StoryTerminates(env: Env, pre: map<Tier, StoreState>, id: string, a: Agents, target: Tier, flagged: bool)
    requires Total(pre)
    ensures Terminates(Story(env, pre, id, a, target, flagged), id, a, EndOf(env, pre, id, a, target))
  {
    hide Milestones, Alarm, TerminalOf, If, Terminals, IterationEnd, HonestAfter, OwnedOf, StopsAnywhere, StoryOf, Written, Batch;
    var honest, owned, end := HonestAfter(pre, a), OwnedOf(pre, id, a), EndOf(env, pre, id, a, target);
    var b := end == Returned(PromotedBatch) && flagged;
    StoryIs(env, Written(pre[target], a.writes, target), id, a, target, honest, owned,
            !StopsAnywhere(owned, a.sweep), flagged);
    NoTerminals(a, target, honest, owned, end, b);
    NeverHalted(env, pre, id, a, target);
    var start, m, al, te, po := [IterStart(id)], Milestones(a, target, honest), Alarm(a, owned, end), TerminalOf(id, a, end),
                                If(b, Progress("post.halt"));
    OneTerminal(id, a, end);
    TerminalsOfFive(start, m, al, te, po);
    assert (start + m + al + te + po)[0] == IterStart(id);
    Closes(start + m + al + te + po, id, a, end);
  }

  lemma Closes(part: seq<Event>, id: string, a: Agents, end: Ending)
    requires part != [] && part[0] == IterStart(id) && end != Raised(Halted)
    requires Terminals(part) == TerminalOf(id, a, end)
    ensures Terminates(part, id, a, end)
  {
    hide Terminals, Batch;
  }

  lemma TerminalsOfFive(a: seq<Event>, b: seq<Event>, c: seq<Event>, d: seq<Event>, e: seq<Event>)
    ensures Terminals(a + b + c + d + e) == Terminals(a) + Terminals(b) + Terminals(c) + Terminals(d) + Terminals(e)
  {
    TerminalsJoin(a, b);
    TerminalsJoin(a + b, c);
    TerminalsJoin(a + b + c, d);
    TerminalsJoin(a + b + c + d, e);
  }

  lemma OneTerminal(id: string, a: Agents, end: Ending)
    ensures Terminals([IterStart(id)]) == []
    ensures Terminals(TerminalOf(id, a, end)) == TerminalOf(id, a, end)
  {
    hide Batch;
    TerminalsAppend([], IterStart(id));
    assert [] + [IterStart(id)] == [IterStart(id)];
    var t := TerminalOf(id, a, end);
    if t != [] {
      TerminalsAppend([], t[0]);
      assert [] + [t[0]] == t;
    }
  }
}
