// Runs from an installation that lead to the points at which things can go wrong.
module Reach {
  import opened GoStrings
  import opened Domain
  import opened Mapper
  import opened Cluster
  import opened World
  import opened Worker
  import opened Steps
  import opened Invariant
  import opened Attempts
  import opened Success
  import opened Health
  import opened Footprint

  // ---- A reconcile whose calls are answered, as a run ----

  lemma {:induction false} FinishIsRun(managed: set<string>, cfg: Config, w0: State, m: Machine, k: Key, d: Draw)
    returns (es: seq<Event>)
    requires Underway(managed, cfg, w0, m, k, d)
    ensures LegalRun(cfg, managed, m, es) && Run(cfg, m, es) == Finish(cfg, m, d) && forall e | e in es :: e.Call?
    decreases Rank(m.pc)
  {
    hide Underway, After, Rank;
    if m.pc.Idle? {
      es := [];
      FinishIdle(cfg, m, d);
    } else {
      var next := After(cfg, m.world, m.pc, Answered, d);
      CallIsLegal(managed, cfg, w0, m, k, d);
      StaysUnderway(managed, cfg, w0, m, k, d);
      RankFalls(cfg, m.world, m.pc, Answered, d);
      FinishStep(cfg, m.world, m.pc, d, next);
      var rest := FinishIsRun(managed, cfg, w0, next, k, d);
      es := [Call(Answered, d)] + rest;
      assert es[1..] == rest;
    }
  }

  lemma CallIsLegal(managed: set<string>, cfg: Config, w0: State, m: Machine, k: Key, d: Draw)
    requires Underway(managed, cfg, w0, m, k, d) && !m.pc.Idle?
    ensures Legal(managed, m, Call(Answered, d))
  {
    hide Inv, Stage, Smooth, Healthy, Within, From;
    FreshIsLegal(m.world, m.pc, d);
  }

  // ---- Up to the Secret step ----

  predicate BeforeSecret(pc: Pc) {
    BeforeWrite(pc) || pc.ReadingFqdnAgain? || (pc.Patching? && pc.next.ResolvedRef?)
  }

  lemma EarlyAdvances(cfg: Config, w: State, k: Key, pc: Pc, d: Draw)
    requires (pc.Loading? || pc.Finalizing? || pc.ReadingData?) && Stage(cfg, w, k, pc)
    requires Smooth(After(cfg, w, pc, Answered, d).world, After(cfg, w, pc, Answered, d).pc)
    ensures BeforeSecret(After(cfg, w, pc, Answered, d).pc)
  {
    hide After, ConditionsOk, BeginDeletion, InvalidSpec, ValidateRegistration;
    if pc.Loading? { AtLoading(cfg, w, pc, Answered, d); }
    else if pc.Finalizing? { AtFinalizing(cfg, w, pc, Answered, d); }
    else { AtReadingData(cfg, w, pc, Answered, d); }
  }

  lemma ServiceAdvances(cfg: Config, w: State, pc: Pc, d: Draw)
    requires pc.Listing? || pc.Generating? || pc.ReadingFqdn? || pc.Writing? || pc.ReadingFqdnAgain?
    requires Smooth(After(cfg, w, pc, Answered, d).world, After(cfg, w, pc, Answered, d).pc)
    ensures var pc' := After(cfg, w, pc, Answered, d).pc; BeforeSecret(pc') || pc'.ReadingSecret?
  {
    hide After, Listed, RegistrationFailed, BuildServicePayload, BuildRegistrationResult, Upserted;
    if pc.Listing? { AtListing(cfg, w, pc, Answered, d); }
    else if pc.Generating? { AtGenerating(cfg, w, pc, Answered, d); }
    else if pc.ReadingFqdn? { AtReadingFqdn(cfg, w, pc, Answered, d); }
    else if pc.Writing? { AtWriting(cfg, w, pc, Answered, d); }
    else { AtReadingFqdnAgain(cfg, w, pc, Answered, d); }
  }

  lemma PointerAdvances(managed: set<string>, cfg: Config, w: State, k: Key, pc: Pc, d: Draw)
    requires pc.Patching? && pc.next.ResolvedRef? && PcOk(managed, w, pc) && Stage(cfg, w, k, pc)
    ensures var m' := After(cfg, w, pc, Answered, d);
      m'.pc.ReadingSecret? && k in m'.world.regs && m'.world.regs[k].status.conditions == w.regs[k].status.conditions
  {
    hide After, ConditionsOk, Success.Result;
    AtPatching(cfg, w, pc, Answered, d);
  }

  // What the calls up to the Secret step leave alone.
  ghost predicate Untouched(w: State, w': State, k: Key) {
    w'.secrets == w.secrets && k in w.regs && k in w'.regs &&
    w'.regs[k].status.conditions == w.regs[k].status.conditions
  }

  lemma Advances(managed: set<string>, cfg: Config, w0: State, m: Machine, k: Key, d: Draw)
    requires !m.pc.Idle? && BeforeSecret(m.pc) && Underway(managed, cfg, w0, m, k, d)
    ensures var m' := After(cfg, m.world, m.pc, Answered, d);
      (BeforeSecret(m'.pc) || m'.pc.ReadingSecret?) && Untouched(m.world, m'.world, k)
  {
    hide Inv, Stage, Smooth, Fresh, After, From, Healthy, Within, Serve;
    StaysUnderway(managed, cfg, w0, m, k, d);
    var m' := After(cfg, m.world, m.pc, Answered, d);
    HealthyWithin(w0, m.world, k);
    HealthyWithin(w0, m'.world, k);
    WorldAfter(cfg, m.world, m.pc, Answered, d);
    ServeFrame(m.world, RequestAt(m.pc), Answered, d);
    if m.pc.Loading? || m.pc.Finalizing? || m.pc.ReadingData? {
      EarlyAdvances(cfg, m.world, k, m.pc, d);
      StatusKept(managed, cfg, m, k, d);
    } else if m.pc.Patching? {
      PatchingOk(managed, m);
      PointerAdvances(managed, cfg, m.world, k, m.pc, d);
    } else {
      ServiceAdvances(cfg, m.world, m.pc, d);
      StatusKept(managed, cfg, m, k, d);
    }
  }

  lemma PatchingOk(managed: set<string>, m: Machine)
    requires Inv(managed, m)
    ensures PcOk(managed, m.world, m.pc)
  {
  }

  lemma StatusKept(managed: set<string>, cfg: Config, m: Machine, k: Key, d: Draw)
    requires Inv(managed, m) && !m.pc.Idle? && !m.pc.Patching? && !m.pc.Unfinalizing? && k in m.world.regs
    ensures var w' := Serve(m.world, RequestAt(m.pc), Answered, d).0;
            k in w'.regs && w'.regs[k].status == m.world.regs[k].status
  {
    hide Inv, Serve;
    RegAfterInv(managed, m, Answered, d, k);
  }

  lemma {:induction false} ToSecretStep(managed: set<string>, cfg: Config, w0: State, m: Machine, k: Key, d: Draw)
    returns (es: seq<Event>)
    requires Underway(managed, cfg, w0, m, k, d) && (BeforeSecret(m.pc) || m.pc.ReadingSecret?)
    ensures LegalRun(cfg, managed, m, es) && Run(cfg, m, es).pc.ReadingSecret? &&
            Underway(managed, cfg, w0, Run(cfg, m, es), k, d)
    ensures Untouched(m.world, Run(cfg, m, es).world, k)
    decreases Rank(m.pc)
  {
    hide Underway, After, Rank, BeforeWrite;
    if m.pc.ReadingSecret? {
      es := [];
      StoredAt(managed, cfg, w0, m, k, d);
    } else {
      NotIdle(m.pc);
      var next := After(cfg, m.world, m.pc, Answered, d);
      CallIsLegal(managed, cfg, w0, m, k, d);
      StaysUnderway(managed, cfg, w0, m, k, d);
      Advances(managed, cfg, w0, m, k, d);
      RankFalls(cfg, m.world, m.pc, Answered, d);
      var rest := ToSecretStep(managed, cfg, w0, next, k, d);
      es := [Call(Answered, d)] + rest;
      assert es[1..] == rest;
    }
  }

  lemma StoredAt(managed: set<string>, cfg: Config, w0: State, m: Machine, k: Key, d: Draw)
    requires Underway(managed, cfg, w0, m, k, d)
    ensures k in m.world.regs
  {
    hide Inv, Stage, Smooth, Fresh, From, Healthy;
  }

  lemma NotIdle(pc: Pc)
    requires BeforeSecret(pc)
    ensures !pc.Idle?
  {
  }

  // ---- On to the delete call ----

  // The obsolete Secret is there, controlled by the registration.
  predicate HasOld(w: State, job: Job) {
    HasObsolete(job) && job.Previous() in w.secrets && IsControlledBy(w.secrets[job.Previous()], job.obj)
  }

  predicate AtSecrets(pc: Pc) {
    pc.ReadingSecret? || pc.CreatingSecret? || pc.UpdatingSecret? || pc.ReadingPrevious?
  }

  lemma SecretAdvances(managed: set<string>, cfg: Config, w: State, pc: Pc, d: Draw)
    requires AtSecrets(pc) && HasOld(w, pc.job) && Smooth(w, pc) && LocalsOk(managed, pc)
    requires Smooth(After(cfg, w, pc, Answered, d).world, After(cfg, w, pc, Answered, d).pc)
    ensures var m' := After(cfg, w, pc, Answered, d);
      (AtSecrets(m'.pc) || m'.pc.DeletingPrevious?) && m'.pc.job == pc.job && HasOld(m'.world, pc.job)
  {
    hide After, SecretFailed, GetRegistrationData, Publish, TrimSpace, SetControllerReference, Merge, DataWritten;
    if pc.ReadingSecret? { AtReadingSecret(cfg, w, pc, Answered, d); }
    else if pc.CreatingSecret? { AtCreatingSecret(cfg, w, pc, Answered, d); }
    else if pc.UpdatingSecret? { AtUpdatingSecret(cfg, w, pc, Answered, d); }
    else { AtReadingPrevious(cfg, w, pc, Answered, d); }
  }

  lemma {:induction false} ToDelete(managed: set<string>, cfg: Config, w0: State, m: Machine, k: Key, d: Draw)
    returns (es: seq<Event>)
    requires Underway(managed, cfg, w0, m, k, d) && (AtSecrets(m.pc) || m.pc.DeletingPrevious?) &&
             HasOld(m.world, m.pc.job)
    ensures LegalRun(cfg, managed, m, es) && Run(cfg, m, es).pc.DeletingPrevious? && Run(cfg, m, es).pc.job == m.pc.job
    ensures HasOld(Run(cfg, m, es).world, m.pc.job)
    decreases Rank(m.pc)
  {
    hide Underway, After, Rank, HasOld;
    if m.pc.DeletingPrevious? {
      es := [];
    } else {
      var next := After(cfg, m.world, m.pc, Answered, d);
      CallIsLegal(managed, cfg, w0, m, k, d);
      StaysUnderway(managed, cfg, w0, m, k, d);
      UnderwayLocals(managed, cfg, w0, m, k, d);
      UnderwayLocals(managed, cfg, w0, next, k, d);
      SecretAdvances(managed, cfg, m.world, m.pc, d);
      RankFalls(cfg, m.world, m.pc, Answered, d);
      var rest := ToDelete(managed, cfg, w0, next, k, d);
      es := [Call(Answered, d)] + rest;
      assert es[1..] == rest;
    }
  }

  lemma UnderwayLocals(managed: set<string>, cfg: Config, w0: State, m: Machine, k: Key, d: Draw)
    requires Underway(managed, cfg, w0, m, k, d)
    ensures Inv(managed, m) && Smooth(m.world, m.pc) && LocalsOk(managed, m.pc)
  {
    hide Stage, Fresh, From, Healthy, Within, WorldOk, LocalsOk, FindingsOk, Smooth;
  }
}
