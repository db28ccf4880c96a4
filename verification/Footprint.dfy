// What a whole reconcile changes: the registration's own status and finalizer, its service, its Secret, and a Secret it
// controlled before and no longer points to.
module Footprint {
  import opened Wrappers
  import opened GoStrings
  import opened Domain
  import opened Registry
  import opened Mapper
  import opened Cluster
  import opened World
  import opened Worker
  import opened Invariant
  import opened Steps
  import opened SecretSafety
  import opened Accounting
  import opened FixedPoint
  import opened Attempts
  import opened Success
  import opened Watch
  import opened Health

  predicate SameSpec(a: Reg, b: Reg) {
    b == a.(status := b.status, finalizers := b.finalizers)
  }

  // The Secret `sk` since `w0`, where `reg` was the registration under reconcile and `target` its Secret.
  predicate SecretWithin(w0: State, w: State, reg: Reg, target: Key, sk: Key) {
    if sk == target then
      sk in w.secrets ==>
        ((sk in w0.secrets && w.secrets[sk].controller == w0.secrets[sk].controller) ||
         w.secrets[sk].controller == Some(OwnerFor(reg))) &&
        ((sk in w0.secrets && w.secrets[sk].stype == w0.secrets[sk].stype) || w.secrets[sk].stype == OPAQUE)
    else if sk in w.secrets then sk in w0.secrets && w.secrets[sk] == w0.secrets[sk]
    else sk in w0.secrets ==> IsControlledBy(w0.secrets[sk], reg) && reg.status.resolvedSecretRef != target.name
  }

  // No change outside the footprint of `k` since `w0`.
  ghost predicate Within(w0: State, w: State, k: Key)
    requires k in w0.regs && ResolvedKey(w0.regs[k]).Some?
  {
    w.fqdn == w0.fqdn && w.nextUid == w0.nextUid &&
    k in w.regs && SameSpec(w0.regs[k], w.regs[k]) && w.regs == w0.regs[k := w.regs[k]] &&
    (forall c | c != w0.regs[k].spec.consumer :: ByConsumer(w.services, c) == ByConsumer(w0.services, c)) &&
    (forall sk :: SecretWithin(w0, w, w0.regs[k], ResolvedKey(w0.regs[k]).value, sk))
  }

  // The previous name the reconcile works with is the one the status had at its start.
  predicate From(reg0: Reg, w: State, k: Key, pc: Pc)
    requires k in w.regs
  {
    match pc
    case Loading(_) => w.regs[k].status == reg0.status
    case Finalizing(_) => w.regs[k].status == reg0.status
    case ReadingData(job) => job.prev == reg0.status.resolvedSecretRef
    case Listing(job, _) => job.prev == reg0.status.resolvedSecretRef
    case Generating(job, _) => job.prev == reg0.status.resolvedSecretRef
    case ReadingFqdn(job, _, _) => job.prev == reg0.status.resolvedSecretRef
    case Writing(job, _, _, _) => job.prev == reg0.status.resolvedSecretRef
    case ReadingFqdnAgain(job, _, _) => job.prev == reg0.status.resolvedSecretRef
    case Patching(_, _, next) => next.ResolvedRef? ==> next.job.prev == reg0.status.resolvedSecretRef
    case ReadingSecret(job, _) => job.prev == reg0.status.resolvedSecretRef
    case CreatingSecret(job, _) => job.prev == reg0.status.resolvedSecretRef
    case UpdatingSecret(job, _, _) => job.prev == reg0.status.resolvedSecretRef
    case ReadingPrevious(job) => job.prev == reg0.status.resolvedSecretRef
    case DeletingPrevious(job, _) => job.prev == reg0.status.resolvedSecretRef
    case _ => true
  }

  // ---- One step ----

  lemma StartFrom(cfg: Config, w: State, k: Key, pc: Pc, d: Draw, reg0: Reg)
    requires (pc.Loading? || pc.Finalizing?) && Stage(cfg, w, k, pc) && k in w.regs && w.regs[k].Id() == k &&
             From(reg0, w, k, pc)
    ensures var m' := After(cfg, w, pc, Answered, d); k in m'.world.regs ==> From(reg0, m'.world, k, m'.pc)
  {
    hide After, InvalidSpec, BeginDeletion, ConditionsOk, ResolveSecretName;
    if pc.Loading? { AtLoading(cfg, w, pc, Answered, d); } else { AtFinalizing(cfg, w, pc, Answered, d); }
  }

  lemma EarlyFrom(cfg: Config, w: State, k: Key, pc: Pc, d: Draw, reg0: Reg)
    requires (pc.ReadingData? || pc.Listing? || pc.Generating? || pc.ReadingFqdn? || pc.Writing? ||
             pc.ReadingFqdnAgain?)
    requires k in w.regs && From(reg0, w, k, pc)
    ensures var m' := After(cfg, w, pc, Answered, d); k in m'.world.regs && From(reg0, m'.world, k, m'.pc)
  {
    hide After, RegistrationFailed, BuildServicePayload, BuildRegistrationResult, ClientSecret, ValidateRegistration,
         FindServiceByConsumer;
    if pc.ReadingData? { AtReadingData(cfg, w, pc, Answered, d); }
    else if pc.Listing? { AtListing(cfg, w, pc, Answered, d); }
    else if pc.Generating? { AtGenerating(cfg, w, pc, Answered, d); }
    else if pc.ReadingFqdn? { AtReadingFqdn(cfg, w, pc, Answered, d); }
    else if pc.Writing? { AtWriting(cfg, w, pc, Answered, d); }
    else { AtReadingFqdnAgain(cfg, w, pc, Answered, d); }
  }

  lemma PatchFrom(managed: set<string>, cfg: Config, w: State, k: Key, pc: Pc, d: Draw, reg0: Reg)
    requires pc.Patching? && k in w.regs && From(reg0, w, k, pc) && PcOk(managed, w, pc)
    ensures var m' := After(cfg, w, pc, Answered, d); k in m'.world.regs && From(reg0, m'.world, k, m'.pc)
  {
    hide After, ConditionsOk, Succeed, Block, InvalidPublishedPc, InvalidCompletedPc;
    AtPatching(cfg, w, pc, Answered, d);
  }

  lemma SecretFrom(cfg: Config, w: State, k: Key, pc: Pc, d: Draw, reg0: Reg)
    requires pc.ReadingSecret? || pc.CreatingSecret? || pc.UpdatingSecret?
    requires k in w.regs && From(reg0, w, k, pc)
    ensures var m' := After(cfg, w, pc, Answered, d); k in m'.world.regs && From(reg0, m'.world, k, m'.pc)
  {
    hide After, SecretFailed, CleanUp, GetRegistrationData, SetControllerReference, Merge;
    if pc.ReadingSecret? { AtReadingSecret(cfg, w, pc, Answered, d); }
    else if pc.CreatingSecret? { AtCreatingSecret(cfg, w, pc, Answered, d); }
    else { AtUpdatingSecret(cfg, w, pc, Answered, d); }
  }

  lemma CleanUpFrom(cfg: Config, w: State, k: Key, pc: Pc, d: Draw, reg0: Reg)
    requires (pc.ReadingPrevious? || pc.DeletingPrevious?) && k in w.regs && From(reg0, w, k, pc)
    ensures var m' := After(cfg, w, pc, Answered, d); k in m'.world.regs && From(reg0, m'.world, k, m'.pc)
  {
    hide After, Publish;
    if pc.ReadingPrevious? {
      AtReadingPrevious(cfg, w, pc, Answered, d);
    } else {
      AtDeletingPrevious(cfg, w, pc, Answered, d);
    }
  }

  lemma CallFrom(managed: set<string>, cfg: Config, m: Machine, k: Key, d: Draw, reg0: Reg)
    requires Inv(managed, m) && !m.pc.Idle? && Stage(cfg, m.world, k, m.pc) && k in m.world.regs &&
             From(reg0, m.world, k, m.pc)
    ensures var m' := After(cfg, m.world, m.pc, Answered, d); k in m'.world.regs ==> From(reg0, m'.world, k, m'.pc)
  {
    hide After, From, PcOk, ServicesOk, SecretsOk, NextStage, ConditionsOk;
    var w, pc := m.world, m.pc;
    if pc.Loading? || pc.Finalizing? { StartFrom(cfg, w, k, pc, d, reg0); }
    else if pc.Patching? { PatchFrom(managed, cfg, w, k, pc, d, reg0); }
    else if pc.ReadingSecret? || pc.CreatingSecret? || pc.UpdatingSecret? { SecretFrom(cfg, w, k, pc, d, reg0); }
    else if pc.ReadingPrevious? || pc.DeletingPrevious? { CleanUpFrom(cfg, w, k, pc, d, reg0); }
    else { EarlyFrom(cfg, w, k, pc, d, reg0); }
  }

  // The registrations after a call: only the one under reconcile may differ, in status and finalizers.
  lemma RegsWithin(managed: set<string>, cfg: Config, m: Machine, k: Key, d: Draw)
    requires Inv(managed, m) && !m.pc.Idle? && Stage(cfg, m.world, k, m.pc) && k in m.world.regs
    ensures var w' := After(cfg, m.world, m.pc, Answered, d).world;
      k in w'.regs && SameSpec(m.world.regs[k], w'.regs[k]) && w'.regs == m.world.regs[k := w'.regs[k]]
  {
    hide After, Serve, ServicesOk, SecretsOk, ConditionsOk, FindingsOk, Begin, AfterPatch, StoresSettled,
         Success.Result;
    var w, pc := m.world, m.pc;
    if pc.Finalizing? {
      AtFinalizing(cfg, w, pc, Answered, d);
    } else if pc.Patching? {
      AtPatching(cfg, w, pc, Answered, d);
    } else {
      RegsUntouched(pc, w, Answered, d);
      WorldAfter(cfg, w, pc, Answered, d);
      assert w.regs == w.regs[k := w.regs[k]];
    }
  }

  // The registration the reconcile works on is the stored one, but for finalizers of others.
  lemma WorksOn(cfg: Config, w: State, k: Key, pc: Pc)
    requires Stage(cfg, w, k, pc) && k in w.regs && ObjAt(pc).Some?
    ensures SameSpec(w.regs[k], ObjAt(pc).value) && w.regs[k].status == ObjAt(pc).value.status && w.regs[k].Id() == k
  {
    hide ConditionsOk, StoresSettled, Success.Result, Planned;
  }

  // The Secret it writes is the one the registration resolves to.
  lemma WritesTarget(cfg: Config, w: State, k: Key, pc: Pc)
    requires Stage(cfg, w, k, pc) && k in w.regs && (pc.CreatingSecret? || pc.UpdatingSecret? || pc.DeletingPrevious?)
    ensures ResolvedKey(w.regs[k]) == Some(pc.job.Target()) && SameSpec(w.regs[k], pc.job.obj)
    ensures pc.DeletingPrevious? ==> HasObsolete(pc.job) && Trimmed(pc.job.name)
  {
    hide ConditionsOk, StoresSettled, Success.Result, ValidateRegistration;
    NameTrimmed(pc.job.obj);
  }

  lemma WritesOpaque(managed: set<string>, m: Machine)
    requires Inv(managed, m)
    ensures m.pc.CreatingSecret? ==> m.pc.desired.stype == OPAQUE
    ensures m.pc.UpdatingSecret? ==> m.pc.merged.stype == OPAQUE
  {
    hide WorldOk, Anchored, FindingsOk, DataWritten;
  }

  lemma SecretsWithin(managed: set<string>, cfg: Config, m: Machine, k: Key, d: Draw, w0: State, sk: Key)
    requires Inv(managed, m) && !m.pc.Idle? && Stage(cfg, m.world, k, m.pc) && Smooth(m.world, m.pc)
    requires k in w0.regs && ResolvedKey(w0.regs[k]).Some? && k in m.world.regs && SameSpec(w0.regs[k], m.world.regs[k])
    requires From(w0.regs[k], m.world, k, m.pc)
    requires var target := ResolvedKey(w0.regs[k]).value;
      SecretWithin(w0, m.world, w0.regs[k], target, sk) &&
      (m.pc.DeletingPrevious? ==> SecretWithin(w0, m.world, w0.regs[k], target, m.pc.job.Previous()))
    ensures SecretWithin(w0, After(cfg, m.world, m.pc, Answered, d).world, w0.regs[k],
                         ResolvedKey(w0.regs[k]).value, sk)
  {
    hide Stage, After, Serve, Inv, TrimSpace;
    WorldAfter(cfg, m.world, m.pc, Answered, d);
    if m.pc.CreatingSecret? || m.pc.UpdatingSecret? || m.pc.DeletingPrevious? {
      WritesTarget(cfg, m.world, k, m.pc);
    }
    WritesOpaque(managed, m);
    OwnedAfterCall(managed, m, Answered, d, sk);
    if sk in m.world.secrets {
      SecretAfterCall(managed, m, Answered, d, sk);
    } else {
      NewSecretAfterCall(managed, m, Answered, d, sk);
    }
  }

  lemma CallWithin(managed: set<string>, cfg: Config, m: Machine, k: Key, d: Draw, w0: State)
    requires Inv(managed, m) && !m.pc.Idle? && Stage(cfg, m.world, k, m.pc) && Smooth(m.world, m.pc) &&
      LegalDraw(m.world, RequestAt(m.pc), Answered, d)
    requires k in w0.regs && ResolvedKey(w0.regs[k]).Some? && Within(w0, m.world, k) &&
             From(w0.regs[k], m.world, k, m.pc)
    ensures Within(w0, After(cfg, m.world, m.pc, Answered, d).world, k)
  {
    hide Stage, After, Serve, Inv, SecretWithin, ByConsumer, From, Smooth;
    var w' := After(cfg, m.world, m.pc, Answered, d).world;
    WorldAfter(cfg, m.world, m.pc, Answered, d);
    ServeFrame(m.world, RequestAt(m.pc), Answered, d);
    RegsWithin(managed, cfg, m, k, d);
    forall c | c != w0.regs[k].spec.consumer
      ensures ByConsumer(w'.services, c) == ByConsumer(w0.services, c)
    {
      if ObjAt(m.pc).Some? { WorksOn(cfg, m.world, k, m.pc); }
      ServicesAfter(managed, m, Answered, d, c);
    }
    forall sk
      ensures SecretWithin(w0, w', w0.regs[k], ResolvedKey(w0.regs[k]).value, sk)
    {
      SecretsWithin(managed, cfg, m, k, d, w0, sk);
    }
  }

  // ---- The whole reconcile ----

  lemma HealthyWithin(w0: State, w: State, k: Key)
    requires k in w0.regs && Healthy(w0, w0.regs[k]) && ResolvedKey(w0.regs[k]).Some? && Within(w0, w, k)
    ensures k in w.regs && Healthy(w, w.regs[k])
  {
    hide ByConsumer, ValidateRegistration;
    var target := ResolvedKey(w0.regs[k]).value;
    assert SecretWithin(w0, w, w0.regs[k], target, target);
  }

  // On its way, a reconcile that began in `w0`.
  ghost predicate Underway(managed: set<string>, cfg: Config, w0: State, m: Machine, k: Key, d: Draw) {
    Inv(managed, m) && Stage(cfg, m.world, k, m.pc) && Smooth(m.world, m.pc) && Fresh(m.world, m.pc, d) &&
    k in w0.regs && Healthy(w0, w0.regs[k]) && ResolvedKey(w0.regs[k]).Some? && Within(w0, m.world, k) &&
    From(w0.regs[k], m.world, k, m.pc)
  }

  lemma StartsUnderway(managed: set<string>, cfg: Config, w: State, k: Key, d: Draw)
    requires WorldOk(managed, w) && k in w.regs && w.regs[k].deletedAt.None? && Healthy(w, w.regs[k]) &&
             Fresh(w, Loading(k), d)
    ensures ResolvedKey(w.regs[k]).Some? && Underway(managed, cfg, w, Machine(w, Loading(k)), k, d)
  {
    hide ByConsumer, RegsOk, SecretsOk, ServicesOk, ValidateRegistration, Settled;
    assert w.regs == w.regs[k := w.regs[k]];
  }

  lemma StaysUnderway(managed: set<string>, cfg: Config, w0: State, m: Machine, k: Key, d: Draw)
    requires !m.pc.Idle? && Underway(managed, cfg, w0, m, k, d)
    ensures Underway(managed, cfg, w0, After(cfg, m.world, m.pc, Answered, d), k, d)
  {
    hide Inv, Stage, Smooth, Fresh, After, From, Healthy, Within;
    FreshIsLegal(m.world, m.pc, d);
    CallWithin(managed, cfg, m, k, d, w0);
    HealthyWithin(w0, m.world, k);
    CallStage(managed, cfg, m, k, Answered, d);
    CallSmooth(managed, cfg, m, k, d);
    HealthyWithin(w0, After(cfg, m.world, m.pc, Answered, d).world, k);
    CallFrom(managed, cfg, m, k, d, w0.regs[k]);
    CallIsStep(managed, cfg, m, d);
  }

  lemma CallIsStep(managed: set<string>, cfg: Config, m: Machine, d: Draw)
    requires Inv(managed, m) && !m.pc.Idle? && LegalDraw(m.world, RequestAt(m.pc), Answered, d)
    ensures Inv(managed, After(cfg, m.world, m.pc, Answered, d))
  {
    hide Inv, After;
    StepKeepsInv(managed, cfg, m, Call(Answered, d));
  }

  // It ends without error with its registration settled. Another registration that is woken by the difference it made
  // to a Secret was woken by one of its calls.
  lemma {:induction false} AttemptSettles(managed: set<string>, cfg: Config, w0: State, m: Machine, k: Key, d: Draw)
    requires Underway(managed, cfg, w0, m, k, d)
    ensures var m' := Finish(cfg, m, d);
      m'.pc == Idle(None) && WorldOk(managed, m'.world) && Settled(cfg, m'.world, k) && Within(w0, m'.world, k) &&
      forall j | j in w0.regs && j != k ::
        j in m'.world.regs && (WokenBySecret(m.world, m'.world, j) ==> j in Woken(cfg, m, d))
    decreases Rank(m.pc)
  {
    hide Inv, Stage, Smooth, Fresh, After, From, Healthy, Settled, Rank;
    if m.pc.Idle? {
      Arrived(managed, cfg, w0, m, k, d);
      FinishIdle(cfg, m, d);
    } else {
      StaysUnderway(managed, cfg, w0, m, k, d);
      RankFalls(cfg, m.world, m.pc, Answered, d);
      var next := After(cfg, m.world, m.pc, Answered, d);
      AttemptSettles(managed, cfg, w0, next, k, d);
      FinishStep(cfg, m.world, m.pc, d, next);
      var w' := Finish(cfg, m, d).world;
      forall j | j in w0.regs && j != k
        ensures j in w'.regs && (WokenBySecret(m.world, w', j) ==> j in Woken(cfg, m, d))
      {
        assert next.world.regs[j] == w0.regs[j] == w'.regs[j];
        WakesAdd(m.world, next.world, w', j);
      }
    }
  }

  lemma Arrived(managed: set<string>, cfg: Config, w0: State, m: Machine, k: Key, d: Draw)
    requires m.pc.Idle? && Underway(managed, cfg, w0, m, k, d)
    ensures m.pc == Idle(None) && WorldOk(managed, m.world) && Settled(cfg, m.world, k)
    ensures forall j | j in w0.regs && j != k :: j in m.world.regs && !WokenBySecret(m.world, m.world, j)
  {
    hide Settled, WorldOk, ByConsumer;
  }

  lemma WakesAdd(w: State, next: State, w': State, j: Key)
    requires j in next.regs && j in w'.regs && next.regs[j] == w'.regs[j]
    ensures WokenBySecret(w, w', j) ==> WokenBySecret(next, w', j) || j in Wakes(w, next)
  {
    hide ResolvedKey, UpdatePasses;
  }
}
