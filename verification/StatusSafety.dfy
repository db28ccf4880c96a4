// What the status conditions of a registration promise, over whole runs.
module StatusSafety {
  import opened Wrappers
  import opened GoStrings
  import opened Base64
  import opened Domain
  import opened Registry
  import opened Mapper
  import opened Cluster
  import opened World
  import opened Worker
  import opened Invariant
  import opened Steps
  import opened Accounting

  // Completed is never claimed without published credentials.
  predicate Consistent(status: Status) {
    IsTrue(status, COMPLETED) ==> IsTrue(status, PUBLISHED)
  }

  // The patch in flight sets one condition for the generation in memory, or only the Secret name.
  ghost predicate SetsOne(base: Reg, patched: Reg) {
    patched.status.conditions == base.status.conditions ||
    exists c: Condition :: c.observedGeneration == base.generation &&
      patched.status.conditions == SetStatusCondition(base.status.conditions, c)
  }

  // The patch withdraws CredentialsPublished and leaves Completed alone.
  predicate Withdraws(base: Reg, patched: Reg) {
    !IsTrue(patched.status, PUBLISHED) && (IsTrue(patched.status, COMPLETED) <==> IsTrue(base.status, COMPLETED))
  }

  // What the patch in flight is about.
  ghost predicate PatchMeans(pc: Pc) {
    pc.Patching? ==>
      SetsOne(pc.base, pc.patched) &&
      match pc.next
      case ClearedRef(_) => pc.patched.status.conditions == pc.base.status.conditions
      case ResolvedRef(_, _) => pc.patched.status.conditions == pc.base.status.conditions
      case InvalidPublished(_) => Withdraws(pc.base, pc.patched)
      case SecretUnpublished(_) => Withdraws(pc.base, pc.patched)
      case GiveUp(_) => !IsTrue(pc.patched.status, COMPLETED)
      case Published => IsTrue(pc.patched.status, PUBLISHED)
      case Succeeded => IsTrue(pc.patched.status, PUBLISHED)
  }

  lemma ConditionSet(obj: Reg, ctype: string, isTrue: bool, reason: string, message: string)
    requires ConditionsOk(obj.status.conditions, obj.generation)
    ensures var status := WithCondition(obj, ctype, isTrue, reason, message);
      (IsTrue(status, ctype) <==> isTrue) && forall t | t != ctype :: IsTrue(status, t) <==> IsTrue(obj.status, t)
    ensures SetsOne(obj, obj.(status := WithCondition(obj, ctype, isTrue, reason, message)))
  {
    var c := Condition(ctype, isTrue, reason, message, obj.generation);
    SetConditionOk(obj.status.conditions, c, obj.generation);
    assert c.observedGeneration == obj.generation &&
           WithCondition(obj, ctype, isTrue, reason, message).conditions ==
           SetStatusCondition(obj.status.conditions, c);
  }

  // Reporting a failure: Completed is, or is about to be, false.
  ghost predicate Denies(pc: Pc, obj: Reg) {
    PatchMeans(pc) &&
    if pc.Patching? then pc.base == obj && pc.next.GiveUp? else pc.Idle? && !IsTrue(obj.status, COMPLETED)
  }

  lemma RegistrationFailedMeans(obj: Reg, error: string)
    requires ConditionsOk(obj.status.conditions, obj.generation)
    ensures Denies(RegistrationFailed(obj, error), obj)
  {
    hide SetStatusCondition, ConditionsOk, SetsOne, IsTrue, WithCondition;
    ConditionSet(obj, COMPLETED, false, "RegistrationFailed", error);
  }

  lemma BlockMeans(obj: Reg, error: string)
    requires ConditionsOk(obj.status.conditions, obj.generation)
    ensures Denies(Block(obj, error), obj)
  {
    hide SetStatusCondition, ConditionsOk, SetsOne, IsTrue, WithCondition;
    ConditionSet(obj, COMPLETED, false, "Blocked", "Registration is blocked until Secret reconciliation succeeds");
  }

  lemma InvalidCompletedMeans(obj: Reg, error: string)
    requires ConditionsOk(obj.status.conditions, obj.generation)
    ensures Denies(InvalidCompletedPc(obj, error), obj)
  {
    hide SetStatusCondition, ConditionsOk, SetsOne, IsTrue, WithCondition;
    ConditionSet(obj, COMPLETED, false, "InvalidSpec",
      "Registration is blocked because the resource specification is invalid");
  }

  lemma SecretFailedMeans(obj: Reg, error: string)
    requires ConditionsOk(obj.status.conditions, obj.generation)
    ensures PatchMeans(SecretFailed(obj, error))
  {
    hide SetStatusCondition, ConditionsOk, SetsOne, IsTrue, WithCondition, Block;
    ConditionSet(obj, PUBLISHED, false, "SecretReconcileFailed", error);
    BlockMeans(obj, error);
  }

  lemma InvalidSpecMeans(obj: Reg, error: string)
    requires ConditionsOk(obj.status.conditions, obj.generation)
    ensures PatchMeans(InvalidSpec(obj, error)) && PatchMeans(InvalidPublishedPc(obj, error))
  {
    hide SetStatusCondition, ConditionsOk, IsTrue, WithCondition, InvalidCompletedPc;
    ConditionSet(obj, PUBLISHED, false, "InvalidSpec", error);
    InvalidCompletedMeans(obj, error);
  }

  lemma SucceedMeans(obj: Reg)
    requires ConditionsOk(obj.status.conditions, obj.generation) && IsTrue(obj.status, PUBLISHED)
    ensures PatchMeans(Succeed(obj))
  {
    hide SetStatusCondition, ConditionsOk, SetsOne, IsTrue, WithCondition;
    assert |PUBLISHED| == 20 && |COMPLETED| == 9;
    ConditionSet(obj, COMPLETED, true, "RegistrationSucceeded", "Service registration was reconciled successfully");
  }

  lemma PublishMeans(obj: Reg)
    requires ConditionsOk(obj.status.conditions, obj.generation)
    ensures PatchMeans(Publish(obj))
  {
    hide SetStatusCondition, ConditionsOk, SetsOne, IsTrue, WithCondition, Succeed;
    ConditionSet(obj, PUBLISHED, true, "SecretReconciled", "Credentials Secret is ready");
    if IsTrue(obj.status, PUBLISHED) { SucceedMeans(obj); }
  }

  lemma BeginMeans(obj: Reg)
    requires ConditionsOk(obj.status.conditions, obj.generation)
    ensures PatchMeans(Begin(obj))
  {
    hide InvalidSpec, PatchMeans, ConditionsOk;
    if ResolveSecretName(obj).Err? { InvalidSpecMeans(obj, ResolveSecretName(obj).error); }
    else { NoPatchMeans(Begin(obj)); }
  }

  lemma NoPatchMeans(pc: Pc)
    requires !pc.Patching?
    ensures PatchMeans(pc)
  {
  }

  lemma AfterPatchMeans(obj: Reg, next: Then)
    requires ConditionsOk(obj.status.conditions, obj.generation) && (next.Published? ==> IsTrue(obj.status, PUBLISHED))
    ensures PatchMeans(AfterPatch(obj, next))
  {
    hide InvalidPublishedPc, InvalidCompletedPc, Block, Succeed, PatchMeans, ConditionsOk;
    match next
    case ClearedRef(e) => InvalidSpecMeans(obj, e);
    case InvalidPublished(e) => InvalidCompletedMeans(obj, e);
    case SecretUnpublished(e) => BlockMeans(obj, e);
    case Published => SucceedMeans(obj);
    case _ => NoPatchMeans(AfterPatch(obj, next));
  }

  lemma StartMeans(managed: set<string>, cfg: Config, w: State, pc: Pc, o: Outcome, d: Draw)
    requires RegsOk(managed, w) && (pc.Loading? || pc.Finalizing?)
    ensures PatchMeans(After(cfg, w, pc, o, d).pc)
  {
    hide After, Begin, PatchMeans, BeginDeletion, ConditionsOk;
    if pc.Loading? {
      AtLoading(cfg, w, pc, o, d);
      if pc.key in w.regs { BeginMeans(w.regs[pc.key]); }
    } else {
      AtFinalizing(cfg, w, pc, o, d);
      if pc.obj.Id() in w.regs && w.regs[pc.obj.Id()] == pc.obj { BeginMeans(AddFinalizer(pc.obj)); }
    }
    if !After(cfg, w, pc, o, d).pc.Patching? { NoPatchMeans(After(cfg, w, pc, o, d).pc); }
  }

  lemma UpsertMeans(cfg: Config, w: State, pc: Pc, o: Outcome, d: Draw)
    requires pc.ReadingData? || pc.Listing? || pc.Generating? || pc.ReadingFqdn? || pc.Writing? || pc.ReadingFqdnAgain?
    requires ConditionsOk(pc.job.obj.status.conditions, pc.job.obj.generation)
    ensures PatchMeans(After(cfg, w, pc, o, d).pc)
  {
    hide After, RegistrationFailed, ConditionsOk, BuildServicePayload, BuildRegistrationResult, Encode,
         FindServiceByConsumer, IsTrue,
         ValidateRegistration, ClientSecret, Denies, PatchMeans;
    var pc' := After(cfg, w, pc, o, d).pc;
    if pc.ReadingData? { AtReadingData(cfg, w, pc, o, d); }
    else if pc.Listing? { AtListing(cfg, w, pc, o, d); }
    else if pc.Generating? { AtGenerating(cfg, w, pc, o, d); }
    else if pc.ReadingFqdn? { AtReadingFqdn(cfg, w, pc, o, d); }
    else if pc.Writing? { AtWriting(cfg, w, pc, o, d); }
    else { AtReadingFqdnAgain(cfg, w, pc, o, d); }
    if !pc'.Patching? {
      NoPatchMeans(pc');
    } else if pc'.next.ResolvedRef? {
      RefPatchMeans(pc');
    } else {
      FailureMeans(pc.job.obj, pc'.next.error);
    }
  }

  lemma FailureMeans(obj: Reg, error: string)
    requires ConditionsOk(obj.status.conditions, obj.generation)
    ensures PatchMeans(RegistrationFailed(obj, error))
  {
    hide RegistrationFailed, ConditionsOk, PatchMeans;
    RegistrationFailedMeans(obj, error);
  }

  lemma RefPatchMeans(pc: Pc)
    requires pc.Patching? && pc.next.ResolvedRef? && pc.patched.status.conditions == pc.base.status.conditions
    ensures PatchMeans(pc)
  {
  }

  lemma PatchingMeans(cfg: Config, w: State, pc: Pc, o: Outcome, d: Draw)
    requires pc.Patching? && PatchMeans(pc) && Anchored(w, pc.base) && PatchOk(pc.base, pc.patched, pc.next)
    ensures PatchMeans(After(cfg, w, pc, o, d).pc)
  {
    hide After, AfterPatch, IsTrue, SetStatusCondition;
    var obj := w.regs[pc.base.Id()].(status := pc.patched.status);
    AtPatching(cfg, w, pc, o, d);
    LaterGeneration(pc.patched.status.conditions, pc.patched.generation, obj.generation);
    AfterPatchMeans(obj, pc.next);
    NoPatchMeans(AfterFailedPatch(pc.next, if o.Answered? then "" else o.error));
  }

  lemma LaterGeneration(conditions: seq<Condition>, g: nat, g': nat)
    requires ConditionsOk(conditions, g) && g <= g'
    ensures ConditionsOk(conditions, g')
  {
  }

  lemma CleanUpMeans(job: Job)
    requires ConditionsOk(job.obj.status.conditions, job.obj.generation)
    ensures PatchMeans(CleanUp(job))
  {
    hide Publish, ConditionsOk, TrimSpace;
    PublishMeans(job.obj);
  }

  lemma SecretReadMeans(job: Job, result: RegistrationResult, current: Secret)
    requires ConditionsOk(job.obj.status.conditions, job.obj.generation)
    ensures PatchMeans(SecretRead(job, result, current))
  {
    hide SecretFailed, CleanUp, ConditionsOk, Merge, BuildDesiredSecret, PatchMeans;
    SecretFailedMeans(job.obj, "already owned");
    CleanUpMeans(job);
    if SecretRead(job, result, current).UpdatingSecret? { NoPatchMeans(SecretRead(job, result, current)); }
  }

  lemma SecretStepMeans(cfg: Config, w: State, pc: Pc, o: Outcome, d: Draw)
    requires pc.ReadingSecret? || pc.CreatingSecret? || pc.UpdatingSecret?
    requires ConditionsOk(pc.job.obj.status.conditions, pc.job.obj.generation)
    ensures PatchMeans(After(cfg, w, pc, o, d).pc)
  {
    hide After, SecretRead, SecretFailed, CleanUp, ConditionsOk, PatchMeans, BuildDesiredSecret;
    var pc' := After(cfg, w, pc, o, d).pc;
    CleanUpMeans(pc.job);
    forall error: string
      ensures PatchMeans(SecretFailed(pc.job.obj, error))
    {
      SecretFailedMeans(pc.job.obj, error);
    }
    if pc.ReadingSecret? {
      AtReadingSecret(cfg, w, pc, o, d);
      if pc.job.Target() in w.secrets { SecretReadMeans(pc.job, pc.result, w.secrets[pc.job.Target()]); }
      if pc'.CreatingSecret? { NoPatchMeans(pc'); }
    } else if pc.CreatingSecret? {
      AtCreatingSecret(cfg, w, pc, o, d);
    } else {
      AtUpdatingSecret(cfg, w, pc, o, d);
    }
  }

  lemma LastStepMeans(cfg: Config, w: State, pc: Pc, o: Outcome, d: Draw)
    requires pc.ReadingPrevious? || pc.DeletingPrevious?
    requires ConditionsOk(pc.job.obj.status.conditions, pc.job.obj.generation)
    ensures PatchMeans(After(cfg, w, pc, o, d).pc)
  {
    hide After, Publish, ConditionsOk, PatchMeans;
    var pc' := After(cfg, w, pc, o, d).pc;
    PublishMeans(pc.job.obj);
    if pc.ReadingPrevious? { AtReadingPrevious(cfg, w, pc, o, d); } else { AtDeletingPrevious(cfg, w, pc, o, d); }
    if !pc'.Patching? { NoPatchMeans(pc'); }
  }

  lemma DeletionMeans(cfg: Config, w: State, pc: Pc, o: Outcome, d: Draw)
    requires pc.ListingForDelete? || pc.DeletingService? || pc.Unfinalizing?
    ensures PatchMeans(After(cfg, w, pc, o, d).pc)
  {
    hide After, ListedForDelete;
    if pc.ListingForDelete? { AtListingForDelete(cfg, w, pc, o, d); }
    else if pc.DeletingService? { AtDeletingService(cfg, w, pc, o, d); }
    else { AtUnfinalizing(cfg, w, pc, o, d); }
  }

  lemma CallMeans(managed: set<string>, cfg: Config, m: Machine, o: Outcome, d: Draw)
    requires Inv(managed, m) && !m.pc.Idle? && PatchMeans(m.pc)
    ensures PatchMeans(After(cfg, m.world, m.pc, o, d).pc)
  {
    hide After, PatchMeans, ConditionsOk, FindingsOk, ServicesOk, SecretsOk;
    var w, pc := m.world, m.pc;
    if pc.Loading? || pc.Finalizing? { StartMeans(managed, cfg, w, pc, o, d); }
    else if pc.Patching? { PatchingMeans(cfg, w, pc, o, d); }
    else if pc.ReadingSecret? || pc.CreatingSecret? || pc.UpdatingSecret? { SecretStepMeans(cfg, w, pc, o, d); }
    else if pc.ReadingPrevious? || pc.DeletingPrevious? { LastStepMeans(cfg, w, pc, o, d); }
    else if pc.ListingForDelete? || pc.DeletingService? || pc.Unfinalizing? { DeletionMeans(cfg, w, pc, o, d); }
    else { UpsertMeans(cfg, w, pc, o, d); }
  }

  // ---- Completed implies CredentialsPublished ----

  // The patch that is to make Completed false for this registration is under way.
  ghost predicate Denying(pc: Pc, k: Key) {
    pc.Patching? && pc.base.Id() == k && pc.next.GiveUp?
  }

  ghost predicate Steady(m: Machine, k: Key) {
    k in m.world.regs ==> Consistent(m.world.regs[k].status) || Denying(m.pc, k)
  }

  // The steps that leave Completed standing without published credentials: while Completed is true, the answer to the
  // patch that withdraws CredentialsPublished is lost; or the patch of Completed that is to follow it does not take
  // effect.
  predicate StatusFault(m: Machine, e: Event, k: Key) {
    m.pc.Patching? && m.pc.base.Id() == k &&
    match m.pc.next
    case InvalidPublished(_) => e.Call? && e.outcome.Lost? && IsTrue(m.pc.base.status, COMPLETED)
    case SecretUnpublished(_) => e.Call? && e.outcome.Lost? && IsTrue(m.pc.base.status, COMPLETED)
    case GiveUp(_) => !Consistent(m.pc.base.status) && (e.Crash? || (e.Call? && e.outcome.Refused?))
    case _ => false
  }

  predicate NoStatusFault(cfg: Config, m: Machine, es: seq<Event>, k: Key)
    decreases |es|
  {
    es == [] || (!StatusFault(m, es[0], k) && NoStatusFault(cfg, Step(cfg, m, es[0]), es[1..], k))
  }

  // What a patch makes of its own registration.
  lemma PatchSteady(cfg: Config, w: State, pc: Pc, o: Outcome, d: Draw)
    requires pc.Patching? && PatchMeans(pc) && Anchored(w, pc.base) && PatchOk(pc.base, pc.patched, pc.next)
    requires w.regs[pc.base.Id()].Id() == pc.base.Id() && Steady(Machine(w, pc), pc.base.Id())
    ensures Steady(After(cfg, w, pc, o, d), pc.base.Id()) <==> !StatusFault(Machine(w, pc), Call(o, d), pc.base.Id())
  {
    hide After, SetStatusCondition, IsTrue, SetsOne, Block, InvalidCompletedPc, InvalidPublishedPc, Succeed;
    AtPatching(cfg, w, pc, o, d);
    var obj := w.regs[pc.base.Id()].(status := pc.patched.status);
    LaterGeneration(pc.patched.status.conditions, pc.patched.generation, obj.generation);
    SameConditions(pc.base.status, pc.patched.status);
    match pc.next
    case InvalidPublished(e) => InvalidCompletedMeans(obj, e);
    case SecretUnpublished(e) => BlockMeans(obj, e);
    case _ =>
  }

  lemma SameConditions(a: Status, b: Status)
    ensures a.conditions == b.conditions ==> Consistent(a) == Consistent(b)
  {
  }

  lemma UserSteady(managed: set<string>, m: Machine, a: UserAct, k: Key)
    requires Inv(managed, m) && LegalUser(managed, m.world, a) && Steady(m, k)
    ensures Steady(m.(world := Apply(m.world, a)), k)
  {
    hide FindingsOk, ConditionsOk, ServicesOk, SecretsOk, PcOk;
  }

  lemma CallSteady(managed: set<string>, cfg: Config, m: Machine, o: Outcome, d: Draw, k: Key)
    requires Inv(managed, m) && !m.pc.Idle? && PatchMeans(m.pc) && Steady(m, k)
    ensures Steady(After(cfg, m.world, m.pc, o, d), k) <==> !StatusFault(m, Call(o, d), k)
  {
    hide After, Serve, PatchMeans, Consistent, FindingsOk, ConditionsOk, ServicesOk, SecretsOk;
    var m' := After(cfg, m.world, m.pc, o, d);
    WorldAfter(cfg, m.world, m.pc, o, d);
    if m.pc.Patching? && m.pc.base.Id() == k {
      PatchSteady(cfg, m.world, m.pc, o, d);
    } else if k in m'.world.regs {
      RegAfterKey(managed, m, o, d, k);
    }
  }

  lemma CrashSteady(managed: set<string>, cfg: Config, m: Machine, k: Key)
    requires Inv(managed, m) && Steady(m, k)
    ensures Steady(Step(cfg, m, Crash), k) <==> !StatusFault(m, Crash, k)
  {
    hide After, IsTrue, FindingsOk, ConditionsOk, ServicesOk, SecretsOk;
    if m.pc.Patching? { SameConditions(m.pc.base.status, m.world.regs[m.pc.base.Id()].status); }
  }

  // A step leaves a registration with Completed but without CredentialsPublished, and no patch under way that corrects
  // it, if and only if it is a status fault of that registration.
  lemma UnsteadyIffFault(managed: set<string>, cfg: Config, m: Machine, e: Event, k: Key)
    requires Inv(managed, m) && Legal(managed, m, e) && PatchMeans(m.pc) && Steady(m, k)
    ensures PatchMeans(Step(cfg, m, e).pc) && (Steady(Step(cfg, m, e), k) <==> !StatusFault(m, e, k))
  {
    hide After, Serve, IsTrue, SetsOne, PatchMeans, Apply, Inv, LegalUser, StatusFault, Steady;
    StepKeepsMeaning(managed, cfg, m, e);
    match e
    case User(a) => UserSteady(managed, m, a, k); NoFault(m, e, k);
    case Call(o, d) => if m.pc.Idle? { NoFault(m, e, k); } else { CallSteady(managed, cfg, m, o, d, k); }
    case Start(key) => NoFault(m, e, k); if m.pc.Idle? { IdleSteady(m, Loading(key), k); }
    case Crash => CrashSteady(managed, cfg, m, k);
  }

  lemma NoFault(m: Machine, e: Event, k: Key)
    requires e.User? || e.Start? || m.pc.Idle?
    ensures !StatusFault(m, e, k)
  {
  }

  lemma IdleSteady(m: Machine, pc: Pc, k: Key)
    requires m.pc.Idle? && Steady(m, k)
    ensures Steady(m.(pc := pc), k)
  {
    hide Consistent;
  }

  lemma StepKeepsMeaning(managed: set<string>, cfg: Config, m: Machine, e: Event)
    requires Inv(managed, m) && Legal(managed, m, e) && PatchMeans(m.pc)
    ensures PatchMeans(Step(cfg, m, e).pc)
  {
    hide Inv, PatchMeans, Serve, Resume, LegalUser, Apply;
    match e
    case Call(o, d) => if !m.pc.Idle? { CallMeans(managed, cfg, m, o, d); }
    case Start(k) => NoPatchMeans(Loading(k));
    case Crash => NoPatchMeans(Idle(Some("crashed")));
    case User(_) =>
  }

  // Between reconciles of a run without a status fault of a registration, its Completed implies its
  // CredentialsPublished.
  lemma {:induction false} CompletedIsPublished(managed: set<string>, cfg: Config, m: Machine, es: seq<Event>, k: Key)
    requires Inv(managed, m) && LegalRun(cfg, managed, m, es) && PatchMeans(m.pc) && Steady(m, k) &&
             NoStatusFault(cfg, m, es, k)
    ensures var m' := Run(cfg, m, es);
      Steady(m', k) && (m'.pc.Idle? && k in m'.world.regs ==> Consistent(m'.world.regs[k].status))
    decreases |es|
  {
    hide Inv, Step, Legal, StatusFault, PatchMeans, Consistent;
    if es != [] {
      StepKeepsInv(managed, cfg, m, es[0]);
      UnsteadyIffFault(managed, cfg, m, es[0], k);
      CompletedIsPublished(managed, cfg, Step(cfg, m, es[0]), es[1..], k);
    }
  }

  // Every fault shows as soon as the reconcile has ended, which it has: Completed without published credentials.
  lemma StatusFaultShows(managed: set<string>, cfg: Config, m: Machine, e: Event, k: Key)
    requires Inv(managed, m) && Legal(managed, m, e) && PatchMeans(m.pc) && Steady(m, k) && StatusFault(m, e, k)
    ensures var m' := Step(cfg, m, e);
      m'.pc.Idle? && k in m'.world.regs && IsTrue(m'.world.regs[k].status, COMPLETED) &&
      !IsTrue(m'.world.regs[k].status, PUBLISHED)
  {
    hide After, IsTrue, PatchMeans, Inv, Legal;
    UnsteadyIffFault(managed, cfg, m, e, k);
    FaultEnds(managed, cfg, m, e, k);
  }

  lemma FaultEnds(managed: set<string>, cfg: Config, m: Machine, e: Event, k: Key)
    requires Inv(managed, m) && StatusFault(m, e, k)
    ensures Step(cfg, m, e).pc.Idle?
  {
    hide After, IsTrue, ConditionsOk, FindingsOk, WorldOk, Consistent;
    if e.Call? { AtPatching(cfg, m.world, m.pc, e.outcome, e.draw); }
  }

  // ---- Observed generations ----

  // No condition claims a generation the object has not reached, and there is one condition of each type.
  lemma ConditionsAlwaysOk(managed: set<string>, cfg: Config, m: Machine, es: seq<Event>, k: Key)
    requires Inv(managed, m) && LegalRun(cfg, managed, m, es) && k in Run(cfg, m, es).world.regs
    ensures var reg := Run(cfg, m, es).world.regs[k];
      (forall i, j | 0 <= i < j < |reg.status.conditions| ::
        reg.status.conditions[i].ctype != reg.status.conditions[j].ctype) &&
      (forall i | 0 <= i < |reg.status.conditions| :: reg.status.conditions[i].observedGeneration <= reg.generation)
  {
    RunKeepsInv(managed, cfg, m, es);
  }

  // A condition is never gone and never goes back to an older generation.
  ghost predicate NotOlder(before: seq<Condition>, after: seq<Condition>) {
    forall c | c in before :: HasNewer(after, c)
  }

  ghost predicate HasNewer(conditions: seq<Condition>, c: Condition) {
    exists c' | c' in conditions :: c'.ctype == c.ctype && c.observedGeneration <= c'.observedGeneration
  }

  lemma SetIsNotOlder(conditions: seq<Condition>, c: Condition, generation: nat)
    requires ConditionsOk(conditions, generation) && c.observedGeneration == generation
    ensures NotOlder(conditions, SetStatusCondition(conditions, c))
  {
    SetConditionOk(conditions, c, generation);
    forall b | b in conditions
      ensures HasNewer(SetStatusCondition(conditions, c), b)
    {
      if b.ctype == c.ctype {
        assert c in SetStatusCondition(conditions, c);
      } else {
        assert b in SetStatusCondition(conditions, c);
      }
    }
  }

  lemma SameIsNotOlder(conditions: seq<Condition>)
    ensures NotOlder(conditions, conditions)
  {
  }

  lemma CallIsNotOlder(managed: set<string>, cfg: Config, m: Machine, o: Outcome, d: Draw, k: Key)
    requires Inv(managed, m) && PatchMeans(m.pc) && k in m.world.regs && k in Step(cfg, m, Call(o, d)).world.regs
    ensures NotOlder(m.world.regs[k].status.conditions, Step(cfg, m, Call(o, d)).world.regs[k].status.conditions)
  {
    hide Serve, Resume, NotOlder, FindingsOk, ServicesOk, SecretsOk, SetStatusCondition;
    SameIsNotOlder(m.world.regs[k].status.conditions);
    if !m.pc.Idle? {
      RegAfterInv(managed, m, o, d, k);
      if m.pc.Patching? && m.pc.base.Id() == k {
        PatchIsNotOlder(m.pc.base, m.pc.patched);
      }
    }
  }

  lemma StepIsNotOlder(managed: set<string>, cfg: Config, m: Machine, e: Event, k: Key)
    requires Inv(managed, m) && PatchMeans(m.pc) && Legal(managed, m, e)
    requires k in m.world.regs && k in Step(cfg, m, e).world.regs
    ensures NotOlder(m.world.regs[k].status.conditions, Step(cfg, m, e).world.regs[k].status.conditions)
  {
    hide After, NotOlder, PatchMeans, Apply, LegalUser;
    match e
    case User(a) =>
      UserKeepsPointer(managed, m.world, a, k);
      SameIsNotOlder(m.world.regs[k].status.conditions);
    case Call(o, d) => CallIsNotOlder(managed, cfg, m, o, d, k);
    case _ => SameIsNotOlder(m.world.regs[k].status.conditions);
  }

  lemma PatchIsNotOlder(base: Reg, patched: Reg)
    requires SetsOne(base, patched) && ConditionsOk(base.status.conditions, base.generation)
    ensures NotOlder(base.status.conditions, patched.status.conditions)
  {
    if patched.status.conditions != base.status.conditions {
      var c: Condition :| c.observedGeneration == base.generation &&
                          patched.status.conditions == SetStatusCondition(base.status.conditions, c);
      SetIsNotOlder(base.status.conditions, c, base.generation);
    } else {
      SameIsNotOlder(base.status.conditions);
    }
  }

  lemma {:induction false} RunKeepsMeaning(managed: set<string>, cfg: Config, m: Machine, es: seq<Event>)
    requires Inv(managed, m) && LegalRun(cfg, managed, m, es) && PatchMeans(m.pc)
    ensures PatchMeans(Run(cfg, m, es).pc)
    decreases |es|
  {
    hide Inv, PatchMeans, Step, Legal;
    if es != [] {
      StepKeepsInv(managed, cfg, m, es[0]);
      StepKeepsMeaning(managed, cfg, m, es[0]);
      RunKeepsMeaning(managed, cfg, Step(cfg, m, es[0]), es[1..]);
    }
  }

  // At no step of any run does a stored registration lose a condition or report an older generation than before.
  lemma GenerationsNeverFall(managed: set<string>, cfg: Config, start: Machine, es: seq<Event>, e: Event, k: Key)
    requires Inv(managed, start) && PatchMeans(start.pc) && LegalRun(cfg, managed, start, es) &&
      Legal(managed, Run(cfg, start, es), e)
    requires var m := Run(cfg, start, es); k in m.world.regs && k in Step(cfg, m, e).world.regs
    ensures var m := Run(cfg, start, es);
      NotOlder(m.world.regs[k].status.conditions, Step(cfg, m, e).world.regs[k].status.conditions)
  {
    hide Inv, PatchMeans, Run, LegalRun, Step, Legal, NotOlder;
    RunKeepsInv(managed, cfg, start, es);
    RunKeepsMeaning(managed, cfg, start, es);
    StepIsNotOlder(managed, cfg, Run(cfg, start, es), e, k);
  }
}
