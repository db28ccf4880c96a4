// When every call is answered, the reconcile of a healthy registration ends without error, settles it, and touches
// nothing that is not its own.
module Health {
  import opened GoStrings
  import opened Domain
  import opened CasTypes
  import opened Registry
  import opened Mapper
  import opened Cluster
  import opened World
  import opened Worker
  import opened Invariant
  import opened Steps
  import opened FixedPoint
  import opened Success

  // What stands in the way of no reconcile: the fqdn is known, the spec is valid, an existing Secret of the resolved
  // name has the type the operator writes, and one of the generated name is not controlled by an object of another kind
  // or name.
  predicate Healthy(w: State, reg: Reg) {
    w.fqdn.Some? && ValidateRegistration(FromAuthRegistration(reg)).None? && ResolveSecretName(reg).Ok? &&
    MayWrite(w, reg, ResolveSecretName(reg).value.0, ResolveSecretName(reg).value.1)
  }

  predicate MayWrite(w: State, reg: Reg, name: string, managed: bool) {
    var sk := Key(reg.namespace, name);
    sk in w.secrets ==> w.secrets[sk].stype == OPAQUE && (managed ==> SetControllerReference(reg, w.secrets[sk]).Ok?)
  }

  predicate BeforeWrite(pc: Pc) {
    pc.Loading? || pc.Finalizing? || pc.ReadingData? || pc.Listing? || pc.Generating? || pc.ReadingFqdn? || pc.Writing?
  }

  // A draw that stays legal until the service is written.
  predicate Fresh(w: State, pc: Pc, d: Draw) {
    |d.bytes| == 32 && (BeforeWrite(pc) ==> d.id != 0 && Int64(d.id) && d.id !in Ids(w.services))
  }

  // Nothing is in the way at this point.
  predicate Smooth(w: State, pc: Pc) {
    match pc
    case Idle(returned) => returned.None?
    case Finalizing(obj) => obj.Id() in w.regs && w.regs[obj.Id()] == obj
    case Patching(_, _, next) => !Reporting(next)
    case CreatingSecret(job, _) => job.Target() !in w.secrets
    case UpdatingSecret(job, read, _) =>
      job.Target() in w.secrets && w.secrets[job.Target()] == read && read.stype == OPAQUE
    case DeletingPrevious(job, seen) => job.Previous() in w.secrets && w.secrets[job.Previous()] == seen &&
      IsControlledBy(seen, job.obj)
    case _ => true
  }

  lemma FreshIsLegal(w: State, pc: Pc, d: Draw)
    requires !pc.Idle? && Fresh(w, pc, d)
    ensures LegalDraw(w, RequestAt(pc), Answered, d)
  {
  }

  // ---- One step ----

  lemma SucceedSmooth(w: State, obj: Reg)
    ensures Smooth(w, Succeed(obj)) && Smooth(w, Publish(obj))
    ensures forall job :: Smooth(w, CleanUp(job))
  {
    forall job: Job
      ensures Smooth(w, CleanUp(job))
    {
      PublishSmooth(w, job.obj);
      hide TrimSpace, Publish;
    }
    PublishSmooth(w, obj);
  }

  lemma PublishSmooth(w: State, obj: Reg)
    ensures Smooth(w, Succeed(obj)) && Smooth(w, Publish(obj))
  {
    hide WithCondition;
  }

  lemma BeginSmooth(w: State, obj: Reg)
    requires ResolveSecretName(obj).Ok?
    ensures Smooth(w, Begin(obj)) && Begin(obj).ReadingData?
  {
  }

  lemma LoadSmooth(cfg: Config, w: State, k: Key, pc: Pc, d: Draw)
    requires (pc.Loading? || pc.Finalizing?) && Stage(cfg, w, k, pc) && Healthy(w, w.regs[k])
    requires Smooth(w, pc) && w.regs[k].Id() == k
    ensures var m' := After(cfg, w, pc, Answered, d); Smooth(m'.world, m'.pc) && m'.world.services == w.services
  {
    hide After, Begin, BeginDeletion, ConditionsOk, Settled, ValidateRegistration;
    if pc.Loading? {
      AtLoading(cfg, w, pc, Answered, d);
      BeginSmooth(w, w.regs[k]);
    } else {
      AtFinalizing(cfg, w, pc, Answered, d);
      BeginSmooth(w, AddFinalizer(pc.obj));
    }
  }

  lemma ReadSmooth(managed: set<string>, cfg: Config, w: State, k: Key, pc: Pc, d: Draw)
    requires (pc.ReadingData? || pc.Listing? || pc.Generating? || pc.ReadingFqdn?) && Stage(cfg, w, k, pc) &&
      Healthy(w, w.regs[k])
    requires ServicesOk(managed, w.services) && LocalsOk(managed, pc)
    ensures var m' := After(cfg, w, pc, Answered, d); Smooth(m'.world, m'.pc) && m'.world.services == w.services
  {
    hide After, ConditionsOk, ByConsumer, RegistrationFailed, BuildServicePayload, ClientSecret, ValidateRegistration;
    if pc.ReadingData? { AtReadingData(cfg, w, pc, Answered, d); }
    else if pc.Listing? { AtListing(cfg, w, pc, Answered, d); }
    else if pc.Generating? { AtGenerating(cfg, w, pc, Answered, d); }
    else { AtReadingFqdn(cfg, w, pc, Answered, d); }
  }

  lemma UpsertSmooth(cfg: Config, w: State, k: Key, pc: Pc, d: Draw)
    requires (pc.Writing? || pc.ReadingFqdnAgain?) && Stage(cfg, w, k, pc) && Healthy(w, w.regs[k])
    ensures var m' := After(cfg, w, pc, Answered, d); Smooth(m'.world, m'.pc) && !BeforeWrite(m'.pc)
  {
    hide After, ConditionsOk, ByConsumer, BuildRegistrationResult;
    if pc.Writing? { AtWriting(cfg, w, pc, Answered, d); } else { AtReadingFqdnAgain(cfg, w, pc, Answered, d); }
  }

  lemma PatchSmooth(managed: set<string>, cfg: Config, w: State, pc: Pc, d: Draw)
    requires pc.Patching? && Smooth(w, pc) && PcOk(managed, w, pc)
    ensures var m' := After(cfg, w, pc, Answered, d); Smooth(m'.world, m'.pc) && !BeforeWrite(m'.pc)
  {
    hide After, Succeed, Block, InvalidCompletedPc, InvalidPublishedPc, ConditionsOk;
    AtPatching(cfg, w, pc, Answered, d);
    SucceedSmooth(After(cfg, w, pc, Answered, d).world, w.regs[pc.base.Id()].(status := pc.patched.status));
  }

  lemma ReadSecretSmooth(cfg: Config, w: State, k: Key, pc: Pc, d: Draw)
    requires pc.ReadingSecret? && Stage(cfg, w, k, pc) && Healthy(w, w.regs[k]) && SecretsOk(w)
    ensures var m' := After(cfg, w, pc, Answered, d); Smooth(m'.world, m'.pc) && !BeforeWrite(m'.pc)
  {
    hide After, ConditionsOk, CleanUp, SecretFailed, GetRegistrationData, Success.Result, ValidateRegistration, Succeed,
         Publish, ByConsumer;
    SucceedSmooth(w, pc.job.obj);
    AtReadingSecret(cfg, w, pc, Answered, d);
  }

  lemma WriteSecretSmooth(managed: set<string>, cfg: Config, w: State, pc: Pc, d: Draw)
    requires (pc.CreatingSecret? || pc.UpdatingSecret?) && Smooth(w, pc) && LocalsOk(managed, pc)
    ensures var m' := After(cfg, w, pc, Answered, d); Smooth(m'.world, m'.pc) && !BeforeWrite(m'.pc)
  {
    hide After, CleanUp, SecretFailed, DataWritten;
    SucceedSmooth(After(cfg, w, pc, Answered, d).world, pc.job.obj);
    if pc.CreatingSecret? {
      AtCreatingSecret(cfg, w, pc, Answered, d);
    } else {
      AtUpdatingSecret(cfg, w, pc, Answered, d);
    }
  }

  lemma CleanUpSmooth(cfg: Config, w: State, pc: Pc, d: Draw)
    requires (pc.ReadingPrevious? || pc.DeletingPrevious?) && Smooth(w, pc)
    ensures var m' := After(cfg, w, pc, Answered, d); Smooth(m'.world, m'.pc) && !BeforeWrite(m'.pc)
  {
    hide After, Publish;
    SucceedSmooth(After(cfg, w, pc, Answered, d).world, pc.job.obj);
    if pc.ReadingPrevious? {
      AtReadingPrevious(cfg, w, pc, Answered, d);
    } else {
      AtDeletingPrevious(cfg, w, pc, Answered, d);
    }
  }

  lemma CallSmooth(managed: set<string>, cfg: Config, m: Machine, k: Key, d: Draw)
    requires Inv(managed, m) && !m.pc.Idle? && Stage(cfg, m.world, k, m.pc) && k in m.world.regs &&
      Healthy(m.world, m.world.regs[k])
    requires Smooth(m.world, m.pc) && Fresh(m.world, m.pc, d)
    ensures var m' := After(cfg, m.world, m.pc, Answered, d); Smooth(m'.world, m'.pc) && Fresh(m'.world, m'.pc, d)
  {
    hide After, RegsOk, FindingsOk, Healthy, Smooth, NextStage, ConditionsOk;
    var w, pc := m.world, m.pc;
    if pc.Loading? || pc.Finalizing? { StoredIsExact(managed, w, k); LoadSmooth(cfg, w, k, pc, d); }
    else if pc.ReadingData? || pc.Listing? || pc.Generating? || pc.ReadingFqdn? {
      ReadSmooth(managed, cfg, w, k, pc, d);
    }
    else if pc.Writing? || pc.ReadingFqdnAgain? { UpsertSmooth(cfg, w, k, pc, d); }
    else if pc.Patching? { PatchSmooth(managed, cfg, w, pc, d); }
    else if pc.ReadingSecret? { ReadSecretSmooth(cfg, w, k, pc, d); }
    else if pc.CreatingSecret? || pc.UpdatingSecret? { WriteSecretSmooth(managed, cfg, w, pc, d); }
    else { CleanUpSmooth(cfg, w, pc, d); }
  }
}
