// A registration with an obstacle: its reconcile, when every call is answered, says so in the status.
module Failures {
  import opened Wrappers
  import opened GoStrings
  import opened Base64
  import opened Domain
  import opened Registry
  import opened Mapper
  import opened Cluster
  import opened World
  import opened Worker
  import opened Invariant
  import opened Steps
  import opened Attempts
  import opened FixedPoint
  import opened Success
  import opened Health
  import opened Hindrance
  import opened Reports

  // Which of the three reports: the first obstacle that the reconcile comes to decides.
  datatype Report = ByRef | ByService | BySecret

  function ReportFor(w: State, k: Key): Report {
    if Hinders(w, k, BadRef) then ByRef
    else if Hinders(w, k, BadSpec) || Hinders(w, k, NoFqdn) then ByService
    else BySecret
  }

  // The reconcile has returned an error, and the status of its registration tells which: no Secret has changed, and no
  // other registration.
  predicate Reported(w: State, m': Machine, k: Key, report: Report)
    requires k in w.regs
  {
    m'.pc.Idle? && m'.pc.returned.Some? && k in m'.world.regs &&
    m'.world.secrets == w.secrets && m'.world.fqdn == w.fqdn && m'.world.regs - {k} == w.regs - {k} &&
    var error, reg := m'.pc.returned.value, m'.world.regs[k];
    match report
    case ByRef =>
      m'.world.services == w.services && reg.status.resolvedSecretRef == "" &&
      Denied(reg, "CredentialsPublished", "InvalidSpec", error) &&
      Denied(reg, "Completed", "InvalidSpec", "Registration is blocked because the resource specification is invalid")
    case ByService =>
      m'.world.services == w.services && reg.status.resolvedSecretRef == w.regs[k].status.resolvedSecretRef &&
      Denied(reg, "Completed", "RegistrationFailed", error)
    case BySecret =>
      ResolvedKey(reg) == Some(Key(reg.namespace, reg.status.resolvedSecretRef)) &&
      Denied(reg, "CredentialsPublished", "SecretReconcileFailed", error) &&
      Denied(reg, "Completed", "Blocked", "Registration is blocked until Secret reconciliation succeeds")
  }

  // ---- On the way to the obstacle ----

  predicate Course(w: State, k: Key, pc: Pc) {
    match pc
    case Loading(_) => true
    case Finalizing(obj) => k in w.regs && w.regs[k] == obj
    case ReadingData(_) => true
    case Listing(_, _) => true
    case Generating(_, _) => true
    case ReadingFqdn(_, _, _) => true
    case Writing(_, _, _, _) => true
    case ReadingFqdnAgain(_, _, _) => true
    case Patching(_, _, next) => next.ResolvedRef?
    case ReadingSecret(_, _) => true
    case UpdatingSecret(_, read, merged) =>
      merged.Id() in w.secrets && w.secrets[merged.Id()] == read && merged.stype != read.stype
    case _ => false
  }

  // The code has come to its obstacle and begins to report it.
  predicate Begins(w: State, k: Key, pc: Pc, report: Report, obj: Reg, error: string) {
    Exact(w, k, obj) &&
    match report
    case ByRef => pc == InvalidSpec(obj, error)
    case ByService => pc == RegistrationFailed(obj, error)
    case BySecret =>
      pc == SecretFailed(obj, error) && ResolvedKey(w.regs[k]) == Some(Key(obj.namespace, obj.status.resolvedSecretRef))
  }

  ghost predicate Stopped(w: State, k: Key, pc: Pc, report: Report) {
    exists obj, error :: Begins(w, k, pc, report, obj, error)
  }

  ghost predicate GoesOn(m: Machine, k: Key, report: Report) {
    Course(m.world, k, m.pc) || Stopped(m.world, k, m.pc, report)
  }

  lemma BeginGoesOn(cfg: Config, w: State, k: Key, obj: Reg)
    requires Exact(w, k, obj)
    ensures GoesOn(Machine(w, Begin(obj)), k, ReportFor(w, k))
  {
    hide ConditionsOk, InvalidSpec;
    if ResolveSecretName(obj).Err? {
      assert Hinders(w, k, BadRef);
      assert Begins(w, k, Begin(obj), ByRef, obj, ResolveSecretName(obj).error);
    }
  }

  lemma LoadGoesOn(managed: set<string>, cfg: Config, w: State, k: Key, pc: Pc, d: Draw)
    requires (pc.Loading? || pc.Finalizing?) && Stage(cfg, w, k, pc) && Course(w, k, pc) && RegsOk(managed, w)
    ensures var m' := After(cfg, w, pc, Answered, d); GoesOn(m', k, ReportFor(m'.world, k))
  {
    hide After, Begin, ConditionsOk, RegsOk, Settled, GoesOn, ReportFor;
    if pc.Loading? {
      AtLoading(cfg, w, pc, Answered, d);
      StoredIsExact(managed, w, k);
      if HasFinalizer(w.regs[k]) { BeginGoesOn(cfg, w, k, w.regs[k]); }
      else { IsCourse(w, k, Finalizing(w.regs[k])); }
    } else {
      AtFinalizing(cfg, w, pc, Answered, d);
      var m' := After(cfg, w, pc, Answered, d);
      BeginGoesOn(cfg, m'.world, k, AddFinalizer(pc.obj));
    }
  }

  lemma IsCourse(w: State, k: Key, pc: Pc)
    requires Course(w, k, pc)
    ensures forall report :: GoesOn(Machine(w, pc), k, report)
  {
    hide Course, Stopped;
  }

  // An accepted registration has no obstacle in its spec.
  lemma AcceptedIsGood(w: State, k: Key, job: Job)
    requires Exact(w, k, job.obj) && JobOk(job)
    ensures !Hinders(w, k, BadRef) && (Accepted(job) <==> !Hinders(w, k, BadSpec))
  {
    hide ConditionsOk, AllSpace, ValidateRegistration;
    ValidIff(job.obj);
  }

  lemma ReadGoesOn(managed: set<string>, cfg: Config, w: State, k: Key, pc: Pc, d: Draw)
    requires (pc.ReadingData? || pc.Listing? || pc.Generating? || pc.ReadingFqdn?) && Stage(cfg, w, k, pc)
    requires ServicesOk(managed, w.services) && LocalsOk(managed, pc)
    ensures var m' := After(cfg, w, pc, Answered, d); m'.world == w && GoesOn(m', k, ReportFor(w, k))
  {
    hide After, ConditionsOk, ByConsumer, RegistrationFailed, BuildServicePayload, ClientSecret, ValidateRegistration,
         Exact, Encode, Hinders, Registry.Valid;
    AcceptedIsGood(w, k, pc.job);
    var m' := After(cfg, w, pc, Answered, d);
    if pc.ReadingData? {
      AtReadingData(cfg, w, pc, Answered, d);
      if !Accepted(pc.job) {
        var error := ValidateRegistration(pc.job.Wanted()).value;
        assert Begins(w, k, m'.pc, ByService, pc.job.obj, error);
      }
    } else if pc.Listing? {
      AtListing(cfg, w, pc, Answered, d);
    } else if pc.Generating? {
      AtGenerating(cfg, w, pc, Answered, d);
    } else {
      AtReadingFqdn(cfg, w, pc, Answered, d);
      if w.fqdn.None? {
        NoFqdnHinders(w, k, pc.job.obj);
        assert Begins(w, k, m'.pc, ByService, pc.job.obj, NO_FQDN);
      }
    }
  }

  lemma NoFqdnHinders(w: State, k: Key, obj: Reg)
    requires Exact(w, k, obj) && w.fqdn.None?
    ensures Hinders(w, k, NoFqdn)
  {
    hide ConditionsOk;
  }

  lemma UpsertGoesOn(cfg: Config, w: State, k: Key, pc: Pc, d: Draw)
    requires (pc.Writing? || pc.ReadingFqdnAgain?) && Stage(cfg, w, k, pc)
    ensures var m' := After(cfg, w, pc, Answered, d); Course(m'.world, k, m'.pc)
  {
    hide After, ConditionsOk, ByConsumer, BuildRegistrationResult, BuildServicePayload, ValidateRegistration;
    if pc.Writing? { AtWriting(cfg, w, pc, Answered, d); } else { AtReadingFqdnAgain(cfg, w, pc, Answered, d); }
  }

  lemma PointerGoesOn(managed: set<string>, cfg: Config, w: State, k: Key, pc: Pc, d: Draw)
    requires pc.Patching? && pc.next.ResolvedRef? && PcOk(managed, w, pc)
    ensures var m' := After(cfg, w, pc, Answered, d); Course(m'.world, k, m'.pc)
  {
    hide After, ConditionsOk;
    AtPatching(cfg, w, pc, Answered, d);
  }

  // A reconcile that comes to its Secret has met no obstacle before.
  lemma LateIsFree(cfg: Config, w: State, k: Key, job: Job, data: RegistrationData)
    requires Late(w, k, job) && Success.Result(cfg, w, job.obj, data)
    ensures ReportFor(w, k) == BySecret && w.fqdn.Some? && ResolvedKey(w.regs[k]) == Some(job.Target())
    ensures job.obj.status.resolvedSecretRef == job.name && (job.managed <==> w.regs[k].spec.secretRef.None?)
  {
    hide ConditionsOk, ByConsumer, BuildServicePayload, ValidateRegistration, AllSpace;
    ValidIff(job.obj);
  }

  lemma SecretGoesOn(cfg: Config, w: State, k: Key, pc: Pc, d: Draw, obstacle: Obstacle)
    requires pc.ReadingSecret? && Stage(cfg, w, k, pc) && Hinders(w, k, obstacle) && SecretsOk(w)
    ensures var m' := After(cfg, w, pc, Answered, d); m'.world == w && GoesOn(m', k, BySecret)
  {
    hide After, ConditionsOk, CleanUp, SecretFailed, GetRegistrationData, Success.Result, Exact, Ready, ResolvedKey,
         ResolveSecretName;
    var job := pc.job;
    LateIsFree(cfg, w, k, job, GetRegistrationData(pc.result));
    AtReadingSecret(cfg, w, pc, Answered, d);
    var m' := After(cfg, w, pc, Answered, d);
    assert obstacle == Mistyped || obstacle == Taken;
    ObjectOf(w, k, job.obj);
    if job.managed && OthersControl(w, k) {
      assert Begins(w, k, m'.pc, BySecret, job.obj, "already owned");
    }
  }

  lemma ObjectOf(w: State, k: Key, obj: Reg)
    requires Exact(w, k, obj)
    ensures k in w.regs && obj.Id() == k && w.regs[k].name == obj.name && w.regs[k].namespace == obj.namespace
  {
  }

  lemma WriteGoesOn(cfg: Config, w: State, k: Key, pc: Pc, d: Draw)
    requires pc.UpdatingSecret? && Stage(cfg, w, k, pc) && Course(w, k, pc)
    ensures var m' := After(cfg, w, pc, Answered, d);
      m'.world == w && ReportFor(w, k) == BySecret && GoesOn(m', k, BySecret)
  {
    hide After, ConditionsOk, CleanUp, SecretFailed, Success.Result, Exact, Ready, SecretHolds, ResolvedKey,
         ResolveSecretName;
    var data :| SecretHolds(pc.merged, pc.job.obj, pc.job.managed, data) && Success.Result(cfg, w, pc.job.obj, data);
    LateIsFree(cfg, w, k, pc.job, data);
    AtUpdatingSecret(cfg, w, pc, Answered, d);
    var m' := After(cfg, w, pc, Answered, d);
    var error :| m'.pc == SecretFailed(pc.job.obj, error);
    assert Begins(w, k, m'.pc, BySecret, pc.job.obj, error);
  }

  // ---- One answered call on the way ----

  lemma CourseFrame(managed: set<string>, cfg: Config, m: Machine, k: Key, d: Draw)
    requires Inv(managed, m) && !m.pc.Idle? && Stage(cfg, m.world, k, m.pc) && Course(m.world, k, m.pc) &&
             k in m.world.regs
    ensures var w' := Serve(m.world, RequestAt(m.pc), Answered, d).0;
      w'.secrets == m.world.secrets && w'.fqdn == m.world.fqdn && w'.regs - {k} == m.world.regs - {k} &&
      k in w'.regs &&
      w'.regs[k] == m.world.regs[k].(status := w'.regs[k].status, finalizers := w'.regs[k].finalizers) &&
      (!m.pc.Writing? ==> w'.services == m.world.services) &&
      (!m.pc.Patching? ==> w'.regs[k].status == m.world.regs[k].status)
  {
    hide Serve, Inv, Stage;
    ServeFrame(m.world, RequestAt(m.pc), Answered, d);
    if m.pc.UpdatingSecret? { TypeRefused(m.world, m.pc, d); }
    OnlyOwn(managed, cfg, m, k, d);
    SpecKept(managed, m, Answered, d, k);
    RegAfterInv(managed, m, Answered, d, k);
  }

  lemma TypeRefused(w: State, pc: Pc, d: Draw)
    requires pc.UpdatingSecret? && pc.merged.stype != pc.read.stype
    ensures Serve(w, RequestAt(pc), Answered, d).0 == w
  {
  }

  lemma OnlyOwn(managed: set<string>, cfg: Config, m: Machine, k: Key, d: Draw)
    requires Inv(managed, m) && !m.pc.Idle? && Stage(cfg, m.world, k, m.pc) && Course(m.world, k, m.pc)
    requires k in m.world.regs
    ensures var w' := Serve(m.world, RequestAt(m.pc), Answered, d).0;
            w'.regs - {k} == m.world.regs - {k} && k in w'.regs
  {
    hide Serve, Inv;
    var w' := Serve(m.world, RequestAt(m.pc), Answered, d).0;
    WrittenFor(cfg, m.world, k, m.pc);
    forall j | j in m.world.regs
      ensures j in w'.regs && (j != k ==> w'.regs[j] == m.world.regs[j])
    {
      if m.pc.Finalizing? { FinalizesOnly(m.world, k, m.pc, d); }
      RegAfterInv(managed, m, Answered, d, j);
    }
    RegAfterInv(managed, m, Answered, d, k);
  }

  lemma WrittenFor(cfg: Config, w: State, k: Key, pc: Pc)
    requires Stage(cfg, w, k, pc)
    ensures pc.Patching? ==> pc.base.Id() == k
    ensures pc.Finalizing? ==> pc.obj.Id() == k
  {
    hide ConditionsOk, StoresSettled, Success.Result, Ready;
  }

  lemma FinalizesOnly(w: State, k: Key, pc: Pc, d: Draw)
    requires pc.Finalizing? && pc.obj.Id() == k
    ensures forall j | j in w.regs && j != k ::
      j in Serve(w, RequestAt(pc), Answered, d).0.regs && Serve(w, RequestAt(pc), Answered, d).0.regs[j] == w.regs[j]
  {
  }

  // What comes to writing the service or the pointer has no obstacle but the Secret.
  lemma WritesAreLate(cfg: Config, w: State, k: Key, pc: Pc)
    requires (pc.Writing? || (pc.Patching? && pc.next.ResolvedRef?)) && Stage(cfg, w, k, pc)
    ensures ReportFor(w, k) == BySecret
  {
    hide ConditionsOk, ByConsumer, BuildServicePayload, Exact, Hinders, ServiceSettled, DataFor;
    var job := if pc.Writing? then pc.job else pc.next.job;
    AcceptedIsGood(w, k, job);
    FqdnKnown(w, k);
    assert w.fqdn.Some? by {
      if pc.Patching? { ResultHasFqdn(cfg, w, pc.base, GetRegistrationData(pc.next.result)); }
    }
  }

  lemma FqdnKnown(w: State, k: Key)
    ensures w.fqdn.Some? ==> !Hinders(w, k, NoFqdn)
  {
  }

  lemma ResultHasFqdn(cfg: Config, w: State, reg: Reg, data: RegistrationData)
    requires Success.Result(cfg, w, reg, data)
    ensures w.fqdn.Some?
  {
    hide BuildServicePayload, ByConsumer;
  }

  lemma SameReport(w: State, w': State, k: Key)
    requires k in w.regs && k in w'.regs && w'.fqdn == w.fqdn
    requires w'.regs[k] == w.regs[k].(status := w'.regs[k].status, finalizers := w'.regs[k].finalizers)
    ensures ReportFor(w', k) == ReportFor(w, k) && ResolvedKey(w'.regs[k]) == ResolvedKey(w.regs[k])
  {
    hide AllSpace;
  }

  lemma CallGoesOn(managed: set<string>, cfg: Config, m: Machine, k: Key, d: Draw, obstacle: Obstacle)
    requires Inv(managed, m) && !m.pc.Idle? && Stage(cfg, m.world, k, m.pc) && Course(m.world, k, m.pc)
    requires Hinders(m.world, k, obstacle)
    ensures var m' := After(cfg, m.world, m.pc, Answered, d); GoesOn(m', k, ReportFor(m'.world, k))
  {
    hide After, Stage, GoesOn, ReportFor, RegsOk, ServicesOk, Hinders, LocalsOk, FindingsOk;
    var w, pc := m.world, m.pc;
    var m' := After(cfg, w, pc, Answered, d);
    if pc.Loading? || pc.Finalizing? { LoadGoesOn(managed, cfg, w, k, pc, d); }
    else if pc.ReadingData? || pc.Listing? || pc.Generating? || pc.ReadingFqdn? {
      ReadGoesOn(managed, cfg, w, k, pc, d);
    }
    else if pc.Writing? || pc.ReadingFqdnAgain? {
      UpsertGoesOn(cfg, w, k, pc, d);
      IsCourse(m'.world, k, m'.pc);
    } else if pc.Patching? {
      PointerGoesOn(managed, cfg, w, k, pc, d);
      IsCourse(m'.world, k, m'.pc);
    } else if pc.ReadingSecret? {
      SecretGoesOn(cfg, w, k, pc, d, obstacle);
      AtSecretReport(cfg, w, k, pc);
    } else {
      WriteGoesOn(cfg, w, k, pc, d);
    }
  }

  lemma AtSecretReport(cfg: Config, w: State, k: Key, pc: Pc)
    requires pc.ReadingSecret? && Stage(cfg, w, k, pc)
    ensures ReportFor(w, k) == BySecret
  {
    hide Late, Success.Result, GetRegistrationData, ReportFor;
    LateIsFree(cfg, w, k, pc.job, GetRegistrationData(pc.result));
  }

  // ---- The whole reconcile ----

  lemma StoppedEnds(cfg: Config, m: Machine, k: Key, report: Report, d: Draw)
    requires Stopped(m.world, k, m.pc, report) && k in m.world.regs
    ensures Reported(m.world, Finish(cfg, m, d), k, report)
  {
    hide Finish, RegistrationFailed, SecretFailed, InvalidSpec, Denied, Exact, ResolvedKey;
    var obj, error :| Begins(m.world, k, m.pc, report, obj, error);
    match report
    case ByRef => InvalidSpecEnds(cfg, m.world, k, obj, error, d);
    case ByService => RegistrationFailedEnds(cfg, m.world, k, obj, error, d);
    case BySecret =>
      SecretFailedEnds(cfg, m.world, k, obj, error, d);
      PointerOf(m.world, k, obj);
      SameReport(m.world, Finish(cfg, m, d).world, k);
  }

  lemma PointerOf(w: State, k: Key, obj: Reg)
    requires Exact(w, k, obj)
    ensures k in w.regs && w.regs[k].status == obj.status && w.regs[k].namespace == obj.namespace
  {
  }

  lemma FreshStays(cfg: Config, m: Machine, d: Draw)
    requires !m.pc.Idle? && Fresh(m.world, m.pc, d)
    requires !m.pc.Writing? ==> Serve(m.world, RequestAt(m.pc), Answered, d).0.services == m.world.services
    ensures var m' := After(cfg, m.world, m.pc, Answered, d); Fresh(m'.world, m'.pc, d)
  {
    hide After, Serve;
    WorldAfter(cfg, m.world, m.pc, Answered, d);
    RankFalls(cfg, m.world, m.pc, Answered, d);
  }

  lemma {:induction false} CourseEnds(managed: set<string>, cfg: Config, m: Machine, k: Key, d: Draw,
      obstacle: Obstacle)
    requires Inv(managed, m) && Stage(cfg, m.world, k, m.pc) && Course(m.world, k, m.pc) && Fresh(m.world, m.pc, d)
    requires Hinders(m.world, k, obstacle)
    ensures Reported(m.world, Finish(cfg, m, d), k, ReportFor(m.world, k))
    decreases Rank(m.pc)
  {
    hide Inv, Stage, Fresh, After, Serve, Finish, Hinders, Rank, ReportFor, Stopped, Denied, ResolvedKey;
    HinderedIsStored(m.world, k, obstacle);
    var m' := After(cfg, m.world, m.pc, Answered, d);
    FreshIsLegal(m.world, m.pc, d);
    WorldAfter(cfg, m.world, m.pc, Answered, d);
    CourseFrame(managed, cfg, m, k, d);
    CallStage(managed, cfg, m, k, Answered, d);
    CallIsInv(managed, cfg, m, d);
    CallGoesOn(managed, cfg, m, k, d, obstacle);
    CallKeepsObstacle(managed, cfg, m, k, Answered, d, obstacle);
    SameReport(m.world, m'.world, k);
    FreshStays(cfg, m, d);
    RankFalls(cfg, m.world, m.pc, Answered, d);
    FinishStep(cfg, m.world, m.pc, d, m');
    if m.pc.Writing? || m.pc.Patching? { WritesAreLate(cfg, m.world, k, m.pc); }
    if Course(m'.world, k, m'.pc) {
      CourseEnds(managed, cfg, m', k, d, obstacle);
    } else {
      StoppedEnds(cfg, m', k, ReportFor(m'.world, k), d);
    }
  }

  lemma HinderedIsStored(w: State, k: Key, obstacle: Obstacle)
    requires Hinders(w, k, obstacle)
    ensures k in w.regs
  {
  }

  lemma CallIsInv(managed: set<string>, cfg: Config, m: Machine, d: Draw)
    requires Inv(managed, m) && !m.pc.Idle? && LegalDraw(m.world, RequestAt(m.pc), Answered, d)
    ensures Inv(managed, After(cfg, m.world, m.pc, Answered, d))
  {
    hide Inv, After, LegalDraw;
    StepKeepsInv(managed, cfg, m, Call(Answered, d));
  }

  // A reconcile of a live registration with an obstacle ends, when every call is answered, with an error and with a
  // status that tells it. It writes neither Secrets nor other registrations, and to CAS only if the Secret is the only
  // obstacle.
  lemma FailureReported(managed: set<string>, cfg: Config, w: State, k: Key, d: Draw)
    requires WorldOk(managed, w) && k in w.regs && w.regs[k].deletedAt.None? && Fresh(w, Loading(k), d)
    requires !Healthy(w, w.regs[k])
    ensures Reported(w, Attempt(cfg, w, k, d), k, ReportFor(w, k))
  {
    hide Healthy, Fresh, Finish, Hinders, ConditionsOk, ServicesOk, SecretsOk, Reported, ReportFor;
    HealthyIffFree(w, k);
    var obstacle :| Hinders(w, k, obstacle);
    CourseEnds(managed, cfg, Machine(w, Loading(k)), k, d, obstacle);
  }
}
