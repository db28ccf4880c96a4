// The work queue in runs with faults, crashes and users: whatever needs work is in the queue or being worked on.
module Coverage {
  import opened Wrappers
  import opened GoStrings
  import opened Domain
  import opened CasTypes
  import opened Registry
  import opened ServicePattern
  import opened Mapper
  import opened Cluster
  import opened World
  import opened Worker
  import opened Steps
  import opened Invariant
  import opened Safety
  import opened FixedPoint
  import opened Success
  import opened Watch
  import opened Quiescence

  // The machine, the registration it is working on, and the queue.
  datatype Site = Site(m: Machine, current: Key, queue: set<Key>)

  // Every change of the stores wakes whom the watches say. A reconcile that ends with an error is asked for again, and
  // a new operator process asks for all.
  function Occur(cfg: Config, s: Site, e: Event): Site {
    var w := s.m.world;
    match e
    case User(a) => s.(m := Step(cfg, s.m, e), queue := s.queue + Wakes(w, Apply(w, a)))
    case Call(o, d) =>
      if s.m.pc.Idle? then s
      else
        var m' := Step(cfg, s.m, e);
        var again := if m'.pc.Idle? && m'.pc.returned.Some? then {s.current} else {};
        s.(m := m', queue := s.queue + Wakes(w, m'.world) + again)
    case Start(k) =>
      if s.m.pc.Idle? && k in s.queue then Site(Step(cfg, s.m, e), k, s.queue - {k}) else s
    case Crash => s.(m := Step(cfg, s.m, e), queue := w.regs.Keys)
  }

  // A registration that has to be reconciled.
  ghost predicate Needs(cfg: Config, w: State, k: Key) {
    (Live(w, k) && !Settled(cfg, w, k)) || Dies(w, k)
  }

  // The registration a reconcile works on.
  function WhoAt(pc: Pc): Option<Key> {
    match pc
    case Loading(key) => Some(key)
    case Finalizing(obj) => Some(obj.Id())
    case _ => if ObjAt(pc).Some? then Some(ObjAt(pc).value.Id()) else None
  }

  predicate DeletionCourse(pc: Pc, k: Key) {
    (pc.Loading? || pc.ListingForDelete? || pc.DeletingService? || pc.Unfinalizing?) && WhoAt(pc) == Some(k)
  }

  // The reconcile does what the registration needs: unless it fails, it will settle it, or finish its deletion.
  ghost predicate OnCourse(cfg: Config, w: State, k: Key, pc: Pc) {
    k in w.regs ==> if Live(w, k) then Stage(cfg, w, k, pc) else DeletionCourse(pc, k)
  }

  // All that needs work is in the queue or being worked on.
  ghost predicate Attended(cfg: Config, s: Site) {
    (forall k | Needs(cfg, s.m.world, k) :: k in s.queue || (!s.m.pc.Idle? && k == s.current)) &&
    (WhoAt(s.m.pc).Some? ==> WhoAt(s.m.pc).value == s.current) &&
    (!s.m.pc.Idle? && s.current !in s.queue ==> OnCourse(cfg, s.m.world, s.current, s.m.pc))
  }

  predicate Distinct(w: State) {
    forall j, k | j in w.regs && k in w.regs && j != k :: w.regs[j].spec.consumer != w.regs[k].spec.consumer
  }

  // Nobody creates a second registration of a consumer.
  predicate Apart(w: State, e: Event) {
    e.User? && e.act.CreateReg? && e.act.reg.Id() !in w.regs ==>
      forall k | k in w.regs :: w.regs[k].spec.consumer != e.act.reg.spec.consumer
  }

  // Where a reconcile has not used the fqdn yet, or only reports an error.
  predicate FqdnFree(pc: Pc) {
    match pc
    case Loading(_) => true
    case Finalizing(_) => true
    case ReadingData(_) => true
    case Listing(_, _) => true
    case Generating(_, _) => true
    case ReadingFqdn(_, _, _) => true
    case Patching(_, _, next) => Reporting(next)
    case _ => false
  }

  // No watch sees the fqdn. A change of it is noticed all the same where every live registration is queued, or is under
  // a reconcile that has yet to use the fqdn.
  predicate Notices(s: Site, e: Event) {
    var w := s.m.world;
    e.User? && e.act.SetFqdn? && e.act.fqdn != w.fqdn ==>
      forall k | k in w.regs && Live(w, k) :: k in s.queue || (k == s.current && FqdnFree(s.m.pc))
  }

  // ---- Who is worked on ----

  lemma StartWho(managed: set<string>, cfg: Config, w: State, pc: Pc, o: Outcome, d: Draw)
    requires (pc.Loading? || pc.Finalizing?) && RegsOk(managed, w)
    ensures var pc' := After(cfg, w, pc, o, d).pc; WhoAt(pc').Some? ==> WhoAt(pc') == WhoAt(pc)
  {
    hide After, InvalidSpec, ConditionsOk, ResolveSecretName;
    if pc.Loading? { AtLoading(cfg, w, pc, o, d); } else { AtFinalizing(cfg, w, pc, o, d); }
    if pc.Loading? && pc.key in w.regs { LoadedWho(w.regs[pc.key]); }
    if pc.Finalizing? { BeginWho(AddFinalizer(pc.obj)); }
  }

  lemma BeginWho(obj: Reg)
    ensures WhoAt(Begin(obj)).Some? ==> WhoAt(Begin(obj)) == Some(obj.Id())
  {
    hide InvalidSpec, ResolveSecretName;
  }

  lemma LoadedWho(obj: Reg)
    ensures WhoAt(Loaded(obj)).Some? ==> WhoAt(Loaded(obj)) == Some(obj.Id())
  {
    hide Begin;
    BeginWho(obj);
  }

  lemma LookupWho(cfg: Config, w: State, pc: Pc, o: Outcome, d: Draw)
    requires pc.ReadingData? || pc.Listing? || pc.Generating?
    ensures var pc' := After(cfg, w, pc, o, d).pc; WhoAt(pc').Some? ==> WhoAt(pc') == WhoAt(pc)
  {
    hide After, RegistrationFailed, ClientSecret, ValidateRegistration, FindServiceByConsumer, GetRegistrationData;
    if pc.ReadingData? { AtReadingData(cfg, w, pc, o, d); }
    else if pc.Listing? { AtListing(cfg, w, pc, o, d); }
    else { AtGenerating(cfg, w, pc, o, d); }
    BaseWho(pc.job.obj);
  }

  lemma ServiceWho(cfg: Config, w: State, pc: Pc, o: Outcome, d: Draw)
    requires pc.ReadingFqdn? || pc.Writing? || pc.ReadingFqdnAgain?
    ensures var pc' := After(cfg, w, pc, o, d).pc; WhoAt(pc').Some? ==> WhoAt(pc') == WhoAt(pc)
  {
    hide After, RegistrationFailed, BuildServicePayload, BuildRegistrationResult, Upserted, Written, Echo;
    if pc.ReadingFqdn? { AtReadingFqdn(cfg, w, pc, o, d); }
    else if pc.Writing? { AtWriting(cfg, w, pc, o, d); }
    else { AtReadingFqdnAgain(cfg, w, pc, o, d); }
    BaseWho(pc.job.obj);
  }

  // A failure report is about the same registration.
  lemma BaseWho(obj: Reg)
    ensures forall error :: WhoAt(RegistrationFailed(obj, error)).Some? ==>
            WhoAt(RegistrationFailed(obj, error)) == Some(obj.Id())
    ensures forall error :: WhoAt(SecretFailed(obj, error)).Some? ==> WhoAt(SecretFailed(obj, error)) == Some(obj.Id())
    ensures WhoAt(Publish(obj)).Some? ==> WhoAt(Publish(obj)) == Some(obj.Id())
  {
    hide WithCondition, Patch;
  }

  lemma PatchWho(managed: set<string>, cfg: Config, w: State, pc: Pc, o: Outcome, d: Draw)
    requires pc.Patching? && PcOk(managed, w, pc) && RegsOk(managed, w)
    ensures var pc' := After(cfg, w, pc, o, d).pc; WhoAt(pc').Some? ==> WhoAt(pc') == WhoAt(pc)
  {
    hide After, Succeed, Block, InvalidPublishedPc, InvalidCompletedPc, ConditionsOk;
    AtPatching(cfg, w, pc, o, d);
  }

  lemma SecretWho(cfg: Config, w: State, pc: Pc, o: Outcome, d: Draw)
    requires pc.ReadingSecret? || pc.CreatingSecret? || pc.UpdatingSecret?
    ensures var pc' := After(cfg, w, pc, o, d).pc; WhoAt(pc').Some? ==> WhoAt(pc') == WhoAt(pc)
  {
    hide After, SecretFailed, Publish, GetRegistrationData, SetControllerReference, Merge, TrimSpace;
    if pc.ReadingSecret? { AtReadingSecret(cfg, w, pc, o, d); }
    else if pc.CreatingSecret? { AtCreatingSecret(cfg, w, pc, o, d); }
    else { AtUpdatingSecret(cfg, w, pc, o, d); }
    BaseWho(pc.job.obj);
  }

  lemma LastWho(cfg: Config, w: State, pc: Pc, o: Outcome, d: Draw)
    requires pc.ReadingPrevious? || pc.DeletingPrevious? || pc.ListingForDelete? || pc.DeletingService? ||
             pc.Unfinalizing?
    ensures var pc' := After(cfg, w, pc, o, d).pc; WhoAt(pc').Some? ==> WhoAt(pc') == WhoAt(pc)
  {
    hide After, Publish, FindServiceByConsumer;
    if pc.ReadingPrevious? { AtReadingPrevious(cfg, w, pc, o, d); BaseWho(pc.job.obj); }
    else if pc.DeletingPrevious? { AtDeletingPrevious(cfg, w, pc, o, d); BaseWho(pc.job.obj); }
    else if pc.ListingForDelete? { AtListingForDelete(cfg, w, pc, o, d); }
    else if pc.DeletingService? { AtDeletingService(cfg, w, pc, o, d); }
    else { AtUnfinalizing(cfg, w, pc, o, d); }
  }

  lemma CallWho(managed: set<string>, cfg: Config, m: Machine, o: Outcome, d: Draw)
    requires Inv(managed, m) && !m.pc.Idle?
    ensures var pc' := After(cfg, m.world, m.pc, o, d).pc; WhoAt(pc').Some? ==> WhoAt(pc') == WhoAt(m.pc)
  {
    hide After, WhoAt, PcOk, ServicesOk, SecretsOk;
    var w, pc := m.world, m.pc;
    if pc.Loading? || pc.Finalizing? { StartWho(managed, cfg, w, pc, o, d); }
    else if pc.Patching? { PatchWho(managed, cfg, w, pc, o, d); }
    else if pc.ReadingSecret? || pc.CreatingSecret? || pc.UpdatingSecret? { SecretWho(cfg, w, pc, o, d); }
    else if pc.ReadingPrevious? || pc.DeletingPrevious? || pc.ListingForDelete? || pc.DeletingService? ||
      pc.Unfinalizing? {
      LastWho(cfg, w, pc, o, d);
    }
    else if pc.ReadingData? || pc.Listing? || pc.Generating? { LookupWho(cfg, w, pc, o, d); }
    else { ServiceWho(cfg, w, pc, o, d); }
  }

  // ---- Others, while a reconcile is under way ----

  // To the registration, the change of the stores is none: it has the same spec and status, its consumer's service, the
  // fqdn and its Secret are as before.
  ghost predicate Unseen(w: State, w': State, k: Key) {
    k in w.regs && k in w'.regs && w'.regs[k] == w.regs[k].(finalizers := w'.regs[k].finalizers) &&
    (HasFinalizer(w.regs[k]) ==> HasFinalizer(w'.regs[k])) && w'.fqdn == w.fqdn &&
    (!Blank(w.regs[k].spec.consumer) ==>
      ByConsumer(w'.services, w.regs[k].spec.consumer) == ByConsumer(w.services, w.regs[k].spec.consumer)) &&
    (ResolvedKey(w.regs[k]).Some? ==> !SecretChanged(w, w', ResolvedKey(w.regs[k]).value))
  }

  lemma ExactUnseen(w: State, w': State, k: Key, obj: Reg)
    requires Unseen(w, w', k) && Exact(w, k, obj)
    ensures Exact(w', k, obj) && obj.spec == w.regs[k].spec && ResolvedKey(obj) == ResolvedKey(w.regs[k])
  {
    hide ByConsumer, ConditionsOk, SecretChanged;
  }

  lemma ValidNames(obj: Reg)
    requires ValidateRegistration(FromAuthRegistration(obj)).None?
    ensures !Blank(obj.spec.consumer)
  {
  }

  lemma ReadyNames(obj: Reg)
    requires Ready(obj)
    ensures !Blank(obj.spec.consumer)
  {
    ValidNames(obj);
  }

  lemma AcceptedNames(job: Job)
    requires Accepted(job)
    ensures !Blank(job.obj.spec.consumer)
  {
    ValidNames(job.obj);
  }

  lemma ServiceUnseen(cfg: Config, w: State, w': State, k: Key, obj: Reg, s: string)
    requires Unseen(w, w', k) && Exact(w, k, obj) && ServiceSettled(cfg, w, obj, s) && !Blank(obj.spec.consumer)
    ensures ServiceSettled(cfg, w', obj, s) && DataFor(cfg, w', obj, s) == DataFor(cfg, w, obj, s)
  {
    hide ByConsumer, ConditionsOk, SecretChanged, BuildServicePayload, BuildRegistrationResult, GetRegistrationData;
  }

  lemma ResultUnseen(cfg: Config, w: State, w': State, k: Key, obj: Reg, data: RegistrationData)
    requires Unseen(w, w', k) && Exact(w, k, obj) && Success.Result(cfg, w, obj, data) && !Blank(obj.spec.consumer)
    ensures Success.Result(cfg, w', obj, data)
  {
    hide Unseen, Exact, ServiceSettled, DataFor;
    var s :| Fit(obj.spec.protocol, s) && ServiceSettled(cfg, w, obj, s) && DataFor(cfg, w, obj, s) == data;
    ServiceUnseen(cfg, w, w', k, obj, s);
    assert ServiceSettled(cfg, w', obj, s) && DataFor(cfg, w', obj, s) == data;
  }

  lemma PlannedUnseen(cfg: Config, w: State, w': State, k: Key, job: Job, payload: Service, create: bool, s: string)
    requires Unseen(w, w', k) && Exact(w, k, job.obj) && Planned(cfg, w, job, payload, create, s) &&
             !Blank(job.obj.spec.consumer)
    ensures Planned(cfg, w', job, payload, create, s)
  {
    hide ByConsumer, ConditionsOk, SecretChanged, BuildServicePayload, Accepted;
    var existing: Option<Service> :|
      ByConsumer(w.services, job.obj.spec.consumer) == (if existing.None? then [] else [existing.value]) &&
      create == existing.None? &&
      payload == BuildServicePayload(cfg, w.fqdn.value, job.Wanted(), existing, s);
    assert ByConsumer(w'.services, job.obj.spec.consumer) == if existing.None? then [] else [existing.value];
  }

  lemma StoresUnseen(cfg: Config, w: State, w': State, k: Key, obj: Reg)
    requires Unseen(w, w', k) && Exact(w, k, obj) && StoresSettled(cfg, w, obj) && !Blank(obj.spec.consumer)
    ensures StoresSettled(cfg, w', obj)
  {
    hide StoresSettled, ByConsumer, ConditionsOk, SecretChanged;
    ExactUnseen(w, w', k, obj);
    StoresStay(cfg, w, w', obj);
  }

  lemma EarlyUnseen(cfg: Config, w: State, w': State, k: Key, pc: Pc)
    requires pc.Loading? || pc.Finalizing? || pc.ReadingData? || pc.Listing? || pc.Generating? || pc.ReadingFqdn?
    requires Unseen(w, w', k) && Stage(cfg, w, k, pc)
    ensures Stage(cfg, w', k, pc)
  {
    hide ByConsumer, ConditionsOk, SecretChanged, Settled, ValidateRegistration;
    if pc.Generating? || pc.ReadingFqdn? { ValidNames(pc.job.obj); }
  }

  lemma UpsertUnseen(cfg: Config, w: State, w': State, k: Key, pc: Pc)
    requires pc.Writing? || pc.ReadingFqdnAgain?
    requires Unseen(w, w', k) && Stage(cfg, w, k, pc)
    ensures Stage(cfg, w', k, pc)
  {
    hide ByConsumer, ConditionsOk, SecretChanged, Settled, ValidateRegistration, ServiceSettled, Planned;
    ValidNames(pc.job.obj);
    if pc.Writing? { PlannedUnseen(cfg, w, w', k, pc.job, pc.payload, pc.create, pc.secret); }
    else { ServiceUnseen(cfg, w, w', k, pc.job.obj, pc.secret); }
  }

  lemma PatchUnseen(cfg: Config, w: State, w': State, k: Key, pc: Pc)
    requires pc.Patching? && Unseen(w, w', k) && Stage(cfg, w, k, pc)
    ensures Stage(cfg, w', k, pc)
  {
    hide Unseen, Exact, Ready, Success.Result, StoresSettled, Settled, Accepted, WithCondition, SaysPublished;
    match pc.next
    case ResolvedRef(job, result) =>
      ExactUnseen(w, w', k, pc.base);
      AcceptedNames(job);
      ResultUnseen(cfg, w, w', k, pc.base, GetRegistrationData(result));
    case Published => ExactUnseen(w, w', k, pc.base); ReadyNames(pc.base); StoresUnseen(cfg, w, w', k, pc.base);
    case Succeeded => ExactUnseen(w, w', k, pc.base); ReadyNames(pc.base); StoresUnseen(cfg, w, w', k, pc.base);
    case _ => ExactUnseen(w, w', k, pc.base);
  }

  lemma LateUnseen(cfg: Config, w: State, w': State, k: Key, pc: Pc)
    requires pc.ReadingSecret? || pc.CreatingSecret? || pc.UpdatingSecret? || pc.ReadingPrevious? ||
             pc.DeletingPrevious?
    requires Unseen(w, w', k) && Stage(cfg, w, k, pc)
    ensures Stage(cfg, w', k, pc)
  {
    hide Unseen, Exact, Ready, Success.Result, StoresSettled, Settled, SecretHolds, GetRegistrationData, TrimSpace;
    ExactUnseen(w, w', k, pc.job.obj);
    ReadyNames(pc.job.obj);
    forall data | Success.Result(cfg, w, pc.job.obj, data)
      ensures Success.Result(cfg, w', pc.job.obj, data)
    {
      ResultUnseen(cfg, w, w', k, pc.job.obj, data);
    }
    if StoresSettled(cfg, w, pc.job.obj) { StoresUnseen(cfg, w, w', k, pc.job.obj); }
  }

  lemma StageUnseen(cfg: Config, w: State, w': State, k: Key, pc: Pc)
    requires !pc.Idle? && Unseen(w, w', k) && Stage(cfg, w, k, pc)
    ensures Stage(cfg, w', k, pc)
  {
    hide Unseen, Exact, Early, Late, NextStage, StoresSettled, Success.Result, Planned, Settled, ServiceSettled;
    if pc.Writing? || pc.ReadingFqdnAgain? { UpsertUnseen(cfg, w, w', k, pc); }
    else if pc.Patching? { PatchUnseen(cfg, w, w', k, pc); }
    else if pc.ReadingSecret? || pc.CreatingSecret? || pc.UpdatingSecret? || pc.ReadingPrevious? ||
      pc.DeletingPrevious? {
      LateUnseen(cfg, w, w', k, pc);
    }
    else { EarlyUnseen(cfg, w, w', k, pc); }
  }

  lemma SettledUnseen(cfg: Config, w: State, w': State, k: Key)
    requires Unseen(w, w', k) && Settled(cfg, w, k)
    ensures Settled(cfg, w', k)
  {
    hide ByConsumer, StoresSettled, SecretChanged, SetStatusCondition, ValidateRegistration;
    ReadyNames(w.regs[k]);
    StoresStay(cfg, w, w', w.regs[k]);
    StatusDoesNotMatter(cfg, w', w', w.regs[k], w'.regs[k]);
  }

  lemma UserReg(managed: set<string>, w: State, a: UserAct, k: Key)
    requires RegsOk(managed, w) && LegalUser(managed, w, a)
    requires k in w.regs && k in Apply(w, a).regs && !UpdatePasses(w.regs[k], Apply(w, a).regs[k])
    ensures var reg, reg' := w.regs[k], Apply(w, a).regs[k];
      reg' == reg.(finalizers := reg'.finalizers) && (HasFinalizer(reg) ==> HasFinalizer(reg'))
  {
    hide ByConsumer, ConditionsOk, Valid;
  }

  lemma UserKeepsRest(managed: set<string>, w: State, a: UserAct, k: Key)
    requires RegsOk(managed, w) && LegalUser(managed, w, a) && !a.SetFqdn? && k in w.regs
    ensures Apply(w, a).fqdn == w.fqdn
    ensures !Blank(w.regs[k].spec.consumer) ==>
      ByConsumer(Apply(w, a).services, w.regs[k].spec.consumer) == ByConsumer(w.services, w.regs[k].spec.consumer)
  {
    hide ByConsumer, ConditionsOk, Valid;
  }

  // An act of somebody else that wakes nobody for a registration is none to it.
  lemma UserUnseen(managed: set<string>, w: State, a: UserAct, k: Key)
    requires RegsOk(managed, w) && LegalUser(managed, w, a) && !a.SetFqdn? && k in w.regs && k !in Wakes(w, Apply(w, a))
    ensures Unseen(w, Apply(w, a), k)
  {
    hide ByConsumer, ConditionsOk, Valid, SecretChanged, ResolveSecretName, Apply, LegalUser, Wakes, UpdatePasses;
    var w' := Apply(w, a);
    WokenOtherwise(w, w', k);
    UserReg(managed, w, a, k);
    NotWoken(w, w', k);
    UserKeepsRest(managed, w, a, k);
    SameResolved(w.regs[k], w'.regs[k]);
  }

  lemma UserKeepsDying(managed: set<string>, w: State, a: UserAct, k: Key)
    requires RegsOk(managed, w) && LegalUser(managed, w, a) && k in w.regs && k in Apply(w, a).regs &&
             !UpdatePasses(w.regs[k], Apply(w, a).regs[k])
    ensures Live(Apply(w, a), k) == Live(w, k) && (Dies(Apply(w, a), k) ==> Dies(w, k))
  {
    hide ByConsumer, ConditionsOk, Valid;
  }

  lemma WokenOtherwise(w: State, w': State, k: Key)
    requires k !in Wakes(w, w')
    ensures k in w'.regs ==> k in w.regs && !UpdatePasses(w.regs[k], w'.regs[k])
    ensures k in w.regs ==> k in w'.regs
  {
    hide WokenBySecret, UpdatePasses;
  }

  lemma UserAttends(managed: set<string>, cfg: Config, s: Site, a: UserAct)
    requires Inv(managed, s.m) && LegalUser(managed, s.m.world, a) && !a.SetFqdn? && Attended(cfg, s)
    ensures Attended(cfg, Occur(cfg, s, User(a)))
  {
    hide Inv, Stage, Apply, LegalUser, Settled, Wakes, WhoAt, Unseen, UpdatePasses;
    var w, w' := s.m.world, Apply(s.m.world, a);
    SoundRegs(managed, s.m);
    forall k | k !in Wakes(w, w') && k in w'.regs
      ensures k in w.regs && Unseen(w, w', k) && Live(w', k) == Live(w, k) && (Dies(w', k) ==> Dies(w, k))
      ensures Needs(cfg, w', k) ==> Needs(cfg, w, k)
    {
      WokenOtherwise(w, w', k);
      UserUnseen(managed, w, a, k);
      UserKeepsDying(managed, w, a, k);
      if Settled(cfg, w, k) { SettledUnseen(cfg, w, w', k); }
    }
    if !s.m.pc.Idle? && s.current !in s.queue && s.current !in Wakes(w, w') && s.current in w'.regs &&
      Live(w, s.current) {
      StageUnseen(cfg, w, w', s.current, s.m.pc);
    }
  }

  lemma SoundRegs(managed: set<string>, m: Machine)
    requires Inv(managed, m)
    ensures RegsOk(managed, m.world)
  {
  }

  // ---- Calls ----

  // A call is none to any registration but the one it is made for, or wakes it.
  lemma CallUnseen(managed: set<string>, cfg: Config, m: Machine, o: Outcome, d: Draw, k: Key)
    requires Inv(managed, m) && !m.pc.Idle? && LegalDraw(m.world, RequestAt(m.pc), o, d) && Distinct(m.world)
    requires k in m.world.regs && WhoAt(m.pc) != Some(k) && k !in Wakes(m.world, After(cfg, m.world, m.pc, o, d).world)
    ensures Unseen(m.world, After(cfg, m.world, m.pc, o, d).world, k) &&
            After(cfg, m.world, m.pc, o, d).world.regs[k] == m.world.regs[k]
  {
    hide After, Serve, Inv, ByConsumer, Wakes, SecretChanged, UpdatePasses, ResolveSecretName, RequestAt;
    var w := m.world;
    var w' := After(cfg, w, m.pc, o, d).world;
    WorldAfter(cfg, w, m.pc, o, d);
    FqdnKept(w, RequestAt(m.pc), o, d);
    OtherRegKept(managed, m, o, d, k);
    if ObjAt(m.pc).Some? {
      ObjIsWho(managed, m);
      assert w.regs[k].spec.consumer != ObjAt(m.pc).value.spec.consumer;
    }
    OtherConsumersUntouched(managed, cfg, m, o, d, w.regs[k].spec.consumer);
    StepIsAfter(cfg, m, o, d);
    NotWoken(w, w', k);
  }

  lemma FqdnKept(w: State, request: Request, o: Outcome, d: Draw)
    ensures Serve(w, request, o, d).0.fqdn == w.fqdn
  {
    ServeFrame(w, request, o, d);
  }

  lemma StepIsAfter(cfg: Config, m: Machine, o: Outcome, d: Draw)
    requires !m.pc.Idle?
    ensures Step(cfg, m, Call(o, d)) == After(cfg, m.world, m.pc, o, d)
  {
    hide After;
  }

  lemma NotWoken(w: State, w': State, k: Key)
    requires k in w'.regs && k !in Wakes(w, w')
    ensures !WokenBySecret(w, w', k)
  {
    hide WokenBySecret, UpdatePasses;
  }

  lemma ObjIsWho(managed: set<string>, m: Machine)
    requires Inv(managed, m) && ObjAt(m.pc).Some?
    ensures WhoAt(m.pc) == Some(ObjAt(m.pc).value.Id()) && ObjAt(m.pc).value.Id() in m.world.regs &&
      m.world.regs[ObjAt(m.pc).value.Id()].spec.consumer == ObjAt(m.pc).value.spec.consumer
  {
    hide WorldOk, LocalsOk, FindingsOk, ConditionsOk;
  }

  lemma OtherRegKept(managed: set<string>, m: Machine, o: Outcome, d: Draw, k: Key)
    requires Inv(managed, m) && !m.pc.Idle? && k in m.world.regs && WhoAt(m.pc) != Some(k)
    ensures var w' := Serve(m.world, RequestAt(m.pc), o, d).0; k in w'.regs && w'.regs[k] == m.world.regs[k]
  {
    if m.pc.Finalizing? {
      hide Inv;
    } else {
      RegAfterInv(managed, m, o, d, k);
      hide Serve, Inv;
    }
  }

  lemma CallLive(managed: set<string>, cfg: Config, m: Machine, o: Outcome, d: Draw, k: Key)
    requires Inv(managed, m) && !m.pc.Idle? && k in After(cfg, m.world, m.pc, o, d).world.regs
    ensures k in m.world.regs && Live(After(cfg, m.world, m.pc, o, d).world, k) == Live(m.world, k)
  {
    hide After, Serve, Inv;
    WorldAfter(cfg, m.world, m.pc, o, d);
    SpecKept(managed, m, o, d, k);
  }

  // The end of a reconcile that was on course.
  lemma DeletionEnds(cfg: Config, w: State, k: Key, pc: Pc, o: Outcome, d: Draw)
    requires DeletionCourse(pc, k) && k in w.regs && w.regs[k].deletedAt.Some? && w.regs[k].Id() == k
    ensures var m' := After(cfg, w, pc, o, d);
      if m'.pc.Idle? then m'.pc.returned.None? ==> !Dies(m'.world, k) else DeletionCourse(m'.pc, k)
  {
    hide After, FindServiceByConsumer;
    if pc.Loading? { AtLoading(cfg, w, pc, o, d); }
    else if pc.ListingForDelete? { AtListingForDelete(cfg, w, pc, o, d); }
    else if pc.DeletingService? { AtDeletingService(cfg, w, pc, o, d); }
    else { AtUnfinalizing(cfg, w, pc, o, d); }
  }

  lemma CurrentGoesOn(managed: set<string>, cfg: Config, m: Machine, o: Outcome, d: Draw, k: Key)
    requires Inv(managed, m) && !m.pc.Idle? && LegalDraw(m.world, RequestAt(m.pc), o, d) &&
             OnCourse(cfg, m.world, k, m.pc)
    ensures var m' := After(cfg, m.world, m.pc, o, d);
      if m'.pc.Idle? then m'.pc.returned.None? ==> !Needs(cfg, m'.world, k) else OnCourse(cfg, m'.world, k, m'.pc)
  {
    hide After, Serve, Inv, Stage, Settled, DeletionCourse;
    var m' := After(cfg, m.world, m.pc, o, d);
    if k in m'.world.regs {
      CallLive(managed, cfg, m, o, d, k);
      SoundRegs(managed, m);
      if Live(m.world, k) {
        CallStage(managed, cfg, m, k, o, d);
        if m'.pc == Idle(None) { StageEnds(cfg, m'.world, k, m'.pc); }
      } else {
        DeletionEnds(cfg, m.world, k, m.pc, o, d);
      }
    }
  }

  lemma StageEnds(cfg: Config, w: State, k: Key, pc: Pc)
    requires Stage(cfg, w, k, pc) && pc == Idle(None)
    ensures Settled(cfg, w, k)
  {
    hide Settled;
  }

  lemma OtherStaysFine(managed: set<string>, cfg: Config, m: Machine, o: Outcome, d: Draw, k: Key)
    requires Inv(managed, m) && !m.pc.Idle? && LegalDraw(m.world, RequestAt(m.pc), o, d) && Distinct(m.world)
    requires WhoAt(m.pc) != Some(k) && k !in Wakes(m.world, After(cfg, m.world, m.pc, o, d).world)
    ensures Needs(cfg, After(cfg, m.world, m.pc, o, d).world, k) ==> Needs(cfg, m.world, k)
  {
    hide After, Inv, Settled, Wakes, WhoAt, Unseen;
    var w' := After(cfg, m.world, m.pc, o, d).world;
    if k in w'.regs {
      CallLive(managed, cfg, m, o, d, k);
      CallUnseen(managed, cfg, m, o, d, k);
      if Settled(cfg, m.world, k) { SettledUnseen(cfg, m.world, w', k); }
    }
  }

  lemma CallAttends(managed: set<string>, cfg: Config, s: Site, o: Outcome, d: Draw)
    requires Inv(managed, s.m) && !s.m.pc.Idle? && LegalDraw(s.m.world, RequestAt(s.m.pc), o, d) &&
             Distinct(s.m.world) && Attended(cfg, s)
    ensures Attended(cfg, Occur(cfg, s, Call(o, d)))
  {
    hide Inv, After, Wakes, WhoAt, OnCourse, Needs, Distinct, LegalDraw;
    var m' := After(cfg, s.m.world, s.m.pc, o, d);
    StepIsAfter(cfg, s.m, o, d);
    CallWho(managed, cfg, s.m, o, d);
    SomebodyAt(s.m.pc);
    forall k | Needs(cfg, m'.world, k) && k != s.current && k !in Wakes(s.m.world, m'.world)
      ensures Needs(cfg, s.m.world, k)
    {
      OtherStaysFine(managed, cfg, s.m, o, d, k);
    }
    if s.current !in s.queue { CurrentGoesOn(managed, cfg, s.m, o, d, s.current); }
  }

  lemma SomebodyAt(pc: Pc)
    requires !pc.Idle?
    ensures WhoAt(pc).Some?
  {
  }

  // ---- The fqdn ----

  lemma FqdnUnsettles(cfg: Config, w: State, w': State, reg: Reg, s: string, s': string)
    requires ServiceSettled(cfg, w, reg, s) && ServiceSettled(cfg, w', reg, s') && w'.services == w.services
    ensures w'.fqdn == w.fqdn
  {
    hide ByConsumer, BuildServicePayload, FirstValue, UnescapeDots;
    var found := ByConsumer(w.services, reg.spec.consumer)[0];
    PayloadSays(cfg, w.fqdn.value, FromAuthRegistration(reg), Some(found), s);
    PayloadSays(cfg, w'.fqdn.value, FromAuthRegistration(reg), Some(found), s');
  }

  lemma FqdnUnplans(cfg: Config, w: State, w': State, job: Job, payload: Service, create: bool, s: string)
    requires Planned(cfg, w, job, payload, create, s) && Planned(cfg, w', job, payload, create, s)
    ensures w'.fqdn == w.fqdn
  {
    hide ByConsumer, BuildServicePayload, FirstValue, UnescapeDots;
    var existing: Option<Service> :| payload == BuildServicePayload(cfg, w.fqdn.value, job.Wanted(), existing, s);
    var existing': Option<Service> :| payload == BuildServicePayload(cfg, w'.fqdn.value, job.Wanted(), existing', s);
    PayloadSays(cfg, w.fqdn.value, job.Wanted(), existing, s);
    PayloadSays(cfg, w'.fqdn.value, job.Wanted(), existing', s);
  }

  lemma FqdnInResult(cfg: Config, w: State, w': State, reg: Reg, data: RegistrationData, data': RegistrationData)
    requires Success.Result(cfg, w, reg, data) && Success.Result(cfg, w', reg, data') && w'.services == w.services
    ensures w'.fqdn == w.fqdn
  {
    hide ServiceSettled, Fit, DataFor;
    var s :| Fit(reg.spec.protocol, s) && ServiceSettled(cfg, w, reg, s) && DataFor(cfg, w, reg, s) == data;
    var s' :| Fit(reg.spec.protocol, s') && ServiceSettled(cfg, w', reg, s') && DataFor(cfg, w', reg, s') == data';
    FqdnUnsettles(cfg, w, w', reg, s, s');
  }

  lemma FqdnInStores(cfg: Config, w: State, w': State, reg: Reg)
    requires StoresSettled(cfg, w, reg) && StoresSettled(cfg, w', reg) && w'.services == w.services
    ensures w'.fqdn == w.fqdn
  {
    hide ServiceSettled, SecretSettled, ResolveSecretName;
    var s :| ServiceSettled(cfg, w, reg, s);
    var s' :| ServiceSettled(cfg, w', reg, s');
    FqdnUnsettles(cfg, w, w', reg, s, s');
  }

  // A reconcile that has used the fqdn is on course under one fqdn only.
  lemma FqdnInStage(cfg: Config, w: State, fqdn: Option<string>, k: Key, pc: Pc)
    requires !pc.Idle? && Stage(cfg, w, k, pc) && Stage(cfg, w.(fqdn := fqdn), k, pc)
    ensures FqdnFree(pc) || fqdn == w.fqdn
  {
    hide Exact, Early, Late, Ready, Planned, ServiceSettled, Success.Result, StoresSettled, SecretHolds, WithCondition,
         Accepted;
    var w' := w.(fqdn := fqdn);
    match pc
    case Writing(job, payload, create, s) => FqdnUnplans(cfg, w, w', job, payload, create, s);
    case ReadingFqdnAgain(job, _, s) => FqdnUnsettles(cfg, w, w', job.obj, s, s);
    case Patching(base, _, next) =>
      match next {
        case ResolvedRef(_, result) =>
          FqdnInResult(cfg, w, w', base, GetRegistrationData(result), GetRegistrationData(result));
        case Published => FqdnInStores(cfg, w, w', base);
        case Succeeded => FqdnInStores(cfg, w, w', base);
        case _ =>
      }
    case ReadingSecret(job, result) =>
      FqdnInResult(cfg, w, w', job.obj, GetRegistrationData(result), GetRegistrationData(result));
    case CreatingSecret(job, desired) => FqdnInResult(cfg, w, w', job.obj, desired.data, desired.data);
    case UpdatingSecret(job, _, merged) =>
      var data :| SecretHolds(merged, job.obj, job.managed, data) && Success.Result(cfg, w, job.obj, data);
      var data' :| SecretHolds(merged, job.obj, job.managed, data') && Success.Result(cfg, w', job.obj, data');
      FqdnInResult(cfg, w, w', job.obj, data, data');
    case ReadingPrevious(job) => FqdnInStores(cfg, w, w', job.obj);
    case DeletingPrevious(job, _) => FqdnInStores(cfg, w, w', job.obj);
    case _ =>
  }

  lemma FqdnOutOfStage(cfg: Config, w: State, fqdn: Option<string>, k: Key, pc: Pc)
    requires FqdnFree(pc) && Stage(cfg, w, k, pc)
    ensures Stage(cfg, w.(fqdn := fqdn), k, pc)
  {
    hide ByConsumer, ConditionsOk, ValidateRegistration;
  }

  lemma FqdnInSettled(cfg: Config, w: State, fqdn: Option<string>, k: Key)
    requires Settled(cfg, w, k) && Settled(cfg, w.(fqdn := fqdn), k)
    ensures fqdn == w.fqdn
  {
    hide StoresSettled, Ready, SaysPublished, SaysCompleted, ResolveSecretName;
    FqdnInStores(cfg, w, w.(fqdn := fqdn), w.regs[k]);
  }

  lemma FqdnWakesNobody(w: State, fqdn: Option<string>)
    ensures Wakes(w, w.(fqdn := fqdn)) == {}
  {
  }

  // At every point, a change of the fqdn leaves what needs work attended to if and only if it is noticed.
  lemma FqdnAttendsIff(cfg: Config, s: Site, fqdn: Option<string>)
    requires Attended(cfg, s)
    ensures Attended(cfg, Occur(cfg, s, User(SetFqdn(fqdn)))) <==> Notices(s, User(SetFqdn(fqdn)))
  {
    hide Settled, Wakes, Stage, WhoAt, DeletionCourse;
    var w, pc := s.m.world, s.m.pc;
    var w' := w.(fqdn := fqdn);
    FqdnWakesNobody(w, fqdn);
    if fqdn == w.fqdn {
      assert w' == w;
    } else {
      forall k | Settled(cfg, w, k)
        ensures !Settled(cfg, w', k)
      {
        if Settled(cfg, w', k) { FqdnInSettled(cfg, w, fqdn, k); }
      }
      if !pc.Idle? && Stage(cfg, w, s.current, pc) {
        if FqdnFree(pc) { FqdnOutOfStage(cfg, w, fqdn, s.current, pc); }
        else if Stage(cfg, w', s.current, pc) { FqdnInStage(cfg, w, fqdn, s.current, pc); }
      }
    }
  }

  // ---- Runs ----

  lemma StartAttends(cfg: Config, s: Site, k: Key)
    requires s.m.pc.Idle? && k in s.queue && Attended(cfg, s)
    ensures Attended(cfg, Occur(cfg, s, Start(k)))
  {
    hide Settled;
  }

  lemma NeedsStored(cfg: Config, w: State, k: Key)
    requires Needs(cfg, w, k)
    ensures k in w.regs
  {
    hide Settled;
  }

  lemma CrashAttends(cfg: Config, s: Site)
    ensures Attended(cfg, Occur(cfg, s, Crash))
  {
    hide Needs;
    forall k | Needs(cfg, s.m.world, k)
      ensures k in s.m.world.regs
    {
      NeedsStored(cfg, s.m.world, k);
    }
  }

  // Whatever the event, a call with any outcome, an act of somebody else, a crash: what needs work stays attended to,
  // if and only if it is no change of the fqdn that goes unnoticed.
  lemma EventAttends(managed: set<string>, cfg: Config, s: Site, e: Event)
    requires Inv(managed, s.m) && Legal(managed, s.m, e) && Distinct(s.m.world) && Attended(cfg, s)
    ensures Attended(cfg, Occur(cfg, s, e)) <==> Notices(s, e)
  {
    hide Inv, Attended, Step, Distinct, LegalUser, LegalDraw, Wakes, FqdnFree;
    match e
    case User(a) => if a.SetFqdn? { FqdnAttendsIff(cfg, s, a.fqdn); } else { UserAttends(managed, cfg, s, a); }
    case Call(o, d) => if !s.m.pc.Idle? { CallAttends(managed, cfg, s, o, d); }
    case Start(k) => if s.m.pc.Idle? && k in s.queue { StartAttends(cfg, s, k); }
    case Crash => CrashAttends(cfg, s);
  }

  function OccurAll(cfg: Config, s: Site, es: seq<Event>): Site
    decreases |es|
  {
    if es == [] then s else OccurAll(cfg, Occur(cfg, s, es[0]), es[1..])
  }

  predicate Allowed(managed: set<string>, cfg: Config, s: Site, es: seq<Event>)
    decreases |es|
  {
    es == [] ||
    (Legal(managed, s.m, es[0]) && Apart(s.m.world, es[0]) && Notices(s, es[0]) &&
      Allowed(managed, cfg, Occur(cfg, s, es[0]), es[1..]))
  }

  lemma OccurIsStep(cfg: Config, s: Site, e: Event)
    ensures Occur(cfg, s, e).m == Step(cfg, s.m, e) || (e.Start? && Occur(cfg, s, e).m == s.m)
  {
    hide After, Apply, Wakes;
  }

  lemma UserKeepsDistinct(managed: set<string>, w: State, a: UserAct)
    requires RegsOk(managed, w) && LegalUser(managed, w, a) && Apart(w, User(a)) && Distinct(w)
    ensures Distinct(Apply(w, a))
  {
    hide ByConsumer, ConditionsOk, Valid;
  }

  lemma CallKeepsDistinct(managed: set<string>, cfg: Config, m: Machine, o: Outcome, d: Draw)
    requires Inv(managed, m) && !m.pc.Idle? && Distinct(m.world)
    ensures Distinct(After(cfg, m.world, m.pc, o, d).world)
  {
    hide After, Serve, Inv;
    WorldAfter(cfg, m.world, m.pc, o, d);
    var w' := After(cfg, m.world, m.pc, o, d).world;
    forall k | k in w'.regs
      ensures k in m.world.regs && w'.regs[k].spec.consumer == m.world.regs[k].spec.consumer
    {
      SpecKept(managed, m, o, d, k);
    }
  }

  lemma StepKeepsDistinct(managed: set<string>, cfg: Config, m: Machine, e: Event)
    requires Inv(managed, m) && Legal(managed, m, e) && Apart(m.world, e) && Distinct(m.world)
    ensures Distinct(Step(cfg, m, e).world)
  {
    hide After, Inv, Apply, LegalUser, Distinct, Apart;
    match e
    case User(a) => SoundRegs(managed, m); UserKeepsDistinct(managed, m.world, a);
    case Call(o, d) => if !m.pc.Idle? { CallKeepsDistinct(managed, cfg, m, o, d); }
    case _ =>
  }

  // Over any run with faults, crashes and users.
  lemma {:induction false} RunAttends(managed: set<string>, cfg: Config, s: Site, es: seq<Event>)
    requires Inv(managed, s.m) && Distinct(s.m.world) && Attended(cfg, s) && Allowed(managed, cfg, s, es)
    ensures var s' := OccurAll(cfg, s, es); Inv(managed, s'.m) && Distinct(s'.m.world) && Attended(cfg, s')
    decreases |es|
  {
    hide Inv, Distinct, Attended, Occur, Legal, Apart, Notices, Step;
    if es != [] {
      OccurIsStep(cfg, s, es[0]);
      StepKeepsInv(managed, cfg, s.m, es[0]);
      StepKeepsDistinct(managed, cfg, s.m, es[0]);
      EventAttends(managed, cfg, s, es[0]);
      RunAttends(managed, cfg, Occur(cfg, s, es[0]), es[1..]);
    }
  }

  // ---- Once faults stop ----

  lemma AttendedIsCovered(cfg: Config, s: Site)
    requires s.m.pc.Idle? && Attended(cfg, s)
    ensures Covered(cfg, Loop(s.m.world, s.queue))
  {
    hide Settled;
    forall k | k in Unsettled(cfg, s.m.world) + Dying(s.m.world)
      ensures k in s.queue
    {
      assert Needs(cfg, s.m.world, k);
    }
  }

  // So from any state that a run with faults, crashes and users has come to, once these stop, nothing is in the way of
  // a reconcile, and no reconcile is under way, the queue runs empty and every live registration is settled.
  lemma QuiescesAfterFaults(managed: set<string>, cfg: Config, s: Site, es: seq<Event>, moves: nat -> Move)
      returns (end: nat)
    requires Inv(managed, s.m) && Distinct(s.m.world) && Attended(cfg, s) && Allowed(managed, cfg, s, es)
    requires var s' := OccurAll(cfg, s, es); s'.m.pc.Idle? && Sound(managed, s'.m.world)
    requires var rest := Loop(OccurAll(cfg, s, es).m.world, OccurAll(cfg, s, es).queue);
      forall n: nat :: Busy(At(cfg, rest, moves, n)) ==> Possible(At(cfg, rest, moves, n), moves(n))
    ensures var rest := At(cfg, Loop(OccurAll(cfg, s, es).m.world, OccurAll(cfg, s, es).queue), moves, end);
      rest.queue == {} && Orphans(rest.world) == {} && Dying(rest.world) == {} &&
      forall k | Live(rest.world, k) :: Settled(cfg, rest.world, k)
  {
    hide Inv, Distinct, Attended, Allowed, OccurAll, Sound, At, Busy, Possible, Settled, Covered, Orphans, Dying;
    RunAttends(managed, cfg, s, es);
    AttendedIsCovered(cfg, OccurAll(cfg, s, es));
    end := Quiesces(managed, cfg, Loop(OccurAll(cfg, s, es).m.world, OccurAll(cfg, s, es).queue), moves);
  }

  // With no registration there is nothing to attend to.
  lemma NothingToAttend(cfg: Config, w: State, current: Key)
    requires w.regs == map[]
    ensures Distinct(w) && Attended(cfg, Site(Machine(w, Idle(None)), current, {}))
  {
    hide Settled;
  }
}
