// A reconcile that returns without error has settled its registration.
module Success {
  import opened Wrappers
  import opened GoStrings
  import opened Base64
  import opened Domain
  import opened CasTypes
  import opened Registry
  import opened Mapper
  import opened Cluster
  import opened World
  import opened Worker
  import opened Invariant
  import opened Steps
  import opened Credentials
  import opened Attempts
  import opened FixedPoint

  // The object in memory is the stored one, but for finalizers of others.
  predicate Exact(w: State, k: Key, obj: Reg) {
    k in w.regs && w.regs[k] == obj.(finalizers := w.regs[k].finalizers) &&
    (HasFinalizer(obj) ==> HasFinalizer(w.regs[k])) &&
    obj.Id() == k && Trimmed(obj.name) && ConditionsOk(obj.status.conditions, obj.generation)
  }

  predicate Early(w: State, k: Key, job: Job) {
    Exact(w, k, job.obj) && job.obj.deletedAt.None? && HasFinalizer(job.obj) && JobOk(job)
  }

  predicate Late(w: State, k: Key, job: Job) {
    Exact(w, k, job.obj) && Ready(job.obj) && ResolveSecretName(job.obj) == Ok((job.name, job.managed)) &&
    job.obj.status.resolvedSecretRef == job.name
  }

  predicate Accepted(job: Job) {
    ValidateRegistration(job.Wanted()).None?
  }

  // A client secret fit to be found again, or none where the protocol has none.
  predicate Fit(protocol: Protocol, s: string) {
    if SecretKey(protocol).None? then s == "" else GoodSecret(s)
  }

  ghost predicate Result(cfg: Config, w: State, reg: Reg, data: RegistrationData) {
    exists s :: Fit(reg.spec.protocol, s) && ServiceSettled(cfg, w, reg, s) && DataFor(cfg, w, reg, s) == data
  }

  ghost predicate Planned(cfg: Config, w: State, job: Job, payload: Service, create: bool, s: string) {
    w.fqdn.Some? && exists existing: Option<Service> ::
      ByConsumer(w.services, job.obj.spec.consumer) == (if existing.None? then [] else [existing.value]) &&
      create == existing.None? &&
      payload == BuildServicePayload(cfg, w.fqdn.value, job.Wanted(), existing, s)
  }

  // How far the reconcile of `k` has come.
  ghost predicate Stage(cfg: Config, w: State, k: Key, pc: Pc) {
    match pc
    case Idle(returned) => returned.None? ==> Settled(cfg, w, k)
    case Loading(key) => key == k && k in w.regs && w.regs[k].deletedAt.None?
    case Finalizing(obj) => Exact(w, k, obj) && obj.deletedAt.None?
    case ReadingData(job) => Early(w, k, job)
    case Listing(job, _) => Early(w, k, job) && Accepted(job)
    case Generating(job, existing) =>
      Early(w, k, job) && Accepted(job) && SecretKey(job.obj.spec.protocol).Some? &&
      ByConsumer(w.services, job.obj.spec.consumer) == if existing.None? then [] else [existing.value]
    case ReadingFqdn(job, existing, s) =>
      Early(w, k, job) && Accepted(job) && Fit(job.obj.spec.protocol, s) &&
      ByConsumer(w.services, job.obj.spec.consumer) == if existing.None? then [] else [existing.value]
    case Writing(job, payload, create, s) =>
      Early(w, k, job) && Accepted(job) && Fit(job.obj.spec.protocol, s) && Planned(cfg, w, job, payload, create, s)
    case ReadingFqdnAgain(job, persisted, s) =>
      Early(w, k, job) && Accepted(job) && Fit(job.obj.spec.protocol, s) && ServiceSettled(cfg, w, job.obj, s) &&
      Same(persisted, ByConsumer(w.services, job.obj.spec.consumer)[0])
    case Patching(base, patched, next) => NextStage(cfg, w, k, base, patched, next)
    case ReadingSecret(job, result) => Late(w, k, job) && Result(cfg, w, job.obj, GetRegistrationData(result))
    case CreatingSecret(job, desired) =>
      Late(w, k, job) && desired.Id() == job.Target() && SecretHolds(desired, job.obj, job.managed, desired.data) &&
      Result(cfg, w, job.obj, desired.data)
    case UpdatingSecret(job, _, merged) =>
      Late(w, k, job) && merged.Id() == job.Target() &&
      exists data :: SecretHolds(merged, job.obj, job.managed, data) && Result(cfg, w, job.obj, data)
    case ReadingPrevious(job) => Late(w, k, job) && StoresSettled(cfg, w, job.obj) && HasObsolete(job)
    case DeletingPrevious(job, _) => Late(w, k, job) && StoresSettled(cfg, w, job.obj) && HasObsolete(job)
    case _ => false
  }

  ghost predicate NextStage(cfg: Config, w: State, k: Key, base: Reg, patched: Reg, next: Then) {
    match next
    case ResolvedRef(job, result) =>
      job.obj == base && Early(w, k, job) && Accepted(job) && patched == base.(status := WithRef(base, job.name)) &&
      Result(cfg, w, base, GetRegistrationData(result))
    case Published =>
      Done(cfg, w, k, base) && patched.status ==
        WithCondition(base, PUBLISHED, true, "SecretReconciled", "Credentials Secret is ready") &&
      patched == base.(status := patched.status)
    case Succeeded =>
      Done(cfg, w, k, base) && SaysPublished(base) && patched == base.(status := patched.status) &&
      patched.status == WithCondition(base, COMPLETED, true, "RegistrationSucceeded",
        "Service registration was reconciled successfully")
    case _ => Exact(w, k, base) && patched == base.(status := patched.status)
  }

  // The stores are settled and the pointer is right; conditions remain.
  ghost predicate Done(cfg: Config, w: State, k: Key, obj: Reg) {
    Exact(w, k, obj) && Ready(obj) && StoresSettled(cfg, w, obj) &&
    obj.status.resolvedSecretRef == ResolveSecretName(obj).value.0
  }

  // The fields of a record that credentials are made of.
  predicate Same(a: Service, b: Service) {
    a.clientId == b.clientId && a.serviceId == b.serviceId
  }

  // ---- Conditions ----

  // The condition takes the place of the first one of its type, or is added at the end; all others stay as they are.
  lemma {:induction false} SetConditionSays(conditions: seq<Condition>, c: Condition) returns (i: nat)
    ensures i <= |conditions| && forall j | 0 <= j < i :: conditions[j].ctype != c.ctype
    ensures if i < |conditions| then
              conditions[i].ctype == c.ctype && SetStatusCondition(conditions, c) == conditions[i := c]
            else SetStatusCondition(conditions, c) == conditions + [c]
  {
    i := 0;
    if conditions != [] && conditions[0].ctype != c.ctype {
      var rest := conditions[1..];
      var k := SetConditionSays(rest, c);
      i := k + 1;
      assert conditions == [conditions[0]] + rest;
    }
  }

  lemma {:induction false} SetTwice(conditions: seq<Condition>, c: Condition)
    ensures SetStatusCondition(SetStatusCondition(conditions, c), c) == SetStatusCondition(conditions, c)
  {
    if conditions != [] && conditions[0].ctype != c.ctype {
      SetTwice(conditions[1..], c);
      assert SetStatusCondition(conditions, c)[1..] == SetStatusCondition(conditions[1..], c);
    }
  }

  lemma {:induction false} SetOther(conditions: seq<Condition>, p: Condition, c: Condition)
    requires p.ctype != c.ctype && SetStatusCondition(conditions, p) == conditions
    ensures SetStatusCondition(SetStatusCondition(conditions, c), p) == SetStatusCondition(conditions, c)
  {
    if conditions != [] {
      if conditions[0].ctype != p.ctype {
        assert SetStatusCondition(conditions, p)[1..] == SetStatusCondition(conditions[1..], p);
        if conditions[0].ctype != c.ctype {
          SetOther(conditions[1..], p, c);
          assert SetStatusCondition(conditions, c)[1..] == SetStatusCondition(conditions[1..], c);
        } else {
          assert SetStatusCondition(conditions, c)[1..] == conditions[1..];
        }
      } else {
        assert conditions[0] == p;
        assert SetStatusCondition(conditions, c)[0] == p;
      }
    }
  }

  lemma PublishedSaid(obj: Reg)
    ensures SaysPublished(obj.(status :=
              WithCondition(obj, PUBLISHED, true, "SecretReconciled", "Credentials Secret is ready")))
  {
    SetTwice(obj.status.conditions, Condition(PUBLISHED, true, "SecretReconciled", "Credentials Secret is ready",
      obj.generation));
  }

  lemma CompletedSaid(obj: Reg)
    requires SaysPublished(obj)
    ensures var obj' := obj.(status := WithCondition(obj, COMPLETED, true, "RegistrationSucceeded",
            "Service registration was reconciled successfully"));
      SaysPublished(obj') && SaysCompleted(obj')
  {
    hide SetStatusCondition;
    var c := Condition(COMPLETED, true, "RegistrationSucceeded", "Service registration was reconciled successfully",
      obj.generation);
    var p := Condition(PUBLISHED, true, "SecretReconciled", "Credentials Secret is ready", obj.generation);
    assert |PUBLISHED| == 20 && |COMPLETED| == 9;
    SetTwice(obj.status.conditions, c);
    SetOther(obj.status.conditions, p, c);
  }

  predicate SameButStatus(reg: Reg, reg': Reg) {
    reg' == reg.(status := reg'.status, finalizers := reg'.finalizers) && (HasFinalizer(reg) ==> HasFinalizer(reg'))
  }

  // What is settled does not depend on the status.
  lemma StatusDoesNotMatter(cfg: Config, w: State, w': State, reg: Reg, reg': Reg)
    requires w'.secrets == w.secrets && w'.services == w.services && w'.fqdn == w.fqdn && SameButStatus(reg, reg')
    ensures StoresSettled(cfg, w, reg) ==> StoresSettled(cfg, w', reg')
    ensures Ready(reg) ==> Ready(reg')
    ensures forall data :: Result(cfg, w, reg, data) ==> Result(cfg, w', reg', data)
  {
    hide BuildServicePayload, BuildRegistrationResult, GetRegistrationData, SecretHolds, Reuses, ValidateRegistration;
    forall s | ServiceSettled(cfg, w, reg, s)
      ensures ServiceSettled(cfg, w', reg', s) && DataFor(cfg, w', reg', s) == DataFor(cfg, w, reg, s)
      ensures ResolveSecretName(reg).Ok? ==>
        var (name, managed) := ResolveSecretName(reg).value;
        SecretSettled(cfg, w, reg, name, managed, s) ==> SecretSettled(cfg, w', reg', name, managed, s)
    {
      SameHolds(cfg, w, w', reg, reg', s);
    }
  }

  lemma SameHolds(cfg: Config, w: State, w': State, reg: Reg, reg': Reg, s: string)
    requires w'.secrets == w.secrets && w'.services == w.services && w'.fqdn == w.fqdn && SameButStatus(reg, reg')
    requires ServiceSettled(cfg, w, reg, s)
    ensures ServiceSettled(cfg, w', reg', s) && DataFor(cfg, w', reg', s) == DataFor(cfg, w, reg, s)
    ensures forall name, managed :: SecretSettled(cfg, w, reg, name, managed, s) ==>
      SecretSettled(cfg, w', reg', name, managed, s)
  {
    hide BuildServicePayload, BuildRegistrationResult, GetRegistrationData;
    assert FromAuthRegistration(reg') == FromAuthRegistration(reg);
  }

  // ---- Steps ----

  lemma SucceedStage(cfg: Config, w: State, k: Key, obj: Reg)
    requires Done(cfg, w, k, obj) && SaysPublished(obj)
    ensures Stage(cfg, w, k, Succeed(obj))
  {
    hide StoresSettled, Ready, ConditionsOk, WithCondition, Settled;
    if SaysCompleted(obj) { NowSettled(cfg, w, k, obj); }
  }

  lemma PublishStage(cfg: Config, w: State, k: Key, obj: Reg)
    requires Done(cfg, w, k, obj)
    ensures Stage(cfg, w, k, Publish(obj))
  {
    hide StoresSettled, Ready, ConditionsOk, WithCondition, Succeed;
    if SaysPublished(obj) { SucceedStage(cfg, w, k, obj); }
  }

  lemma CleanUpStage(cfg: Config, w: State, k: Key, job: Job)
    requires Late(w, k, job) && StoresSettled(cfg, w, job.obj)
    ensures Stage(cfg, w, k, CleanUp(job)) && Stage(cfg, w, k, Publish(job.obj))
  {
    hide StoresSettled, ConditionsOk, Publish, TrimSpace, Ready;
    LateIsDone(cfg, w, k, job);
    PublishStage(cfg, w, k, job.obj);
  }

  lemma LateIsDone(cfg: Config, w: State, k: Key, job: Job)
    requires Late(w, k, job) && StoresSettled(cfg, w, job.obj)
    ensures Done(cfg, w, k, job.obj)
  {
    hide StoresSettled, ConditionsOk;
  }

  predicate Reporting(next: Then) {
    !next.ResolvedRef? && !next.Published? && !next.Succeeded?
  }

  lemma ReportStage(cfg: Config, w: State, k: Key, obj: Reg, status: Status, next: Then, skipped: Pc)
    requires Exact(w, k, obj) && Reporting(next) && Stage(cfg, w, k, skipped)
    ensures Stage(cfg, w, k, Patch(obj, status, next, skipped))
  {
    hide Exact, Settled, StoresSettled, Result, Planned, Late, Early;
  }

  lemma FailureStage(cfg: Config, w: State, k: Key, obj: Reg, error: string)
    requires Exact(w, k, obj)
    ensures Stage(cfg, w, k, RegistrationFailed(obj, error))
  {
    hide Stage, WithCondition, Exact, Patch;
    IdleStage(cfg, w, k, error);
    ReportStage(cfg, w, k, obj, WithCondition(obj, COMPLETED, false, "RegistrationFailed", error), GiveUp(error),
      Idle(Some(error)));
  }

  lemma IdleStage(cfg: Config, w: State, k: Key, error: string)
    ensures Stage(cfg, w, k, Idle(Some(error)))
  {
  }

  lemma BlockStage(cfg: Config, w: State, k: Key, obj: Reg, error: string)
    requires Exact(w, k, obj)
    ensures Stage(cfg, w, k, Block(obj, error))
  {
    hide Stage, WithCondition, Exact, Patch;
    IdleStage(cfg, w, k, error);
    ReportStage(cfg, w, k, obj, WithCondition(obj, COMPLETED, false, "Blocked",
      "Registration is blocked until Secret reconciliation succeeds"),
      GiveUp(error), Idle(Some(error)));
  }

  lemma SecretFailedStage(cfg: Config, w: State, k: Key, obj: Reg, error: string)
    requires Exact(w, k, obj)
    ensures Stage(cfg, w, k, SecretFailed(obj, error))
  {
    hide Stage, WithCondition, Exact, Patch, Block;
    BlockStage(cfg, w, k, obj, error);
    ReportStage(cfg, w, k, obj, WithCondition(obj, PUBLISHED, false, "SecretReconcileFailed", error),
      SecretUnpublished(error), Block(obj, error));
  }

  lemma InvalidCompletedStage(cfg: Config, w: State, k: Key, obj: Reg, error: string)
    requires Exact(w, k, obj)
    ensures Stage(cfg, w, k, InvalidCompletedPc(obj, error))
  {
    hide Stage, WithCondition, Exact, Patch;
    IdleStage(cfg, w, k, error);
    ReportStage(cfg, w, k, obj, WithCondition(obj, COMPLETED, false, "InvalidSpec",
                "Registration is blocked because the resource specification is invalid"), GiveUp(error),
                Idle(Some(error)));
  }

  lemma InvalidPublishedStage(cfg: Config, w: State, k: Key, obj: Reg, error: string)
    requires Exact(w, k, obj)
    ensures Stage(cfg, w, k, InvalidPublishedPc(obj, error))
  {
    hide Stage, WithCondition, Exact, Patch, InvalidCompletedPc;
    InvalidCompletedStage(cfg, w, k, obj, error);
    ReportStage(cfg, w, k, obj, WithCondition(obj, PUBLISHED, false, "InvalidSpec", error), InvalidPublished(error),
      InvalidCompletedPc(obj, error));
  }

  lemma InvalidSpecStage(cfg: Config, w: State, k: Key, obj: Reg, error: string)
    requires Exact(w, k, obj)
    ensures Stage(cfg, w, k, InvalidSpec(obj, error))
  {
    hide Stage, Exact, Patch, InvalidPublishedPc, WithRef;
    InvalidPublishedStage(cfg, w, k, obj, error);
    ReportStage(cfg, w, k, obj, WithRef(obj, ""), ClearedRef(error), InvalidPublishedPc(obj, error));
  }

  lemma BeginStage(cfg: Config, w: State, k: Key, obj: Reg)
    requires Exact(w, k, obj) && obj.deletedAt.None? && HasFinalizer(obj)
    ensures Stage(cfg, w, k, Begin(obj))
  {
    hide InvalidSpec, ConditionsOk;
    if ResolveSecretName(obj).Err? { InvalidSpecStage(cfg, w, k, obj, ResolveSecretName(obj).error); }
  }

  lemma StoredIsExact(managed: set<string>, w: State, k: Key)
    requires RegsOk(managed, w) && k in w.regs
    ensures Exact(w, k, w.regs[k])
  {
  }

  lemma LoadStage(managed: set<string>, cfg: Config, w: State, k: Key, pc: Pc, o: Outcome, d: Draw)
    requires RegsOk(managed, w) && (pc.Loading? || pc.Finalizing?) && Stage(cfg, w, k, pc)
    ensures var m' := After(cfg, w, pc, o, d); Stage(cfg, m'.world, k, m'.pc)
  {
    hide After, Begin, ConditionsOk, RegsOk, Settled;
    if pc.Loading? {
      AtLoading(cfg, w, pc, o, d);
      StoredIsExact(managed, w, k);
      if HasFinalizer(w.regs[k]) { BeginStage(cfg, w, k, w.regs[k]); }
    } else {
      AtFinalizing(cfg, w, pc, o, d);
      var m' := After(cfg, w, pc, o, d);
      if o.Answered? && w.regs[k] == pc.obj { BeginStage(cfg, m'.world, k, AddFinalizer(pc.obj)); }
    }
  }

  lemma ListedStage(cfg: Config, w: State, k: Key, job: Job, data: RegistrationData)
    requires Early(w, k, job) && Accepted(job)
    ensures Stage(cfg, w, k, Listed(job, data, w.services))
  {
    hide RegistrationFailed, ByConsumer, ConditionsOk, TrimSpace;
    var found := ByConsumer(w.services, job.obj.spec.consumer);
    assert |found| == 1 ==> found == [found[0]];
    FailureStage(cfg, w, k, job.obj, "multiple Cas services found");
    SecretFound(data, job.obj.spec.protocol);
  }

  lemma SecretFound(data: RegistrationData, protocol: Protocol)
    ensures ClientSecret(data, protocol).None? <==> SecretKey(protocol).None?
    ensures ClientSecret(data, protocol).Some? ==> Trimmed(ClientSecret(data, protocol).value)
  {
  }

  lemma ReadStage(cfg: Config, w: State, k: Key, pc: Pc, o: Outcome, d: Draw)
    requires (pc.ReadingData? || pc.Listing? || pc.Generating?) && Stage(cfg, w, k, pc) &&
             LegalDraw(w, RequestAt(pc), o, d)
    ensures var m' := After(cfg, w, pc, o, d); Stage(cfg, m'.world, k, m'.pc)
  {
    hide After, Listed, RegistrationFailed, ValidateRegistration, ConditionsOk, ByConsumer, Encode, Settled;
    forall error: string
      ensures Stage(cfg, w, k, RegistrationFailed(pc.job.obj, error))
    {
      FailureStage(cfg, w, k, pc.job.obj, error);
    }
    if pc.ReadingData? {
      AtReadingData(cfg, w, pc, o, d);
    } else if pc.Listing? {
      AtListing(cfg, w, pc, o, d);
      ListedStage(cfg, w, k, pc.job, pc.data);
    } else {
      AtGenerating(cfg, w, pc, o, d);
      if o.Answered? { GeneratedSecretSurvives(d.bytes); }
    }
  }

  lemma FqdnStage(cfg: Config, w: State, k: Key, pc: Pc, o: Outcome, d: Draw)
    requires pc.ReadingFqdn? && Stage(cfg, w, k, pc)
    ensures var m' := After(cfg, w, pc, o, d); Stage(cfg, m'.world, k, m'.pc)
  {
    hide After, RegistrationFailed, ConditionsOk, ByConsumer, BuildServicePayload, Settled;
    AtReadingFqdn(cfg, w, pc, o, d);
    FailureStage(cfg, w, k, pc.job.obj, FqdnError(o));
  }

  // What the write leaves is what the next reconcile would send.
  lemma WrittenIsSettled(managed: set<string>, cfg: Config, w: State, pc: Pc, d: Draw)
    requires pc.Writing? && PcOk(managed, w, pc) && Registry.Valid(w.services) &&
             LegalDraw(w, RequestAt(pc), Answered, d)
    requires Planned(cfg, w, pc.job, pc.payload, pc.create, pc.secret) && Accepted(pc.job)
    ensures var w' := w.(services := Written(w.services, pc, d.id));
      ServiceSettled(cfg, w', pc.job.obj, pc.secret) &&
      Same(Echo(pc, d), ByConsumer(w'.services, pc.job.obj.spec.consumer)[0])
  {
    hide BuildServicePayload, ByConsumer, ConditionsOk, Replace;
    var existing: Option<Service> :|
      ByConsumer(w.services, pc.job.obj.spec.consumer) == (if existing.None? then [] else [existing.value]) &&
      pc.create == existing.None? &&
      pc.payload == BuildServicePayload(cfg, w.fqdn.value, pc.job.Wanted(), existing, pc.secret);
    WriteEffect(w.services, pc.job.obj.spec.consumer, pc.payload, pc.create, d.id, pc.job.obj.spec.consumer);
    PayloadFixedPoint(cfg, w.fqdn.value, pc.job.Wanted(), existing, pc.secret,
      if pc.create then d.id else pc.payload.id);
    assert pc.payload.(id := pc.payload.id) == pc.payload;
  }

  lemma WriteStage(managed: set<string>, cfg: Config, w: State, k: Key, pc: Pc, o: Outcome, d: Draw)
    requires pc.Writing? && Stage(cfg, w, k, pc) && PcOk(managed, w, pc) && Registry.Valid(w.services) &&
      LegalDraw(w, RequestAt(pc), o, d)
    ensures var m' := After(cfg, w, pc, o, d); Stage(cfg, m'.world, k, m'.pc)
  {
    hide After, RegistrationFailed, ConditionsOk, ByConsumer, Settled, ServiceSettled, Same, Written, Echo, PcOk,
         Planned, Registry.Valid;
    AtWriting(cfg, w, pc, o, d);
    if !o.Refused? { WrittenIsSettled(managed, cfg, w, pc, d); }
    FailureStage(cfg, After(cfg, w, pc, o, d).world, k, pc.job.obj, if o.Answered? then "" else o.error);
  }

  lemma SameData(cfg: Config, fqdn: string, reg: Registration, a: Service, b: Service, s: string)
    requires Same(a, b)
    ensures GetRegistrationData(BuildRegistrationResult(cfg, fqdn, reg, a, s)) ==
            GetRegistrationData(BuildRegistrationResult(cfg, fqdn, reg, b, s))
  {
  }

  lemma UpsertedStage(cfg: Config, w: State, k: Key, job: Job, result: RegistrationResult)
    requires Early(w, k, job) && Accepted(job) && Result(cfg, w, job.obj, GetRegistrationData(result))
    ensures Stage(cfg, w, k, Upserted(job, result))
  {
    hide ConditionsOk, Result, GetRegistrationData;
  }

  lemma FqdnAgainStage(cfg: Config, w: State, k: Key, pc: Pc, o: Outcome, d: Draw)
    requires pc.ReadingFqdnAgain? && Stage(cfg, w, k, pc)
    ensures var m' := After(cfg, w, pc, o, d); Stage(cfg, m'.world, k, m'.pc)
  {
    hide After, RegistrationFailed, ConditionsOk, ByConsumer, BuildServicePayload, BuildRegistrationResult,
         GetRegistrationData, Settled, Upserted;
    AtReadingFqdnAgain(cfg, w, pc, o, d);
    FailureStage(cfg, w, k, pc.job.obj, FqdnError(o));
    var result := BuildRegistrationResult(cfg, w.fqdn.value, pc.job.Wanted(), pc.persisted, pc.secret);
    SameData(cfg, w.fqdn.value, pc.job.Wanted(), pc.persisted, ByConsumer(w.services, pc.job.obj.spec.consumer)[0],
      pc.secret);
    assert DataFor(cfg, w, pc.job.obj, pc.secret) == GetRegistrationData(result);
    UpsertedStage(cfg, w, k, pc.job, result);
  }

  lemma PatchStage(managed: set<string>, cfg: Config, w: State, k: Key, pc: Pc, o: Outcome, d: Draw)
    requires pc.Patching? && Stage(cfg, w, k, pc) && PcOk(managed, w, pc)
    ensures var m' := After(cfg, w, pc, o, d); Stage(cfg, m'.world, k, m'.pc)
  {
    hide After, AfterPatch, ConditionsOk, Settled, Result, StoresSettled, Ready, WithCondition, SaysPublished,
         SaysCompleted, ValidateRegistration,
         ResolveSecretName;
    AtPatching(cfg, w, pc, o, d);
    var w' := After(cfg, w, pc, o, d).world;
    if o.Answered? {
      PatchedStage(managed, cfg, w, k, pc);
    }
  }

  lemma PatchedStage(managed: set<string>, cfg: Config, w: State, k: Key, pc: Pc)
    requires pc.Patching? && Stage(cfg, w, k, pc) && PcOk(managed, w, pc)
    ensures k in w.regs && var obj := w.regs[k].(status := pc.patched.status);
      Stage(cfg, w.(regs := w.regs[k := obj]), k, AfterPatch(obj, pc.next))
  {
    hide ConditionsOk, Settled, Result, StoresSettled, Ready, ValidateRegistration, SetStatusCondition,
         InvalidPublishedPc, InvalidCompletedPc, Block, Succeed, ResolveSecretName;
    var obj := w.regs[k].(status := pc.patched.status);
    var w' := w.(regs := w.regs[k := obj]);
    SameName(pc.base, obj);
    StatusDoesNotMatter(cfg, w, w', pc.base, obj);
    match pc.next
    case ResolvedRef(job, result) => EarlyIsReady(w, k, job);
    case Published => PublishedSaid(w.regs[k]); SucceedStage(cfg, w', k, obj);
    case Succeeded => CompletedSaid(w.regs[k]); NowSettled(cfg, w', k, obj);
    case ClearedRef(e) => InvalidPublishedStage(cfg, w', k, obj, e);
    case InvalidPublished(e) => InvalidCompletedStage(cfg, w', k, obj, e);
    case SecretUnpublished(e) => BlockStage(cfg, w', k, obj, e);
    case GiveUp(e) =>
  }

  lemma SameName(reg: Reg, reg': Reg)
    requires SameButStatus(reg, reg')
    ensures ResolveSecretName(reg') == ResolveSecretName(reg)
  {
  }

  lemma NowSettled(cfg: Config, w: State, k: Key, obj: Reg)
    requires Done(cfg, w, k, obj) && SaysPublished(obj) && SaysCompleted(obj)
    ensures Settled(cfg, w, k)
  {
    hide StoresSettled, ConditionsOk, Ready, SetStatusCondition;
    StatusDoesNotMatter(cfg, w, w, obj, w.regs[k]);
  }

  lemma EarlyIsReady(w: State, k: Key, job: Job)
    requires Early(w, k, job) && Accepted(job)
    ensures Ready(job.obj)
  {
  }

  // The Secret step: what is written, or already there, settles the stores.
  lemma HeldSettles(cfg: Config, w: State, reg: Reg, name: string, managed: bool, secret: Secret,
      data: RegistrationData)
    requires Ready(reg) && ResolveSecretName(reg) == Ok((name, managed)) && Result(cfg, w, reg, data)
    requires Key(reg.namespace, name) in w.secrets && w.secrets[Key(reg.namespace, name)] == secret
    requires SecretHolds(secret, reg, managed, data)
    ensures StoresSettled(cfg, w, reg)
  {
    hide BuildServicePayload, ByConsumer, BuildRegistrationResult;
    var s :| Fit(reg.spec.protocol, s) && ServiceSettled(cfg, w, reg, s) && DataFor(cfg, w, reg, s) == data;
    if SecretKey(reg.spec.protocol).Some? {
      ResultHas(cfg, w.fqdn.value, FromAuthRegistration(reg), ByConsumer(w.services, reg.spec.consumer)[0], s);
    }
    assert SecretSettled(cfg, w, reg, name, managed, s);
  }

  lemma MergedHolds(job: Job, result: RegistrationResult, current: Secret, merged: Secret)
    requires merged == Merge(current, BuildDesiredSecret(result, job.obj, job.name))
    ensures !job.managed ==> SecretHolds(merged, job.obj, job.managed, GetRegistrationData(result))
    ensures job.managed && SetControllerReference(job.obj, merged).Ok? ==>
            SecretHolds(SetControllerReference(job.obj, merged).value, job.obj, job.managed,
              GetRegistrationData(result))
  {
    hide GetRegistrationData;
  }

  lemma WriteSecretStage(cfg: Config, w: State, k: Key, job: Job, result: RegistrationResult, current: Secret,
      secret: Secret)
    requires Late(w, k, job) && Result(cfg, w, job.obj, GetRegistrationData(result))
    requires current.Id() == secret.Id() == job.Target() && current.Id() in w.secrets &&
             w.secrets[current.Id()] == current
    requires SecretHolds(secret, job.obj, job.managed, GetRegistrationData(result))
    ensures Stage(cfg, w, k, if secret == current then CleanUp(job) else UpdatingSecret(job, current, secret))
  {
    hide GetRegistrationData, CleanUp, Result, SecretHolds, ConditionsOk, Ready, StoresSettled;
    if secret == current {
      HeldSettles(cfg, w, job.obj, job.name, job.managed, current, GetRegistrationData(result));
      CleanUpStage(cfg, w, k, job);
    }
  }

  lemma SecretReadStage(cfg: Config, w: State, k: Key, job: Job, result: RegistrationResult, current: Secret)
    requires Late(w, k, job) && Result(cfg, w, job.obj, GetRegistrationData(result))
    requires current.Id() == job.Target() && current.Id() in w.secrets && w.secrets[current.Id()] == current
    ensures Stage(cfg, w, k, SecretRead(job, result, current))
  {
    hide Stage, GetRegistrationData, CleanUp, SecretFailed, Result, SecretHolds, ConditionsOk, BuildDesiredSecret,
         Ready;
    var merged := Merge(current, BuildDesiredSecret(result, job.obj, job.name));
    MergedHolds(job, result, current, merged);
    SecretFailedStage(cfg, w, k, job.obj, "already owned");
    if !job.managed {
      WriteSecretStage(cfg, w, k, job, result, current, merged);
    } else if SetControllerReference(job.obj, merged).Ok? {
      WriteSecretStage(cfg, w, k, job, result, current, SetControllerReference(job.obj, merged).value);
    }
  }

  lemma ReadSecretStage(managed: set<string>, cfg: Config, w: State, k: Key, pc: Pc, o: Outcome, d: Draw)
    requires pc.ReadingSecret? && Stage(cfg, w, k, pc) && SecretsOk(w)
    ensures var m' := After(cfg, w, pc, o, d); Stage(cfg, m'.world, k, m'.pc)
  {
    hide After, SecretRead, SecretFailed, GetRegistrationData, ConditionsOk, Result, Ready, Settled;
    AtReadingSecret(cfg, w, pc, o, d);
    if !o.Answered? {
      SecretFailedStage(cfg, w, k, pc.job.obj, o.error);
    } else if pc.job.Target() in w.secrets {
      SecretReadStage(cfg, w, k, pc.job, pc.result, w.secrets[pc.job.Target()]);
    }
  }

  lemma SecretsDoNotMatter(cfg: Config, w: State, w': State, reg: Reg, data: RegistrationData)
    requires w'.services == w.services && w'.fqdn == w.fqdn && Result(cfg, w, reg, data)
    ensures Result(cfg, w', reg, data)
  {
    hide BuildServicePayload, BuildRegistrationResult, GetRegistrationData;
    var s :| Fit(reg.spec.protocol, s) && ServiceSettled(cfg, w, reg, s) && DataFor(cfg, w, reg, s) == data;
    assert ServiceSettled(cfg, w', reg, s) && DataFor(cfg, w', reg, s) == data;
  }

  lemma SecretWriteStage(cfg: Config, w: State, k: Key, pc: Pc, o: Outcome, d: Draw)
    requires (pc.CreatingSecret? || pc.UpdatingSecret?) && Stage(cfg, w, k, pc)
    ensures var m' := After(cfg, w, pc, o, d); Stage(cfg, m'.world, k, m'.pc)
  {
    hide After, CleanUp, SecretFailed, ConditionsOk, Result, Ready, Settled, SecretHolds, StoresSettled;
    var w' := After(cfg, w, pc, o, d).world;
    forall error: string
      ensures Exact(w', k, pc.job.obj) ==> Stage(cfg, w', k, SecretFailed(pc.job.obj, error))
    {
      if Exact(w', k, pc.job.obj) { SecretFailedStage(cfg, w', k, pc.job.obj, error); }
    }
    if pc.CreatingSecret? {
      AtCreatingSecret(cfg, w, pc, o, d);
      if w' != w {
        SecretsDoNotMatter(cfg, w, w', pc.job.obj, pc.desired.data);
        HeldSettles(cfg, w', pc.job.obj, pc.job.name, pc.job.managed, pc.desired, pc.desired.data);
        CleanUpStage(cfg, w', k, pc.job);
      }
    } else {
      AtUpdatingSecret(cfg, w, pc, o, d);
      var data :| SecretHolds(pc.merged, pc.job.obj, pc.job.managed, data) && Result(cfg, w, pc.job.obj, data);
      if pc.merged.Id() in w'.secrets && w'.secrets[pc.merged.Id()] == pc.merged {
        SecretsDoNotMatter(cfg, w, w', pc.job.obj, data);
        HeldSettles(cfg, w', pc.job.obj, pc.job.name, pc.job.managed, pc.merged, data);
        CleanUpStage(cfg, w', k, pc.job);
      }
    }
  }

  // Deleting another Secret does not unsettle.
  lemma OtherSecretGone(cfg: Config, w: State, w': State, reg: Reg, sk: Key)
    requires StoresSettled(cfg, w, reg) && w' == w.(secrets := w.secrets - {sk}) && ResolvedKey(reg) != Some(sk)
    ensures StoresSettled(cfg, w', reg)
  {
    hide BuildServicePayload, BuildRegistrationResult, GetRegistrationData, SecretHolds, Reuses;
    var (name, managed) := ResolveSecretName(reg).value;
    var s :| ServiceSettled(cfg, w, reg, s) && SecretSettled(cfg, w, reg, name, managed, s);
    assert ServiceSettled(cfg, w', reg, s) && SecretSettled(cfg, w', reg, name, managed, s);
  }

  lemma CleaningStage(cfg: Config, w: State, k: Key, pc: Pc, o: Outcome, d: Draw)
    requires (pc.ReadingPrevious? || pc.DeletingPrevious?) && Stage(cfg, w, k, pc)
    ensures var m' := After(cfg, w, pc, o, d); Stage(cfg, m'.world, k, m'.pc)
  {
    hide After, Publish, ConditionsOk, Ready, Settled, StoresSettled;
    var w' := After(cfg, w, pc, o, d).world;
    if pc.ReadingPrevious? {
      AtReadingPrevious(cfg, w, pc, o, d);
      CleanUpStage(cfg, w, k, pc.job);
    } else {
      AtDeletingPrevious(cfg, w, pc, o, d);
      if !o.Refused? {
        OtherSecretGone(cfg, w, w', pc.job.obj, pc.job.Previous());
        CleanUpStage(cfg, w', k, pc.job);
      }
    }
  }

  lemma CallStage(managed: set<string>, cfg: Config, m: Machine, k: Key, o: Outcome, d: Draw)
    requires Inv(managed, m) && !m.pc.Idle? && LegalDraw(m.world, RequestAt(m.pc), o, d) && Stage(cfg, m.world, k, m.pc)
    ensures var m' := After(cfg, m.world, m.pc, o, d); Stage(cfg, m'.world, k, m'.pc)
  {
    hide After, ByConsumer, PcOk, RegsOk, Result, StoresSettled, ServiceSettled, Planned, ConditionsOk, NextStage;
    var w, pc := m.world, m.pc;
    if pc.Loading? || pc.Finalizing? { LoadStage(managed, cfg, w, k, pc, o, d); }
    else if pc.ReadingData? || pc.Listing? || pc.Generating? { ReadStage(cfg, w, k, pc, o, d); }
    else if pc.ReadingFqdn? { FqdnStage(cfg, w, k, pc, o, d); }
    else if pc.Writing? { WriteStage(managed, cfg, w, k, pc, o, d); }
    else if pc.ReadingFqdnAgain? { FqdnAgainStage(cfg, w, k, pc, o, d); }
    else if pc.Patching? { PatchStage(managed, cfg, w, k, pc, o, d); }
    else if pc.ReadingSecret? { ReadSecretStage(managed, cfg, w, k, pc, o, d); }
    else if pc.CreatingSecret? || pc.UpdatingSecret? { SecretWriteStage(cfg, w, k, pc, o, d); }
    else { CleaningStage(cfg, w, k, pc, o, d); }
  }

  // From the start of a reconcile, calls only (with any outcomes): if it returns without error, its registration is
  // settled.
  lemma {:induction false} SuccessSettles(managed: set<string>, cfg: Config, m: Machine, k: Key, es: seq<Event>)
    requires Inv(managed, m) && LegalRun(cfg, managed, m, es) && Stage(cfg, m.world, k, m.pc)
    requires forall e | e in es :: e.Call?
    ensures var m' := Run(cfg, m, es);
            Stage(cfg, m'.world, k, m'.pc) && (m'.pc == Idle(None) ==> Settled(cfg, m'.world, k))
    decreases |es|
  {
    hide Inv, Serve, Resume, LegalDraw, Settled;
    if es != [] {
      assert es[0] in es;
      StepKeepsInv(managed, cfg, m, es[0]);
      if !m.pc.Idle? { CallStage(managed, cfg, m, k, es[0].outcome, es[0].draw); }
      SuccessSettles(managed, cfg, Step(cfg, m, es[0]), k, es[1..]);
    }
  }

  // A reconcile that returned without error, whichever of its calls failed on the way, is idempotent: the next one
  // reads, sends CAS the record it holds, and leaves both stores as they are.
  lemma SuccessIsIdempotent(managed: set<string>, cfg: Config, w: State, k: Key, es: seq<Event>, d: Draw)
    requires WorldOk(managed, w) && k in w.regs && w.regs[k].deletedAt.None?
    requires LegalRun(cfg, managed, Machine(w, Loading(k)), es) && forall e | e in es :: e.Call?
    requires Run(cfg, Machine(w, Loading(k)), es).pc == Idle(None)
    ensures var w' := Run(cfg, Machine(w, Loading(k)), es).world;
      Settled(cfg, w', k) &&
      var stored := ByConsumer(w'.services, w'.regs[k].spec.consumer); var sk := ResolvedKey(w'.regs[k]);
      |stored| == 1 && sk.Some? &&
      Rests(cfg, w', Loading(k), d,
        [GetReg(k), GetSecret(sk.value), ListServices, GetFqdn, UpdateService(stored[0]), GetFqdn, GetSecret(sk.value)])
  {
    hide Run, LegalRun, Settled, Rests, ByConsumer, RegsOk, SecretsOk;
    var m := Machine(w, Loading(k));
    RunKeepsInv(managed, cfg, m, es);
    SuccessSettles(managed, cfg, m, k, es);
    SettledIsFixedPoint(cfg, Run(cfg, m, es).world, k, d);
  }
}
