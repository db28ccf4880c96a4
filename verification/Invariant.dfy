// What holds in every reachable state: of the two stores, and of the locals of the running reconcile.
module Invariant {
  import opened Wrappers
  import opened GoStrings
  import opened Base64
  import opened Domain
  import opened CasTypes
  import opened Registry
  import opened Mapper
  import opened Cluster
  import opened World
  import opened Worker
  import opened Steps

  // ---- Conditions ----

  predicate ConditionsOk(conditions: seq<Condition>, generation: nat) {
    (forall i, j | 0 <= i < j < |conditions| :: conditions[i].ctype != conditions[j].ctype) &&
    (forall i | 0 <= i < |conditions| :: conditions[i].observedGeneration <= generation)
  }

  lemma {:induction false} SetConditionOk(conditions: seq<Condition>, c: Condition, generation: nat)
    requires ConditionsOk(conditions, generation) && c.observedGeneration <= generation
    ensures ConditionsOk(SetStatusCondition(conditions, c), generation)
    ensures forall d | d in SetStatusCondition(conditions, c) :: d == c || (d in conditions && d.ctype != c.ctype)
    ensures c in SetStatusCondition(conditions, c)
    ensures forall d | d in conditions && d.ctype != c.ctype :: d in SetStatusCondition(conditions, c)
  {
    if conditions != [] {
      var tail := conditions[1..];
      assert conditions == [conditions[0]] + tail;
      if conditions[0].ctype != c.ctype {
        SetConditionOk(tail, c, generation);
        var set' := SetStatusCondition(tail, c);
        forall i | 0 <= i < |set'|
          ensures set'[i].ctype != conditions[0].ctype
        {
          assert set'[i] in set';
        }
      }
    }
  }

  // ---- The stores ----

  predicate RegOk(managed: set<string>, nextUid: nat, reg: Reg) {
    0 <= reg.uid < nextUid && Trimmed(reg.name) &&
    (Blank(reg.spec.consumer) || reg.spec.consumer in managed) &&
    ConditionsOk(reg.status.conditions, reg.generation)
  }

  // Service ids are distinct and not zero, and no managed consumer has two services.
  predicate ServicesOk(managed: set<string>, services: seq<Service>) {
    Valid(services) && forall c | c in managed :: |ByConsumer(services, c)| <= 1
  }

  predicate RegsOk(managed: set<string>, w: State) {
    (forall k | k in w.regs :: w.regs[k].Id() == k && RegOk(managed, w.nextUid, w.regs[k])) &&
    (forall k, k' | k in w.regs && k' in w.regs && k != k' :: w.regs[k].uid != w.regs[k'].uid)
  }

  predicate SecretsOk(w: State) {
    forall k | k in w.secrets :: w.secrets[k].Id() == k
  }

  predicate WorldOk(managed: set<string>, w: State) {
    RegsOk(managed, w) && SecretsOk(w) && ServicesOk(managed, w.services)
  }

  // ---- The locals ----

  // The object in memory is a version of a stored registration that has the finalizer, with the stored status.
  predicate Anchored(w: State, obj: Reg) {
    obj.Id() in w.regs &&
    var stored := w.regs[obj.Id()];
    stored.uid == obj.uid && HasFinalizer(stored) && stored.spec.consumer == obj.spec.consumer &&
    obj.generation <= stored.generation && stored.status == obj.status &&
    ConditionsOk(obj.status.conditions, obj.generation) && Trimmed(obj.name)
  }

  // The object in memory once the finalizer is known to be stored.
  function ObjAt(pc: Pc): Option<Reg> {
    match pc
    case Idle(_) => None
    case Loading(_) => None
    case Finalizing(_) => None
    case ReadingData(job) => Some(job.obj)
    case Listing(job, _) => Some(job.obj)
    case Generating(job, _) => Some(job.obj)
    case ReadingFqdn(job, _, _) => Some(job.obj)
    case Writing(job, _, _, _) => Some(job.obj)
    case ReadingFqdnAgain(job, _, _) => Some(job.obj)
    case Patching(base, _, _) => Some(base)
    case ReadingSecret(job, _) => Some(job.obj)
    case CreatingSecret(job, _) => Some(job.obj)
    case UpdatingSecret(job, _, _) => Some(job.obj)
    case ReadingPrevious(job) => Some(job.obj)
    case DeletingPrevious(job, _) => Some(job.obj)
    case ListingForDelete(obj) => Some(obj)
    case DeletingService(obj, _) => Some(obj)
    case Unfinalizing(obj) => Some(obj)
  }

  predicate NamesService(managed: set<string>, obj: Reg) {
    !Blank(obj.spec.consumer) && obj.spec.consumer in managed
  }

  predicate JobOk(job: Job) {
    ResolveSecretName(job.obj) == Ok((job.name, job.managed)) && job.prev == job.obj.status.resolvedSecretRef
  }

  // The same after status.resolvedSecretRef was moved to the new name.
  predicate MovedJobOk(job: Job) {
    job.obj.status.resolvedSecretRef == job.name && Trimmed(job.name) && job.name != "" &&
    (job.managed ==> job.name == job.obj.name + GENERATED_SUFFIX)
  }

  // What an update of an existing Secret may do: lay credentials, the name label and the type over what was read, and
  // become its controller only if the operator manages it and no object of another kind or name controls it.
  ghost predicate UpdateOk(job: Job, read: Secret, merged: Secret) {
    read.Id() == merged.Id() == job.Target() && merged.stype == OPAQUE &&
    merged.labels == read.labels[NAME_LABEL := job.obj.name] && merged.annotations == read.annotations &&
    DataWritten(read.data, merged.data) &&
    if job.managed then
      (read.controller.Some? ==>
         read.controller.value.kind == REG_KIND && read.controller.value.name == job.obj.name) &&
      merged.controller == Some(OwnerFor(job.obj))
    else merged.controller == read.controller
  }

  ghost predicate DataWritten(data: RegistrationData, data': RegistrationData) {
    exists result :: data' == data + GetRegistrationData(result)
  }

  predicate HasObsolete(job: Job) {
    TrimSpace(job.prev) != "" && TrimSpace(job.prev) != job.name
  }

  predicate PatchOk(base: Reg, patched: Reg, next: Then) {
    patched == base.(status := patched.status) && ConditionsOk(patched.status.conditions, patched.generation) &&
    (!next.ResolvedRef? && !next.ClearedRef? ==> patched.status.resolvedSecretRef == base.status.resolvedSecretRef) &&
    (next.ClearedRef? ==> patched.status.resolvedSecretRef == "") &&
    (next.ResolvedRef? ==>
      next.job.obj == base && JobOk(next.job) && patched.status.resolvedSecretRef == next.job.name &&
      Trimmed(next.job.name) && next.job.name != "")
  }

  ghost predicate LocalsOk(managed: set<string>, pc: Pc) {
    match pc
    case ReadingData(job) => JobOk(job)
    case Listing(job, _) => JobOk(job) && NamesService(managed, job.obj)
    case Generating(job, _) => JobOk(job) && NamesService(managed, job.obj)
    case ReadingFqdn(job, _, _) => JobOk(job) && NamesService(managed, job.obj)
    case Writing(job, payload, create, _) => JobOk(job) && NamesService(managed, job.obj) &&
      ConsumerOf(payload) == job.obj.spec.consumer
    case ReadingFqdnAgain(job, _, _) => JobOk(job) && NamesService(managed, job.obj)
    case Patching(base, patched, next) => PatchOk(base, patched, next)
    case ReadingSecret(job, _) => MovedJobOk(job)
    case CreatingSecret(job, desired) =>
      MovedJobOk(job) && desired.Id() == job.Target() && desired.stype == OPAQUE &&
      desired.controller == Some(OwnerFor(job.obj))
    case UpdatingSecret(job, read, merged) => MovedJobOk(job) && UpdateOk(job, read, merged)
    case ReadingPrevious(job) => MovedJobOk(job) && HasObsolete(job)
    case DeletingPrevious(job, seen) => MovedJobOk(job) && HasObsolete(job) && IsControlledBy(seen, job.obj)
    case ListingForDelete(obj) => NamesService(managed, obj) && obj.deletedAt.Some?
    case DeletingService(obj, _) => NamesService(managed, obj) && obj.deletedAt.Some?
    case Unfinalizing(obj) => NamesService(managed, obj) && obj.deletedAt.Some?
    case _ => true
  }

  predicate OnlyService(services: seq<Service>, obj: Reg, id: int) {
    var found := ByConsumer(services, obj.spec.consumer);
    |found| == 1 && found[0].id == id
  }

  // What the code has learnt about the consumer's service is still so.
  predicate FindingsOk(services: seq<Service>, pc: Pc) {
    match pc
    case Generating(job, existing) => ByConsumer(services, job.obj.spec.consumer) ==
      if existing.None? then [] else [existing.value]
    case ReadingFqdn(job, existing, _) => ByConsumer(services, job.obj.spec.consumer) ==
      if existing.None? then [] else [existing.value]
    case Writing(job, payload, create, _) =>
      if create then ByConsumer(services, job.obj.spec.consumer) == [] else OnlyService(services, job.obj, payload.id)
    case DeletingService(obj, id) => OnlyService(services, obj, id)
    case Unfinalizing(obj) => ByConsumer(services, obj.spec.consumer) == []
    case _ => true
  }

  ghost predicate PcOk(managed: set<string>, w: State, pc: Pc) {
    (ObjAt(pc).Some? ==> Anchored(w, ObjAt(pc).value)) && LocalsOk(managed, pc) && FindingsOk(w.services, pc)
  }

  ghost predicate Inv(managed: set<string>, m: Machine) {
    WorldOk(managed, m.world) && PcOk(managed, m.world, m.pc)
  }

  // ---- Others keep it ----

  // Whatever others do, a registration with the finalizer stays, under its uid and with its consumer and status.
  lemma RegAfterUser(managed: set<string>, w: State, a: UserAct, k: Key)
    requires w.regs.Keys >= {k} && w.regs[k].Id() == k && HasFinalizer(w.regs[k]) && LegalUser(managed, w, a)
    ensures k in Apply(w, a).regs
    ensures var reg, reg' := w.regs[k], Apply(w, a).regs[k];
      reg'.Id() == k && reg'.uid == reg.uid && HasFinalizer(reg') && reg'.spec.consumer == reg.spec.consumer &&
      reg'.status == reg.status && reg.generation <= reg'.generation
  {
  }

  lemma UserKeepsAnchor(managed: set<string>, w: State, a: UserAct, obj: Reg)
    requires RegsOk(managed, w) && LegalUser(managed, w, a) && Anchored(w, obj)
    ensures Anchored(Apply(w, a), obj)
  {
    RegAfterUser(managed, w, a, obj.Id());
    hide Apply, LegalUser;
  }

  // Storing a version of a registration under its uid, or a new one under a fresh uid.
  lemma StoreKeepsRegs(managed: set<string>, w: State, reg: Reg, nextUid: nat)
    requires RegsOk(managed, w) && w.nextUid <= nextUid && RegOk(managed, nextUid, reg)
    requires if reg.Id() in w.regs then reg.uid == w.regs[reg.Id()].uid else reg.uid >= w.nextUid
    ensures RegsOk(managed, w.(regs := w.regs[reg.Id() := reg], nextUid := nextUid))
  {
  }

  lemma DropKeepsRegs(managed: set<string>, w: State, key: Key)
    requires RegsOk(managed, w)
    ensures RegsOk(managed, w.(regs := w.regs - {key}))
  {
  }

  lemma EditKeepsRegs(managed: set<string>, w: State, reg: Reg)
    requires RegsOk(managed, w) && LegalUser(managed, w, EditReg(reg))
    ensures RegsOk(managed, Apply(w, EditReg(reg)))
  {
    hide ByConsumer, Valid, TrimSpace;
    if reg.Id() in w.regs {
      var stored := w.regs[reg.Id()];
      StoreKeepsRegs(managed, w, reg.(uid := stored.uid, deletedAt := stored.deletedAt, status := stored.status,
        generation := if reg.spec == stored.spec then stored.generation else stored.generation + 1), w.nextUid);
      DropKeepsRegs(managed, w, reg.Id());
    }
  }

  lemma UserKeepsRegs(managed: set<string>, w: State, a: UserAct)
    requires RegsOk(managed, w) && LegalUser(managed, w, a)
    ensures RegsOk(managed, Apply(w, a))
  {
    match a
    case CreateReg(reg) =>
      if reg.Id() !in w.regs {
        StoreKeepsRegs(managed, w, reg.(uid := w.nextUid, generation := 1, deletedAt := None,
          status := Status("", [])), w.nextUid + 1);
      }
    case EditReg(reg) => EditKeepsRegs(managed, w, reg);
    case DeleteReg(key, now) =>
      DropKeepsRegs(managed, w, key);
      if key in w.regs {
        StoreKeepsRegs(managed, w, w.regs[key].(deletedAt := Some(now), generation := w.regs[key].generation + 1),
          w.nextUid);
      }
    case _ =>
  }

  lemma UserKeepsFindings(managed: set<string>, w: State, a: UserAct, pc: Pc)
    requires WorldOk(managed, w) && LegalUser(managed, w, a) && LocalsOk(managed, pc) && FindingsOk(w.services, pc)
    ensures FindingsOk(Apply(w, a).services, pc)
  {
  }

  lemma UserKeepsInv(managed: set<string>, m: Machine, a: UserAct)
    requires Inv(managed, m) && LegalUser(managed, m.world, a)
    ensures Inv(managed, m.(world := Apply(m.world, a)))
  {
    UserKeepsRegs(managed, m.world, a);
    UserKeepsFindings(managed, m.world, a, m.pc);
    if ObjAt(m.pc).Some? {
      UserKeepsAnchor(managed, m.world, a, ObjAt(m.pc).value);
    }
  }

  // ---- The worker keeps it: the stores ----

  lemma StoreUpdateKeeps(managed: set<string>, w: State, base: Reg, reg: Reg, o: Outcome, d: Draw)
    requires RegsOk(managed, w) && reg == base.(finalizers := reg.finalizers)
    ensures RegsOk(managed, Serve(w, UpdateReg(base, reg), o, d).0)
  {
    if base.Id() in w.regs && w.regs[base.Id()] == base {
      DropKeepsRegs(managed, w, reg.Id());
      StoreKeepsRegs(managed, w, reg, w.nextUid);
    }
  }

  lemma PatchKeepsRegs(managed: set<string>, w: State, base: Reg, patched: Reg, o: Outcome, d: Draw)
    requires RegsOk(managed, w) && Anchored(w, base) && patched == base.(status := patched.status)
    requires ConditionsOk(patched.status.conditions, patched.generation)
    ensures RegsOk(managed, Serve(w, PatchStatus(base, patched), o, d).0)
  {
    var stored := w.regs[base.Id()];
    StoreKeepsRegs(managed, w, stored.(status := PatchedStatus(stored.status, base.status, patched.status)), w.nextUid);
  }

  lemma RegsFrame(managed: set<string>, w: State, w': State)
    requires RegsOk(managed, w) && w'.regs == w.regs && w'.nextUid == w.nextUid
    ensures RegsOk(managed, w')
  {
  }

  predicate WritesReg(pc: Pc) {
    pc.Finalizing? || pc.Unfinalizing? || pc.Patching?
  }

  lemma RegsUntouched(pc: Pc, w: State, o: Outcome, d: Draw)
    requires !pc.Idle? && !WritesReg(pc)
    ensures var w' := Serve(w, RequestAt(pc), o, d).0; w'.regs == w.regs && w'.nextUid == w.nextUid
  {
    ServeFrame(w, RequestAt(pc), o, d);
  }

  lemma CallKeepsRegs(managed: set<string>, m: Machine, o: Outcome, d: Draw)
    requires Inv(managed, m) && !m.pc.Idle?
    ensures RegsOk(managed, Serve(m.world, RequestAt(m.pc), o, d).0)
  {
    var w' := Serve(m.world, RequestAt(m.pc), o, d).0;
    if m.pc.Finalizing? {
      StoreUpdateKeeps(managed, m.world, m.pc.obj, AddFinalizer(m.pc.obj), o, d);
    } else if m.pc.Unfinalizing? {
      StoreUpdateKeeps(managed, m.world, m.pc.obj, RemoveFinalizer(m.pc.obj), o, d);
    } else if m.pc.Patching? {
      PatchKeepsRegs(managed, m.world, m.pc.base, m.pc.patched, o, d);
    } else {
      RegsUntouched(m.pc, m.world, o, d);
      RegsFrame(managed, m.world, w');
    }
  }

  lemma WriteEffect(services: seq<Service>, c: string, payload: Service, create: bool, id: int, c': string)
    requires Valid(services) && ConsumerOf(payload) == c && (create ==> id != 0 && id !in Ids(services))
    requires if create then ByConsumer(services, c) == []
             else |ByConsumer(services, c)| == 1 && ByConsumer(services, c)[0].id == payload.id
    ensures var services' := if create then services + [payload.(id := id)] else Replace(services, payload);
      && Valid(services')
      && (c' != c ==> ByConsumer(services', c') == ByConsumer(services, c'))
      && (c' == c ==> ByConsumer(services', c') == [if create then payload.(id := id) else payload])
  {
    if create {
      CreateEffect(services, payload.(id := id), c');
    } else {
      var found := ByConsumer(services, c)[0];
      ByConsumerIn(services, c);
      assert found in ByConsumer(services, c);
      ReplaceKeepsValid(services, payload);
      ReplaceEffect(services, found, payload, c');
    }
  }

  lemma DeleteEffect(services: seq<Service>, c: string, id: int, c': string)
    requires Valid(services) && |ByConsumer(services, c)| == 1 && ByConsumer(services, c)[0].id == id
    ensures Valid(Registry.Remove(services, id))
    ensures ByConsumer(Registry.Remove(services, id), c') == if c' == c then [] else ByConsumer(services, c')
  {
    var found := ByConsumer(services, c)[0];
    ByConsumerIn(services, c);
    assert found in ByConsumer(services, c);
    assert forall s | s in services && s.id == id :: s == found;
    RemoveKeepsValid(services, id);
    RemoveEffect(services, id, c');
  }

  // What the service list holds of a consumer after a call.
  function ServicesOfAfter(m: Machine, o: Outcome, d: Draw, c: string): seq<Service> {
    if !o.Refused? && m.pc.Writing? && m.pc.job.obj.spec.consumer == c then
      [if m.pc.create then m.pc.payload.(id := d.id) else m.pc.payload]
    else if !o.Refused? && m.pc.DeletingService? && m.pc.obj.spec.consumer == c then []
    else ByConsumer(m.world.services, c)
  }

  lemma ServicesUntouched(pc: Pc, w: State, o: Outcome, d: Draw)
    requires !pc.Idle? && !pc.Writing? && !pc.DeletingService?
    ensures Serve(w, RequestAt(pc), o, d).0.services == w.services
  {
    ServeFrame(w, RequestAt(pc), o, d);
  }

  lemma ServicesWritten(w: State, pc: Pc, o: Outcome, d: Draw, c: string)
    requires Valid(w.services) && pc.Writing? && ConsumerOf(pc.payload) == pc.job.obj.spec.consumer
    requires FindingsOk(w.services, pc) && LegalDraw(w, RequestAt(pc), o, d)
    ensures var services' := Serve(w, RequestAt(pc), o, d).0.services;
            Valid(services') && ByConsumer(services', c) == ServicesOfAfter(Machine(w, pc), o, d, c)
  {
    if !o.Refused? {
      var payload := pc.payload;
      assert Serve(w, RequestAt(pc), o, d).0.services ==
             if pc.create then w.services + [payload.(id := d.id)] else Replace(w.services, payload);
      WriteEffect(w.services, pc.job.obj.spec.consumer, payload, pc.create, d.id, c);
    }
  }

  lemma ServicesDeleted(w: State, pc: Pc, o: Outcome, d: Draw, c: string)
    requires Valid(w.services) && pc.DeletingService? && FindingsOk(w.services, pc)
    ensures var services' := Serve(w, RequestAt(pc), o, d).0.services;
            Valid(services') && ByConsumer(services', c) == ServicesOfAfter(Machine(w, pc), o, d, c)
  {
    DeleteEffect(w.services, pc.obj.spec.consumer, pc.id, c);
  }

  lemma ServicesAfter(managed: set<string>, m: Machine, o: Outcome, d: Draw, c: string)
    requires Inv(managed, m) && !m.pc.Idle? && LegalDraw(m.world, RequestAt(m.pc), o, d)
    ensures var services' := Serve(m.world, RequestAt(m.pc), o, d).0.services;
            Valid(services') && ByConsumer(services', c) == ServicesOfAfter(m, o, d, c)
  {
    assert m == Machine(m.world, m.pc);
    if m.pc.Writing? {
      ServicesWritten(m.world, m.pc, o, d, c);
    } else if m.pc.DeletingService? {
      ServicesDeleted(m.world, m.pc, o, d, c);
    } else {
      ServicesUntouched(m.pc, m.world, o, d);
    }
  }

  lemma CallKeepsServices(managed: set<string>, m: Machine, o: Outcome, d: Draw)
    requires Inv(managed, m) && !m.pc.Idle? && LegalDraw(m.world, RequestAt(m.pc), o, d)
    ensures ServicesOk(managed, Serve(m.world, RequestAt(m.pc), o, d).0.services)
  {
    ServicesAfter(managed, m, o, d, "");
    forall c | c in managed
      ensures |ByConsumer(Serve(m.world, RequestAt(m.pc), o, d).0.services, c)| <= 1
    {
      ServicesAfter(managed, m, o, d, c);
    }
  }

  lemma ServeKeepsSecrets(w: State, request: Request, o: Outcome, d: Draw)
    requires SecretsOk(w)
    ensures SecretsOk(Serve(w, request, o, d).0)
  {
  }

  // What a call can do to a stored registration.
  ghost predicate RegAfter(pc: Pc, w: State, w': State, k: Key)
    requires k in w.regs
  {
    var reg := w.regs[k];
    match pc
    case Finalizing(_) => k in w'.regs && (w'.regs[k] == reg || w'.regs[k] == AddFinalizer(reg))
    case Patching(base, patched, _) =>
      k in w'.regs && (w'.regs[k] == reg || (k == base.Id() && w'.regs[k] == reg.(status := patched.status)))
    case Unfinalizing(obj) =>
      if k == obj.Id() then k !in w'.regs || w'.regs[k] == reg || w'.regs[k] == RemoveFinalizer(reg)
      else k in w'.regs && w'.regs[k] == reg
    case _ => k in w'.regs && w'.regs[k] == reg
  }

  lemma RegAfterCall(m: Machine, o: Outcome, d: Draw, k: Key)
    requires !m.pc.Idle? && k in m.world.regs
    requires m.pc.Patching? ==>
             Anchored(m.world, m.pc.base) && m.pc.patched == m.pc.base.(status := m.pc.patched.status)
    ensures RegAfter(m.pc, m.world, Serve(m.world, RequestAt(m.pc), o, d).0, k)
    ensures Serve(m.world, RequestAt(m.pc), o, d).0.regs.Keys <= m.world.regs.Keys
  {
    if !WritesReg(m.pc) {
      RegsUntouched(m.pc, m.world, o, d);
    }
  }

  lemma RegAfterInv(managed: set<string>, m: Machine, o: Outcome, d: Draw, k: Key)
    requires Inv(managed, m) && !m.pc.Idle? && k in m.world.regs
    ensures RegAfter(m.pc, m.world, Serve(m.world, RequestAt(m.pc), o, d).0, k)
    ensures Serve(m.world, RequestAt(m.pc), o, d).0.regs.Keys <= m.world.regs.Keys
  {
    hide Serve, WorldOk, FindingsOk;
    RegAfterCall(m, o, d, k);
  }

  lemma NoNewRegs(m: Machine, o: Outcome, d: Draw)
    requires !m.pc.Idle?
    ensures Serve(m.world, RequestAt(m.pc), o, d).0.regs.Keys <= m.world.regs.Keys
  {
  }

  // Calls create no registration and leave everything of one but its status and finalizers alone.
  lemma SpecKept(managed: set<string>, m: Machine, o: Outcome, d: Draw, k: Key)
    requires Inv(managed, m) && !m.pc.Idle? && k in Serve(m.world, RequestAt(m.pc), o, d).0.regs
    ensures k in m.world.regs
    ensures var reg, reg' := m.world.regs[k], Serve(m.world, RequestAt(m.pc), o, d).0.regs[k];
      reg' == reg.(status := reg'.status, finalizers := reg'.finalizers)
  {
    hide Serve, Inv;
    NoNewRegs(m, o, d);
    RegAfterInv(managed, m, o, d, k);
  }

  // ---- The worker keeps it: the locals ----

  // A condition patch of an anchored object, when where it leads without a call is fine too.
  lemma ConditionPatchOk(managed: set<string>, w: State, obj: Reg, ctype: string, isTrue: bool, reason: string,
      message: string, next: Then, skipped: Pc)
    requires Anchored(w, obj) && !next.ResolvedRef? && !next.ClearedRef? && PcOk(managed, w, skipped)
    ensures PcOk(managed, w, Patch(obj, WithCondition(obj, ctype, isTrue, reason, message), next, skipped))
  {
    SetConditionOk(obj.status.conditions, Condition(ctype, isTrue, reason, message, obj.generation), obj.generation);
  }

  lemma RegistrationFailedOk(managed: set<string>, w: State, obj: Reg, error: string)
    requires Anchored(w, obj)
    ensures PcOk(managed, w, RegistrationFailed(obj, error))
  {
    ConditionPatchOk(managed, w, obj, COMPLETED, false, "RegistrationFailed", error, GiveUp(error), Idle(Some(error)));
  }

  lemma BlockOk(managed: set<string>, w: State, obj: Reg, error: string)
    requires Anchored(w, obj)
    ensures PcOk(managed, w, Block(obj, error))
  {
    ConditionPatchOk(managed, w, obj, COMPLETED, false, "Blocked",
      "Registration is blocked until Secret reconciliation succeeds", GiveUp(error), Idle(Some(error)));
  }

  lemma SecretFailedOk(managed: set<string>, w: State, obj: Reg, error: string)
    requires Anchored(w, obj)
    ensures PcOk(managed, w, SecretFailed(obj, error))
  {
    BlockOk(managed, w, obj, error);
    ConditionPatchOk(managed, w, obj, PUBLISHED, false, "SecretReconcileFailed", error, SecretUnpublished(error),
      Block(obj, error));
  }

  lemma InvalidCompletedOk(managed: set<string>, w: State, obj: Reg, error: string)
    requires Anchored(w, obj)
    ensures PcOk(managed, w, InvalidCompletedPc(obj, error))
  {
    ConditionPatchOk(managed, w, obj, COMPLETED, false, "InvalidSpec",
                     "Registration is blocked because the resource specification is invalid", GiveUp(error),
                     Idle(Some(error)));
  }

  lemma InvalidPublishedOk(managed: set<string>, w: State, obj: Reg, error: string)
    requires Anchored(w, obj)
    ensures PcOk(managed, w, InvalidPublishedPc(obj, error))
  {
    InvalidCompletedOk(managed, w, obj, error);
    ConditionPatchOk(managed, w, obj, PUBLISHED, false, "InvalidSpec", error, InvalidPublished(error),
      InvalidCompletedPc(obj, error));
  }

  lemma InvalidSpecOk(managed: set<string>, w: State, obj: Reg, error: string)
    requires Anchored(w, obj)
    ensures PcOk(managed, w, InvalidSpec(obj, error))
  {
    InvalidPublishedOk(managed, w, obj, error);
  }

  lemma SucceedOk(managed: set<string>, w: State, obj: Reg)
    requires Anchored(w, obj)
    ensures PcOk(managed, w, Succeed(obj))
  {
    ConditionPatchOk(managed, w, obj, COMPLETED, true, "RegistrationSucceeded",
                     "Service registration was reconciled successfully", Succeeded, Idle(None));
  }

  lemma PublishOk(managed: set<string>, w: State, obj: Reg)
    requires Anchored(w, obj)
    ensures PcOk(managed, w, Publish(obj))
  {
    SucceedOk(managed, w, obj);
    ConditionPatchOk(managed, w, obj, PUBLISHED, true, "SecretReconciled", "Credentials Secret is ready", Published,
      Succeed(obj));
  }

  lemma CleanUpOk(managed: set<string>, w: State, job: Job)
    requires Anchored(w, job.obj) && MovedJobOk(job)
    ensures PcOk(managed, w, CleanUp(job))
  {
    PublishOk(managed, w, job.obj);
  }

  // Resolved names have no white space around them.
  lemma NameTrimmed(obj: Reg)
    requires Trimmed(obj.name)
    ensures ResolveSecretName(obj).Ok? ==>
            Trimmed(ResolveSecretName(obj).value.0) && ResolveSecretName(obj).value.0 != ""
  {
    var generated := obj.name + GENERATED_SUFFIX;
    assert generated[|generated| - 1] == 's';
    assert obj.name != "" ==> generated[0] == obj.name[0];
    assert obj.name == "" ==> generated[0] == '-';
  }

  lemma BeginOk(managed: set<string>, w: State, obj: Reg)
    requires Anchored(w, obj)
    ensures PcOk(managed, w, Begin(obj))
  {
    if ResolveSecretName(obj).Err? {
      InvalidSpecOk(managed, w, obj, ResolveSecretName(obj).error);
    }
  }

  lemma GeneratingOk(managed: set<string>, w: State, job: Job, existing: Option<Service>)
    requires Anchored(w, job.obj) && JobOk(job) && NamesService(managed, job.obj)
    requires ByConsumer(w.services, job.obj.spec.consumer) == if existing.None? then [] else [existing.value]
    ensures PcOk(managed, w, Generating(job, existing))
  {
  }

  lemma ReadingFqdnOk(managed: set<string>, w: State, job: Job, existing: Option<Service>, secret: string)
    requires Anchored(w, job.obj) && JobOk(job) && NamesService(managed, job.obj)
    requires ByConsumer(w.services, job.obj.spec.consumer) == if existing.None? then [] else [existing.value]
    ensures PcOk(managed, w, ReadingFqdn(job, existing, secret))
  {
  }

  lemma ListedOk(managed: set<string>, w: State, job: Job, data: RegistrationData)
    requires Anchored(w, job.obj) && JobOk(job) && NamesService(managed, job.obj)
    ensures PcOk(managed, w, Listed(job, data, w.services))
  {
    var found := ByConsumer(w.services, job.obj.spec.consumer);
    hide PcOk, RegistrationFailed, Anchored, JobOk, ByConsumer;
    if |found| > 1 {
      RegistrationFailedOk(managed, w, job.obj, "multiple Cas services found");
    } else {
      assert found == if |found| == 0 then [] else [found[0]];
      var existing := if |found| == 0 then None else Some(found[0]);
      GeneratingOk(managed, w, job, existing);
      var secret := ClientSecret(data, job.obj.spec.protocol);
      ReadingFqdnOk(managed, w, job, existing, if secret.None? then "" else secret.value);
    }
  }

  lemma UpsertedOk(managed: set<string>, w: State, job: Job, result: RegistrationResult)
    requires Anchored(w, job.obj) && JobOk(job)
    ensures PcOk(managed, w, Upserted(job, result))
  {
    NameTrimmed(job.obj);
  }

  lemma MergeOk(job: Job, result: RegistrationResult, current: Secret, merged: Secret)
    requires current.Id() == job.Target()
    requires merged == Merge(current, BuildDesiredSecret(result, job.obj, job.name))
    ensures !job.managed ==> UpdateOk(job, current, merged)
    ensures job.managed && SetControllerReference(job.obj, merged).Ok? ==>
            UpdateOk(job, current, SetControllerReference(job.obj, merged).value)
  {
    assert merged.annotations == current.annotations;
    assert merged.labels == current.labels[NAME_LABEL := job.obj.name];
    assert merged.data == current.data + GetRegistrationData(result);
    hide GetRegistrationData;
  }

  lemma UpdatingSecretOk(managed: set<string>, w: State, job: Job, read: Secret, merged: Secret)
    requires Anchored(w, job.obj) && MovedJobOk(job) && UpdateOk(job, read, merged)
    ensures PcOk(managed, w, UpdatingSecret(job, read, merged))
  {
  }

  lemma SecretReadOk(managed: set<string>, w: State, job: Job, result: RegistrationResult, current: Secret)
    requires Anchored(w, job.obj) && MovedJobOk(job) && current.Id() == job.Target()
    ensures PcOk(managed, w, SecretRead(job, result, current))
  {
    hide CleanUp, SecretFailed, PcOk, UpdateOk, Merge, BuildDesiredSecret;
    CleanUpOk(managed, w, job);
    SecretFailedOk(managed, w, job.obj, "already owned");
    var merged := Merge(current, BuildDesiredSecret(result, job.obj, job.name));
    MergeOk(job, result, current, merged);
    if !job.managed {
      UpdatingSecretOk(managed, w, job, current, merged);
    } else if SetControllerReference(job.obj, merged).Ok? {
      UpdatingSecretOk(managed, w, job, current, SetControllerReference(job.obj, merged).value);
    }
  }

  lemma BeginDeletionOk(managed: set<string>, w: State, obj: Reg)
    requires Anchored(w, obj) && RegOk(managed, w.nextUid, obj) && obj.deletedAt.Some?
    ensures PcOk(managed, w, BeginDeletion(obj))
  {
  }

  lemma StoredIsAnchored(managed: set<string>, w: State, obj: Reg)
    requires RegsOk(managed, w) && obj.Id() in w.regs && w.regs[obj.Id()] == obj && HasFinalizer(obj)
    ensures Anchored(w, obj) && RegOk(managed, w.nextUid, obj)
  {
  }

  lemma LoadedOk(managed: set<string>, w: State, obj: Reg)
    requires RegsOk(managed, w) && obj.Id() in w.regs && w.regs[obj.Id()] == obj
    ensures PcOk(managed, w, Loaded(obj))
  {
    if HasFinalizer(obj) {
      StoredIsAnchored(managed, w, obj);
      if obj.deletedAt.Some? {
        BeginDeletionOk(managed, w, obj);
      } else {
        BeginOk(managed, w, obj);
      }
    }
  }

  lemma LoadKeeps(managed: set<string>, cfg: Config, w: State, pc: Pc, o: Outcome, d: Draw)
    requires RegsOk(managed, w) && PcOk(managed, w, pc) && pc.Loading?
    ensures var m' := After(cfg, w, pc, o, d); PcOk(managed, m'.world, m'.pc)
  {
    hide After, Loaded, Anchored;
    AtLoading(cfg, w, pc, o, d);
    if pc.key in w.regs { LoadedOk(managed, w, w.regs[pc.key]); }
  }

  lemma FinalizeKeeps(managed: set<string>, cfg: Config, w: State, pc: Pc, o: Outcome, d: Draw)
    requires RegsOk(managed, w) && PcOk(managed, w, pc) && pc.Finalizing?
    ensures var m' := After(cfg, w, pc, o, d); PcOk(managed, m'.world, m'.pc)
  {
    var (w', r) := Serve(w, RequestAt(pc), o, d);
    if r.RegAnswer? {
      StoreUpdateKeeps(managed, w, pc.obj, AddFinalizer(pc.obj), o, d);
      StoredIsAnchored(managed, w', r.reg);
      BeginOk(managed, w', r.reg);
    }
  }

  lemma BeginUpsertOk(managed: set<string>, w: State, job: Job, data: RegistrationData)
    requires RegsOk(managed, w) && Anchored(w, job.obj) && JobOk(job)
    ensures PcOk(managed, w, BeginUpsert(job, data))
  {
    var invalid := ValidateRegistration(job.Wanted());
    if invalid.Some? {
      RegistrationFailedOk(managed, w, job.obj, invalid.value);
    } else {
      assert RegOk(managed, w.nextUid, w.regs[job.obj.Id()]);
    }
  }

  lemma ReadDataOk(managed: set<string>, w: State, pc: Pc)
    requires PcOk(managed, w, pc) && pc.ReadingData?
    ensures Anchored(w, pc.job.obj) && JobOk(pc.job)
  {
  }

  lemma ReadDataKeeps(managed: set<string>, cfg: Config, w: State, pc: Pc, o: Outcome, d: Draw)
    requires RegsOk(managed, w) && PcOk(managed, w, pc) && pc.ReadingData?
    ensures var m' := After(cfg, w, pc, o, d); PcOk(managed, m'.world, m'.pc)
  {
    hide After, PcOk, BeginUpsert, RegsOk;
    AtReadingData(cfg, w, pc, o, d);
    if o.Answered? {
      ReadDataOk(managed, w, pc);
      BeginUpsertOk(managed, w, pc.job,
                    if pc.job.Target() in w.secrets then w.secrets[pc.job.Target()].data else map[]);
    } else {
      IdleOk(managed, w, Some(o.error));
    }
  }

  lemma IdleOk(managed: set<string>, w: State, returned: Option<string>)
    ensures PcOk(managed, w, Idle(returned))
  {
  }

  lemma ListKeeps(managed: set<string>, cfg: Config, w: State, pc: Pc, o: Outcome, d: Draw)
    requires PcOk(managed, w, pc) && pc.Listing?
    ensures var m' := After(cfg, w, pc, o, d); PcOk(managed, m'.world, m'.pc)
  {
    hide After, PcOk, RegistrationFailed, Listed, Anchored;
    AtListing(cfg, w, pc, o, d);
    CarriesJob(managed, w, pc, pc.job);
    if o.Answered? {
      ListedOk(managed, w, pc.job, pc.data);
    } else {
      RegistrationFailedOk(managed, w, pc.job.obj, o.error);
    }
  }

  lemma GenerateKeeps(managed: set<string>, cfg: Config, w: State, pc: Pc, o: Outcome, d: Draw)
    requires PcOk(managed, w, pc) && pc.Generating?
    ensures var m' := After(cfg, w, pc, o, d); PcOk(managed, m'.world, m'.pc)
  {
    hide RegistrationFailed, After, Encode, Anchored;
    AtGenerating(cfg, w, pc, o, d);
    if o.Answered? {
      ReadingFqdnOk(managed, w, pc.job, pc.existing, Encode(d.bytes));
    } else {
      RegistrationFailedOk(managed, w, pc.job.obj, o.error);
    }
  }

  lemma CarriesJob(managed: set<string>, w: State, pc: Pc, job: Job)
    requires PcOk(managed, w, pc)
    requires (pc.Listing? && job == pc.job) || (pc.Writing? && job == pc.job) || (pc.ReadingFqdnAgain? && job == pc.job)
    ensures Anchored(w, job.obj) && JobOk(job) && NamesService(managed, job.obj)
  {
  }

  lemma ReadFqdnAgainKeeps(managed: set<string>, cfg: Config, w: State, pc: Pc, o: Outcome, d: Draw)
    requires PcOk(managed, w, pc) && pc.ReadingFqdnAgain?
    ensures var m' := After(cfg, w, pc, o, d); PcOk(managed, m'.world, m'.pc)
  {
    hide After, PcOk, RegistrationFailed, Upserted, BuildRegistrationResult, Anchored;
    AtReadingFqdnAgain(cfg, w, pc, o, d);
    CarriesJob(managed, w, pc, pc.job);
    if o.Answered? && w.fqdn.Some? {
      UpsertedOk(managed, w, pc.job,
                 BuildRegistrationResult(cfg, w.fqdn.value, pc.job.Wanted(), pc.persisted, pc.secret));
    }
    RegistrationFailedOk(managed, w, pc.job.obj, FqdnError(o));
  }

  lemma PayloadConsumer(cfg: Config, fqdn: string, reg: Registration, existing: Option<Service>, secret: string)
    ensures ConsumerOf(BuildServicePayload(cfg, fqdn, reg, existing, secret)) == reg.consumer
    ensures BuildServicePayload(cfg, fqdn, reg, existing, secret).id == if existing.None? then 0 else existing.value.id
  {
  }

  lemma WritingOk(managed: set<string>, cfg: Config, w: State, pc: Pc, fqdn: string)
    requires PcOk(managed, w, pc) && pc.ReadingFqdn?
    ensures PcOk(managed, w, Writing(pc.job, BuildServicePayload(cfg, fqdn, pc.job.Wanted(), pc.existing, pc.secret),
                                     pc.existing.None?, pc.secret))
  {
    PayloadConsumer(cfg, fqdn, pc.job.Wanted(), pc.existing, pc.secret);
    hide BuildServicePayload, ConsumerOf;
  }

  lemma ReadFqdnKeeps(managed: set<string>, cfg: Config, w: State, pc: Pc, o: Outcome, d: Draw)
    requires PcOk(managed, w, pc) && pc.ReadingFqdn?
    ensures var m' := After(cfg, w, pc, o, d); PcOk(managed, m'.world, m'.pc)
  {
    hide RegistrationFailed, After, BuildServicePayload, Anchored;
    AtReadingFqdn(cfg, w, pc, o, d);
    if o.Answered? && w.fqdn.Some? {
      WritingOk(managed, cfg, w, pc, w.fqdn.value);
    } else {
      RegistrationFailedOk(managed, w, pc.job.obj, FqdnError(o));
    }
  }

  lemma AnchorFrame(w: State, w': State, obj: Reg)
    requires Anchored(w, obj) && w'.regs == w.regs
    ensures Anchored(w', obj)
  {
  }

  lemma WriteKeeps(managed: set<string>, cfg: Config, w: State, pc: Pc, o: Outcome, d: Draw)
    requires PcOk(managed, w, pc) && pc.Writing?
    ensures var m' := After(cfg, w, pc, o, d); PcOk(managed, m'.world, m'.pc)
  {
    hide After, RegistrationFailed, Written, Echo, Anchored;
    AtWriting(cfg, w, pc, o, d);
    var w' := After(cfg, w, pc, o, d).world;
    AnchorFrame(w, w', pc.job.obj);
    if !o.Answered? { RegistrationFailedOk(managed, w', pc.job.obj, o.error); }
  }

  // An answered patch stores the patched status and returns the stored object.
  lemma PatchAnswer(managed: set<string>, w: State, base: Reg, patched: Reg, d: Draw)
    requires RegsOk(managed, w) && Anchored(w, base) && patched == base.(status := patched.status)
    requires ConditionsOk(patched.status.conditions, patched.generation)
    ensures var (w', r) := Perform(w, PatchStatus(base, patched), d);
      r == RegAnswer(w.regs[base.Id()].(status := patched.status)) && w' == w.(regs := w.regs[base.Id() := r.reg]) &&
      Anchored(w', r.reg)
  {
  }

  lemma AfterPatchOk(managed: set<string>, w: State, obj: Reg, base: Reg, next: Then)
    requires Anchored(w, obj) && (next.ResolvedRef? ==> MovedJobOk(next.job.(obj := obj)))
    ensures PcOk(managed, w, AfterPatch(obj, next))
  {
    match next
    case ClearedRef(error) => InvalidPublishedOk(managed, w, obj, error);
    case InvalidPublished(error) => InvalidCompletedOk(managed, w, obj, error);
    case SecretUnpublished(error) => BlockOk(managed, w, obj, error);
    case Published => SucceedOk(managed, w, obj);
    case _ =>
  }

  lemma PatchKeeps(managed: set<string>, cfg: Config, w: State, pc: Pc, o: Outcome, d: Draw)
    requires RegsOk(managed, w) && PcOk(managed, w, pc) && pc.Patching?
    ensures var m' := After(cfg, w, pc, o, d); PcOk(managed, m'.world, m'.pc)
  {
    var (w', r) := Serve(w, RequestAt(pc), o, d);
    PatchAnswer(managed, w, pc.base, pc.patched, d);
    hide PcOk, AfterPatch, Anchored;
    if r.RegAnswer? {
      AfterPatchOk(managed, w', r.reg, pc.base, pc.next);
    } else {
      IdleOk(managed, w', AfterFailedPatch(pc.next, Error(r)).returned);
    }
  }

  lemma CreatingSecretOk(managed: set<string>, w: State, job: Job, result: RegistrationResult)
    requires Anchored(w, job.obj) && MovedJobOk(job)
    ensures PcOk(managed, w, CreatingSecret(job,
            BuildDesiredSecret(result, job.obj, job.name).(controller := Some(OwnerFor(job.obj)))))
  {
    hide GetRegistrationData;
  }

  lemma ReadSecretKeeps(managed: set<string>, cfg: Config, w: State, pc: Pc, o: Outcome, d: Draw)
    requires SecretsOk(w) && PcOk(managed, w, pc) && pc.ReadingSecret?
    ensures var m' := After(cfg, w, pc, o, d); PcOk(managed, m'.world, m'.pc)
  {
    hide After, RegsOk, Anchored, SecretRead, SecretFailed, BuildDesiredSecret;
    AtReadingSecret(cfg, w, pc, o, d);
    if !o.Answered? {
      SecretFailedOk(managed, w, pc.job.obj, o.error);
    } else if pc.job.Target() in w.secrets {
      SecretReadOk(managed, w, pc.job, pc.result, w.secrets[pc.job.Target()]);
    } else {
      CreatingSecretOk(managed, w, pc.job, pc.result);
    }
  }

  lemma WriteSecretKeeps(managed: set<string>, cfg: Config, w: State, pc: Pc, o: Outcome, d: Draw)
    requires PcOk(managed, w, pc) && (pc.CreatingSecret? || pc.UpdatingSecret?)
    ensures var m' := After(cfg, w, pc, o, d); PcOk(managed, m'.world, m'.pc)
  {
    hide After, SecretFailed, CleanUp, Anchored, UpdateOk;
    var w' := After(cfg, w, pc, o, d).world;
    if pc.CreatingSecret? { AtCreatingSecret(cfg, w, pc, o, d); } else { AtUpdatingSecret(cfg, w, pc, o, d); }
    AnchorFrame(w, w', pc.job.obj);
    CleanUpOk(managed, w', pc.job);
    forall error: string
      ensures PcOk(managed, w', SecretFailed(pc.job.obj, error))
    {
      SecretFailedOk(managed, w', pc.job.obj, error);
    }
  }

  lemma DeletingPreviousOk(managed: set<string>, w: State, job: Job, seen: Secret)
    requires Anchored(w, job.obj) && MovedJobOk(job) && HasObsolete(job) && IsControlledBy(seen, job.obj)
    ensures PcOk(managed, w, DeletingPrevious(job, seen))
  {
  }

  lemma ReadPreviousKeeps(managed: set<string>, cfg: Config, w: State, pc: Pc, o: Outcome, d: Draw)
    requires PcOk(managed, w, pc) && pc.ReadingPrevious?
    ensures var m' := After(cfg, w, pc, o, d); PcOk(managed, m'.world, m'.pc)
  {
    hide After, Anchored, Publish, TrimSpace;
    AtReadingPrevious(cfg, w, pc, o, d);
    var prev := pc.job.Previous();
    if o.Answered? && prev in w.secrets && IsControlledBy(w.secrets[prev], pc.job.obj) {
      DeletingPreviousOk(managed, w, pc.job, w.secrets[prev]);
    }
    PublishOk(managed, w, pc.job.obj);
  }

  lemma DeletePreviousKeeps(managed: set<string>, cfg: Config, w: State, pc: Pc, o: Outcome, d: Draw)
    requires PcOk(managed, w, pc) && pc.DeletingPrevious?
    ensures var m' := After(cfg, w, pc, o, d); PcOk(managed, m'.world, m'.pc)
  {
    hide After, Publish, Anchored;
    AtDeletingPrevious(cfg, w, pc, o, d);
    var w' := After(cfg, w, pc, o, d).world;
    AnchorFrame(w, w', pc.job.obj);
    PublishOk(managed, w', pc.job.obj);
  }

  lemma ListedForDeleteOk(managed: set<string>, w: State, obj: Reg)
    requires Anchored(w, obj) && NamesService(managed, obj) && obj.deletedAt.Some?
    ensures PcOk(managed, w, ListedForDelete(obj, w.services))
  {
  }

  lemma ListForDeleteKeeps(managed: set<string>, cfg: Config, w: State, pc: Pc, o: Outcome, d: Draw)
    requires PcOk(managed, w, pc) && pc.ListingForDelete?
    ensures var m' := After(cfg, w, pc, o, d); PcOk(managed, m'.world, m'.pc)
  {
    hide After, ListedForDelete, Anchored;
    AtListingForDelete(cfg, w, pc, o, d);
    ListedForDeleteOk(managed, w, pc.obj);
  }

  lemma DeleteServiceKeeps(managed: set<string>, cfg: Config, w: State, pc: Pc, o: Outcome, d: Draw)
    requires Valid(w.services) && PcOk(managed, w, pc) && pc.DeletingService?
    ensures var m' := After(cfg, w, pc, o, d); PcOk(managed, m'.world, m'.pc)
  {
    hide After, Anchored, ByConsumer, Registry.Remove, Valid;
    AtDeletingService(cfg, w, pc, o, d);
    var w' := After(cfg, w, pc, o, d).world;
    AnchorFrame(w, w', pc.obj);
    DeleteEffect(w.services, pc.obj.spec.consumer, pc.id, pc.obj.spec.consumer);
  }

  lemma CallKeepsPc(managed: set<string>, cfg: Config, w: State, pc: Pc, o: Outcome, d: Draw)
    requires WorldOk(managed, w) && PcOk(managed, w, pc) && !pc.Idle? && LegalDraw(w, RequestAt(pc), o, d)
    ensures var m' := After(cfg, w, pc, o, d); PcOk(managed, m'.world, m'.pc)
  {
    match pc
    case Loading(_) => LoadKeeps(managed, cfg, w, pc, o, d);
    case Finalizing(_) => FinalizeKeeps(managed, cfg, w, pc, o, d);
    case ReadingData(_) => ReadDataKeeps(managed, cfg, w, pc, o, d);
    case Listing(_, _) => ListKeeps(managed, cfg, w, pc, o, d);
    case Generating(_, _) => GenerateKeeps(managed, cfg, w, pc, o, d);
    case ReadingFqdn(_, _, _) => ReadFqdnKeeps(managed, cfg, w, pc, o, d);
    case Writing(_, _, _, _) => WriteKeeps(managed, cfg, w, pc, o, d);
    case ReadingFqdnAgain(_, _, _) => ReadFqdnAgainKeeps(managed, cfg, w, pc, o, d);
    case Patching(_, _, _) => PatchKeeps(managed, cfg, w, pc, o, d);
    case ReadingSecret(_, _) => ReadSecretKeeps(managed, cfg, w, pc, o, d);
    case CreatingSecret(_, _) => WriteSecretKeeps(managed, cfg, w, pc, o, d);
    case UpdatingSecret(_, _, _) => WriteSecretKeeps(managed, cfg, w, pc, o, d);
    case ReadingPrevious(_) => ReadPreviousKeeps(managed, cfg, w, pc, o, d);
    case DeletingPrevious(_, _) => DeletePreviousKeeps(managed, cfg, w, pc, o, d);
    case ListingForDelete(_) => ListForDeleteKeeps(managed, cfg, w, pc, o, d);
    case DeletingService(_, _) => DeleteServiceKeeps(managed, cfg, w, pc, o, d);
    case Unfinalizing(_) => IdleOk(managed, Serve(w, RequestAt(pc), o, d).0,
      Resume(cfg, pc, Serve(w, RequestAt(pc), o, d).1).returned);
  }

  // ---- Every reachable state ----

  lemma StepKeepsInv(managed: set<string>, cfg: Config, m: Machine, e: Event)
    requires Inv(managed, m) && Legal(managed, m, e)
    ensures Inv(managed, Step(cfg, m, e))
  {
    match e
    case User(act) => UserKeepsInv(managed, m, act);
    case Call(o, d) =>
      if !m.pc.Idle? {
        CallKeepsRegs(managed, m, o, d);
        CallKeepsServices(managed, m, o, d);
        ServeKeepsSecrets(m.world, RequestAt(m.pc), o, d);
        CallKeepsPc(managed, cfg, m.world, m.pc, o, d);
      }
    case _ =>
  }

  // From any sound state with no reconcile running, every state of every run is sound: whatever calls fail or lose
  // their answer, whatever users do in between, and wherever the operator crashes.
  lemma {:induction false} RunKeepsInv(managed: set<string>, cfg: Config, m: Machine, es: seq<Event>)
    requires Inv(managed, m) && LegalRun(cfg, managed, m, es)
    ensures Inv(managed, Run(cfg, m, es))
    decreases |es|
  {
    if es != [] {
      StepKeepsInv(managed, cfg, m, es[0]);
      RunKeepsInv(managed, cfg, Step(cfg, m, es[0]), es[1..]);
    }
  }
}
