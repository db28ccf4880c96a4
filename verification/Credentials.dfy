// The client secret CAS holds (as a hash) and the one in the credentials Secret are the same.
module Credentials {
  import opened Wrappers
  import opened GoStrings
  import opened Base64
  import opened Domain
  import opened CasTypes
  import opened Registry
  import opened Mapper
  import opened Cluster
  import opened World
  import opened Worker
  import opened Invariant
  import opened Steps
  import opened SecretSafety
  import opened SecretData

  // A registration of a protocol with a client secret, and the Secret it resolves to.
  datatype Deal = Deal(k: Key, uid: int, consumer: string, protocol: Protocol, sk: Key)

  // The registration is there and not being deleted, under its protocol and Secret name. No other registration names
  // its consumer, generates the name of its Secret, or controls that Secret. Others may use it through spec.secretRef,
  // and an object of another kind may control it.
  predicate Undisturbed(deal: Deal, w: State) {
    SecretKey(deal.protocol).Some? && !Blank(deal.consumer) &&
    deal.k in w.regs &&
    (var reg := w.regs[deal.k];
     reg.uid == deal.uid && reg.spec.consumer == deal.consumer && reg.spec.protocol == deal.protocol &&
     ResolvedKey(reg) == Some(deal.sk) && reg.deletedAt.None?) &&
    (forall j | j in w.regs && j != deal.k :: w.regs[j].spec.consumer != deal.consumer && Shares(deal, w.regs[j])) &&
    (deal.sk in w.secrets ==> SafeOwner(deal, w.secrets[deal.sk].controller))
  }

  // Another registration comes to the Secret by reference only.
  predicate Shares(deal: Deal, reg: Reg) {
    ResolvedKey(reg) == Some(deal.sk) ==> reg.spec.secretRef.Some?
  }

  // Nothing controls the Secret, or this registration, or an object that is no registration (its uid is negative).
  predicate SafeOwner(deal: Deal, controller: Option<Owner>) {
    controller.None? || controller.value.uid == deal.uid || controller.value.uid < 0
  }

  // The service of the consumer has the hash of this client secret.
  predicate ServiceHas(cfg: Config, deal: Deal, w: State, secret: string) {
    var found := ByConsumer(w.services, deal.consumer);
    |found| == 1 && found[0].clientSecret == cfg.hash(secret)
  }

  // Both stores hold the same client secret.
  ghost predicate Agreement(cfg: Config, deal: Deal, w: State)
    requires SecretKey(deal.protocol).Some?
  {
    exists v :: v != "" && Holds(w, deal.sk, deal.protocol, v) && ServiceHas(cfg, deal, w, v)
  }

  // ---- What the running reconcile has to do with the deal ----

  predicate JobShape(deal: Deal, job: Job) {
    (job.obj.Id() == deal.k ==> job.Target() == deal.sk) &&
    (job.obj.Id() != deal.k && job.Target() == deal.sk ==> !job.managed)
  }

  predicate EarlyShape(deal: Deal, job: Job) {
    JobShape(deal, job) && (job.obj.Id() == deal.k ==> job.obj.spec.protocol == deal.protocol)
  }

  predicate Shape(deal: Deal, pc: Pc) {
    match pc
    case ReadingData(job) => EarlyShape(deal, job)
    case Listing(job, _) => EarlyShape(deal, job)
    case Generating(job, _) => EarlyShape(deal, job)
    case ReadingFqdn(job, _, _) => EarlyShape(deal, job)
    case Writing(job, _, _, _) => EarlyShape(deal, job)
    case ReadingFqdnAgain(job, _, _) => EarlyShape(deal, job)
    case Patching(_, _, next) => next.ResolvedRef? ==> JobShape(deal, next.job)
    case ReadingSecret(job, _) => JobShape(deal, job)
    case CreatingSecret(job, _) => JobShape(deal, job)
    case UpdatingSecret(job, _, merged) =>
      JobShape(deal, job) && (job.obj.Id() == deal.k ==> SafeOwner(deal, merged.controller))
    case ReadingPrevious(job) => JobShape(deal, job)
    case DeletingPrevious(job, _) => JobShape(deal, job) && job.Previous() != deal.sk
    case ListingForDelete(obj) => obj.Id() != deal.k
    case DeletingService(obj, _) => obj.Id() != deal.k
    case Unfinalizing(obj) => obj.Id() != deal.k
    case _ => true
  }

  lemma BeginShape(deal: Deal, obj: Reg)
    requires obj.Id() == deal.k ==> ResolvedKey(obj) == Some(deal.sk) && obj.spec.protocol == deal.protocol
    requires obj.Id() != deal.k ==> Shares(deal, obj)
    ensures Shape(deal, Begin(obj))
  {
    hide InvalidSpec;

  }

  lemma LoadedShape(deal: Deal, obj: Reg)
    requires obj.Id() == deal.k ==>
             ResolvedKey(obj) == Some(deal.sk) && obj.spec.protocol == deal.protocol && obj.deletedAt.None?
    requires obj.Id() != deal.k ==> Shares(deal, obj)
    ensures Shape(deal, Loaded(obj))
  {
    hide Begin, BeginDeletion;
    BeginShape(deal, obj);
  }

  lemma StartShape(deal: Deal, cfg: Config, w: State, pc: Pc, o: Outcome, d: Draw)
    requires (pc.Loading? || pc.Finalizing?) && Undisturbed(deal, w) && forall k | k in w.regs :: w.regs[k].Id() == k
    ensures Shape(deal, After(cfg, w, pc, o, d).pc)
  {
    hide After, Loaded, Begin;
    if pc.Loading? {
      AtLoading(cfg, w, pc, o, d);
      if pc.key in w.regs { LoadedShape(deal, w.regs[pc.key]); }
    } else {
      AtFinalizing(cfg, w, pc, o, d);
      if pc.obj.Id() in w.regs && w.regs[pc.obj.Id()] == pc.obj { BeginShape(deal, AddFinalizer(pc.obj)); }
    }
  }

  lemma EarlyShapeKept(deal: Deal, cfg: Config, w: State, pc: Pc, o: Outcome, d: Draw)
    requires Shape(deal, pc) && (pc.ReadingData? || pc.Listing? || pc.Generating? || pc.ReadingFqdn?)
    ensures Shape(deal, After(cfg, w, pc, o, d).pc)
  {
    hide After, RegistrationFailed, BuildServicePayload, Encode, ValidateRegistration, ClientSecret,
         FindServiceByConsumer, EarlyShape;
    if pc.ReadingData? { AtReadingData(cfg, w, pc, o, d); }
    else if pc.Listing? { AtListing(cfg, w, pc, o, d); }
    else if pc.Generating? { AtGenerating(cfg, w, pc, o, d); }
    else { AtReadingFqdn(cfg, w, pc, o, d); }
  }

  lemma WriteShapeKept(deal: Deal, cfg: Config, w: State, pc: Pc, o: Outcome, d: Draw)
    requires Shape(deal, pc) && (pc.Writing? || pc.ReadingFqdnAgain?)
    ensures Shape(deal, After(cfg, w, pc, o, d).pc)
  {
    hide After, RegistrationFailed, BuildRegistrationResult;
    if pc.Writing? { AtWriting(cfg, w, pc, o, d); } else { AtReadingFqdnAgain(cfg, w, pc, o, d); }
    assert EarlyShape(deal, pc.job);
  }

  lemma PatchShapeKept(deal: Deal, cfg: Config, w: State, pc: Pc, o: Outcome, d: Draw)
    requires Shape(deal, pc) && pc.Patching? && Anchored(w, pc.base) && PatchOk(pc.base, pc.patched, pc.next)
    requires w.regs[pc.base.Id()].Id() == pc.base.Id()
    ensures Shape(deal, After(cfg, w, pc, o, d).pc)
  {
    hide After, Block, InvalidPublishedPc, InvalidCompletedPc, Succeed;
    AtPatching(cfg, w, pc, o, d);
  }

  lemma ReadSecretShapeKept(deal: Deal, cfg: Config, w: State, pc: Pc, o: Outcome, d: Draw)
    requires Shape(deal, pc) && pc.ReadingSecret? && Undisturbed(deal, w)
    requires pc.job.obj.Id() == deal.k ==> pc.job.obj.uid == deal.uid
    ensures Shape(deal, After(cfg, w, pc, o, d).pc)
  {
    hide After, SecretFailed, CleanUp, GetRegistrationData;
    AtReadingSecret(cfg, w, pc, o, d);
  }

  lemma SecretWriteShapeKept(deal: Deal, cfg: Config, w: State, pc: Pc, o: Outcome, d: Draw)
    requires Shape(deal, pc) && (pc.CreatingSecret? || pc.UpdatingSecret?)
    ensures Shape(deal, After(cfg, w, pc, o, d).pc)
  {
    hide After, SecretFailed, CleanUp, SafeOwner;
    if pc.CreatingSecret? { AtCreatingSecret(cfg, w, pc, o, d); } else { AtUpdatingSecret(cfg, w, pc, o, d); }
  }

  lemma CleanUpShapeKept(deal: Deal, cfg: Config, w: State, pc: Pc, o: Outcome, d: Draw)
    requires Shape(deal, pc) && Undisturbed(deal, w) && (pc.ReadingPrevious? || pc.DeletingPrevious?)
    requires pc.ReadingPrevious? ==>
      HasObsolete(pc.job) && (pc.job.obj.Id() == deal.k <==> pc.job.obj.uid == deal.uid) && pc.job.obj.uid >= 0
    ensures Shape(deal, After(cfg, w, pc, o, d).pc)
  {
    hide After, Publish;
    if pc.ReadingPrevious? { AtReadingPrevious(cfg, w, pc, o, d); } else { AtDeletingPrevious(cfg, w, pc, o, d); }
  }

  // Uids tell registrations apart.
  lemma SameUid(deal: Deal, managed: set<string>, w: State, obj: Reg)
    requires RegsOk(managed, w) && Undisturbed(deal, w) && Anchored(w, obj)
    ensures obj.Id() == deal.k <==> obj.uid == deal.uid
    ensures obj.Id() != deal.k ==> obj.spec.consumer != deal.consumer
    ensures obj.Id() == deal.k ==> obj.spec.consumer == deal.consumer
    ensures obj.uid >= 0
  {
  }

  lemma DeletionShapeKept(deal: Deal, cfg: Config, w: State, pc: Pc, o: Outcome, d: Draw)
    requires Shape(deal, pc) && (pc.ListingForDelete? || pc.DeletingService? || pc.Unfinalizing?)
    ensures Shape(deal, After(cfg, w, pc, o, d).pc)
  {
    hide After, ListedForDelete;
    if pc.ListingForDelete? { AtListingForDelete(cfg, w, pc, o, d); }
    else if pc.DeletingService? { AtDeletingService(cfg, w, pc, o, d); }
    else { AtUnfinalizing(cfg, w, pc, o, d); }
  }

  lemma CallKeepsShape(deal: Deal, managed: set<string>, cfg: Config, w: State, pc: Pc, o: Outcome, d: Draw)
    requires Shape(deal, pc) && !pc.Idle? && Undisturbed(deal, w) && RegsOk(managed, w) && PcOk(managed, w, pc)
    ensures Shape(deal, After(cfg, w, pc, o, d).pc)
  {
    hide After, Shape, Undisturbed;
    if ObjAt(pc).Some? { SameUid(deal, managed, w, ObjAt(pc).value); }
    if pc.Loading? || pc.Finalizing? { StartShape(deal, cfg, w, pc, o, d); }
    else if pc.ReadingData? || pc.Listing? || pc.Generating? || pc.ReadingFqdn? {
      EarlyShapeKept(deal, cfg, w, pc, o, d);
    }
    else if pc.Writing? || pc.ReadingFqdnAgain? { WriteShapeKept(deal, cfg, w, pc, o, d); }
    else if pc.Patching? { PatchShapeKept(deal, cfg, w, pc, o, d); }
    else if pc.ReadingSecret? { ReadSecretShapeKept(deal, cfg, w, pc, o, d); }
    else if pc.CreatingSecret? || pc.UpdatingSecret? { SecretWriteShapeKept(deal, cfg, w, pc, o, d); }
    else if pc.ReadingPrevious? || pc.DeletingPrevious? { CleanUpShapeKept(deal, cfg, w, pc, o, d); }
    else { DeletionShapeKept(deal, cfg, w, pc, o, d); }
  }

  // ---- Others ----

  // What others leave alone: the registration's protocol, Secret name and existence, other registrations keep away
  // from its consumer and at most share its Secret, and the client secret in the Secret stays as it is.
  ghost predicate LeavesDeal(deal: Deal, m: Machine, e: Event) {
    e.User? && Undisturbed(deal, m.world) ==>
      Undisturbed(deal, Apply(m.world, e.act)) &&
      forall v :: Holds(m.world, deal.sk, deal.protocol, v) ==> Holds(Apply(m.world, e.act), deal.sk, deal.protocol, v)
  }

  ghost predicate LeaveDeal(cfg: Config, deal: Deal, m: Machine, es: seq<Event>)
    decreases |es|
  {
    es == [] || (LeavesDeal(deal, m, es[0]) && LeaveDeal(cfg, deal, Step(cfg, m, es[0]), es[1..]))
  }

  // ---- The stores after a call ----

  // Calls leave specs alone; a registration other than the deal's stays away from its consumer and shares its Secret at
  // most.
  lemma OtherStaysAway(deal: Deal, managed: set<string>, m: Machine, o: Outcome, d: Draw, j: Key)
    requires Inv(managed, m) && !m.pc.Idle? && Undisturbed(deal, m.world) && j != deal.k
    ensures var w' := Serve(m.world, RequestAt(m.pc), o, d).0;
      j in w'.regs ==> w'.regs[j].spec.consumer != deal.consumer && Shares(deal, w'.regs[j])
  {
    hide Serve, Inv, SafeOwner;
    if j in Serve(m.world, RequestAt(m.pc), o, d).0.regs { SpecKept(managed, m, o, d, j); }
  }

  lemma DealStays(deal: Deal, managed: set<string>, m: Machine, o: Outcome, d: Draw)
    requires Inv(managed, m) && !m.pc.Idle? && Undisturbed(deal, m.world) && Shape(deal, m.pc)
    ensures var w' := Serve(m.world, RequestAt(m.pc), o, d).0;
      deal.k in w'.regs && var reg := w'.regs[deal.k];
      reg.uid == deal.uid && reg.spec.consumer == deal.consumer && reg.spec.protocol == deal.protocol &&
      ResolvedKey(reg) == Some(deal.sk) && reg.deletedAt.None?
  {
    hide Serve, Inv, SafeOwner;
    RegAfterInv(managed, m, o, d, deal.k);
  }

  lemma CallKeepsUndisturbed(deal: Deal, managed: set<string>, cfg: Config, m: Machine, o: Outcome, d: Draw)
    requires Inv(managed, m) && !m.pc.Idle? && Undisturbed(deal, m.world) && Shape(deal, m.pc)
    requires deal.sk in m.world.secrets || (m.pc.CreatingSecret? ==> m.pc.job.obj.Id() == deal.k)
    ensures Undisturbed(deal, Serve(m.world, RequestAt(m.pc), o, d).0)
  {
    hide Serve, ResolvedKey, Inv, Shape;
    var w' := Serve(m.world, RequestAt(m.pc), o, d).0;
    forall j | j in w'.regs && j != deal.k
      ensures w'.regs[j].spec.consumer != deal.consumer && Shares(deal, w'.regs[j])
    {
      OtherStaysAway(deal, managed, m, o, d, j);
    }
    DealStays(deal, managed, m, o, d);
    OwnerKept(deal, managed, m, o, d);
  }

  lemma OwnerKept(deal: Deal, managed: set<string>, m: Machine, o: Outcome, d: Draw)
    requires Inv(managed, m) && !m.pc.Idle? && Undisturbed(deal, m.world) && Shape(deal, m.pc)
    requires deal.sk in m.world.secrets || (m.pc.CreatingSecret? ==> m.pc.job.obj.Id() == deal.k)
    ensures var w' := Serve(m.world, RequestAt(m.pc), o, d).0;
      deal.sk in w'.secrets ==> SafeOwner(deal, w'.secrets[deal.sk].controller)
  {
    hide Serve, RegsOk, SecretsOk, ServicesOk;
    if ObjAt(m.pc).Some? { SameUidInv(deal, managed, m); }
    if deal.sk in m.world.secrets {
      SecretAfterCall(managed, m, o, d, deal.sk);
      OwnerAfterCall(managed, m, o, d, deal.sk);
    } else {
      NewSecretAfterCall(managed, m, o, d, deal.sk);
    }
  }

  lemma SameUidInv(deal: Deal, managed: set<string>, m: Machine)
    requires Inv(managed, m) && Undisturbed(deal, m.world) && ObjAt(m.pc).Some?
    ensures var obj := ObjAt(m.pc).value;
      (obj.Id() == deal.k <==> obj.uid == deal.uid) && (obj.Id() == deal.k <==> obj.spec.consumer == deal.consumer)
  {
    SameUid(deal, managed, m.world, ObjAt(m.pc).value);
  }

  // The Secret is not deleted.
  lemma SecretKept(deal: Deal, managed: set<string>, m: Machine, o: Outcome, d: Draw)
    requires Inv(managed, m) && !m.pc.Idle? && Shape(deal, m.pc) && deal.sk in m.world.secrets
    ensures deal.sk in Serve(m.world, RequestAt(m.pc), o, d).0.secrets
  {
    hide Serve, Inv;
    SecretAfterCall(managed, m, o, d, deal.sk);
  }

  // ---- Once the stores agree, they agree at every point of every run ----

  // What the running reconcile is about to send to CAS.
  predicate PayloadHas(cfg: Config, deal: Deal, pc: Pc, v: string) {
    pc.Writing? && pc.job.obj.Id() == deal.k ==> pc.payload.clientSecret == cfg.hash(v)
  }

  ghost predicate Kept(cfg: Config, deal: Deal, m: Machine, v: string) {
    SecretKey(deal.protocol).Some? && Undisturbed(deal, m.world) && Shape(deal, m.pc) && v != "" && Trimmed(v) &&
    Holds(m.world, deal.sk, deal.protocol, v) && Carries(m.pc, deal.sk, deal.protocol, v) &&
    ServiceHas(cfg, deal, m.world, v) && PayloadHas(cfg, deal, m.pc, v)
  }

  lemma CallKeepsPayload(cfg: Config, deal: Deal, w: State, pc: Pc, o: Outcome, d: Draw, v: string)
    requires !pc.Idle? && SecretKey(deal.protocol).Some? && Shape(deal, pc) && Carries(pc, deal.sk, deal.protocol, v)
    ensures PayloadHas(cfg, deal, After(cfg, w, pc, o, d).pc, v)
  {
    hide After, BuildServicePayload, RegistrationFailed;
    if pc.ReadingFqdn? {
      AtReadingFqdn(cfg, w, pc, o, d);
      if w.fqdn.Some? && pc.job.obj.Id() == deal.k {
        PayloadSecret(cfg, w.fqdn.value, pc.job.Wanted(), pc.existing, pc.secret);
      }
    } else {
      OnlyFqdnWrites(cfg, w, pc, o, d);
    }
  }

  lemma PayloadSecret(cfg: Config, fqdn: string, reg: Registration, existing: Option<Service>, secret: string)
    requires SecretKey(reg.protocol).Some?
    ensures BuildServicePayload(cfg, fqdn, reg, existing, secret).clientSecret == cfg.hash(secret)
  {
  }

  lemma ServiceKept(cfg: Config, deal: Deal, managed: set<string>, m: Machine, o: Outcome, d: Draw, v: string)
    requires Inv(managed, m) && !m.pc.Idle? && LegalDraw(m.world, RequestAt(m.pc), o, d) &&
             Undisturbed(deal, m.world) &&
      Shape(deal, m.pc)
    requires ServiceHas(cfg, deal, m.world, v) && PayloadHas(cfg, deal, m.pc, v)
    ensures ServiceHas(cfg, deal, Serve(m.world, RequestAt(m.pc), o, d).0, v)
  {
    hide Serve, ByConsumer, WorldOk, LocalsOk, FindingsOk, Undisturbed, Inv;
    if ObjAt(m.pc).Some? { SameUidInv(deal, managed, m); }
    ServicesAfter(managed, m, o, d, deal.consumer);
  }

  lemma StepKeepsAgreement(managed: set<string>, cfg: Config, deal: Deal, m: Machine, e: Event, v: string)
    requires Inv(managed, m) && Legal(managed, m, e) && LeavesDeal(deal, m, e) && Kept(cfg, deal, m, v) &&
      deal.consumer in managed
    ensures Kept(cfg, deal, Step(cfg, m, e), v)
  {
    hide Serve, Resume, ByConsumer, Undisturbed, Shape, Carries, Inv, Apply;
    match e
    case User(a) => UserKeepsServices(cfg, deal, managed, m.world, a, v);
    case Call(o, d) =>
      if !m.pc.Idle? {
        CallKeepsUndisturbed(deal, managed, cfg, m, o, d);
        CallKeepsShapeInv(deal, managed, cfg, m, o, d);
        SecretKept(deal, managed, m, o, d);
        StepKeepsValue(managed, cfg, m, e, deal.sk, deal.protocol, v);
        CallKeepsPayload(cfg, deal, m.world, m.pc, o, d, v);
        ServiceKept(cfg, deal, managed, m, o, d, v);
      }
    case Start(k) => IdleShapes(deal, Loading(k), v);
    case Crash => IdleShapes(deal, Idle(Some("crashed")), v);
  }

  lemma IdleShapes(deal: Deal, pc: Pc, v: string)
    requires (pc.Idle? || pc.Loading?) && SecretKey(deal.protocol).Some?
    ensures Shape(deal, pc) && Carries(pc, deal.sk, deal.protocol, v)
  {
  }

  lemma UserKeepsServices(cfg: Config, deal: Deal, managed: set<string>, w: State, a: UserAct, v: string)
    requires LegalUser(managed, w, a) && deal.consumer in managed && ServiceHas(cfg, deal, w, v)
    ensures ServiceHas(cfg, deal, Apply(w, a), v)
  {
  }

  lemma CallKeepsShapeInv(deal: Deal, managed: set<string>, cfg: Config, m: Machine, o: Outcome, d: Draw)
    requires Inv(managed, m) && Shape(deal, m.pc) && !m.pc.Idle? && Undisturbed(deal, m.world)
    ensures Shape(deal, After(cfg, m.world, m.pc, o, d).pc)
  {
    hide Shape, Undisturbed, After, PcOk, RegsOk;
    CallKeepsShape(deal, managed, cfg, m.world, m.pc, o, d);
  }

  // From an agreeing state with no reconcile running, CAS and the Secret agree in every state of every run, at every
  // point between calls and whatever calls fail or lose their answers, as long as others leave the deal alone.
  lemma {:induction false} AgreementKept(managed: set<string>, cfg: Config, deal: Deal, m: Machine, es: seq<Event>,
      v: string)
    requires Inv(managed, m) && LegalRun(cfg, managed, m, es) && LeaveDeal(cfg, deal, m, es)
    requires Kept(cfg, deal, m, v) && deal.consumer in managed
    ensures Kept(cfg, deal, Run(cfg, m, es), v) && Agreement(cfg, deal, Run(cfg, m, es).world)
    decreases |es|
  {
    hide Shape, Undisturbed, Carries, Holds, ServiceHas, PayloadHas, Inv, Step, LeavesDeal, Legal;
    if es != [] {
      StepKeepsInv(managed, cfg, m, es[0]);
      StepKeepsAgreement(managed, cfg, deal, m, es[0], v);
      AgreementKept(managed, cfg, deal, Step(cfg, m, es[0]), es[1..], v);
    }
  }

  lemma AgreementForever(managed: set<string>, cfg: Config, deal: Deal, m: Machine, es: seq<Event>)
    requires Inv(managed, m) && LegalRun(cfg, managed, m, es) && LeaveDeal(cfg, deal, m, es) && deal.consumer in managed
    requires m.pc.Idle? && Undisturbed(deal, m.world) && Agreement(cfg, deal, m.world)
    ensures SecretKey(deal.protocol).Some? && Agreement(cfg, deal, Run(cfg, m, es).world)
  {
    hide Inv, LegalRun, LeaveDeal, Run, Holds, ServiceHas;
    var v :| v != "" && Holds(m.world, deal.sk, deal.protocol, v) && ServiceHas(cfg, deal, m.world, v);
    HoldsTrimmed(m.world, deal.sk, deal.protocol, v);
    AgreementKept(managed, cfg, deal, m, es, v);
  }

  lemma HoldsTrimmed(w: State, sk: Key, protocol: Protocol, v: string)
    requires SecretKey(protocol).Some? && Holds(w, sk, protocol, v)
    ensures Trimmed(v)
  {
  }

  // ---- A successful reconcile makes them agree ----

  predicate GoodSecret(s: string) {
    Trimmed(s) && s != ""
  }

  predicate DataHas(data: RegistrationData, protocol: Protocol, s: string) {
    SecretKey(protocol).Some? && SecretKey(protocol).value in data && data[SecretKey(protocol).value] == s
  }

  predicate Sent(cfg: Config, deal: Deal, w: State, data: RegistrationData, s: string) {
    GoodSecret(s) && DataHas(data, deal.protocol, s) && ServiceHas(cfg, deal, w, s)
  }

  // How far a reconcile of the deal's registration has come.
  ghost predicate Progress(cfg: Config, deal: Deal, w: State, pc: Pc)
    requires SecretKey(deal.protocol).Some?
  {
    match pc
    case Idle(returned) => returned.None? ==> Agreement(cfg, deal, w)
    case Loading(k) => k == deal.k
    case Finalizing(obj) => obj.Id() == deal.k
    case ReadingData(job) => job.obj.Id() == deal.k
    case Listing(job, _) => job.obj.Id() == deal.k
    case Generating(job, _) => job.obj.Id() == deal.k
    case ReadingFqdn(job, _, s) => job.obj.Id() == deal.k && GoodSecret(s)
    case Writing(job, payload, _, s) => job.obj.Id() == deal.k && GoodSecret(s) && payload.clientSecret == cfg.hash(s)
    case ReadingFqdnAgain(job, _, s) => job.obj.Id() == deal.k && GoodSecret(s) && ServiceHas(cfg, deal, w, s)
    case Patching(base, _, next) => base.Id() == deal.k && NextProgress(cfg, deal, w, next)
    case ReadingSecret(job, result) =>
      job.obj.Id() == deal.k && exists s :: Sent(cfg, deal, w, GetRegistrationData(result), s)
    case CreatingSecret(job, desired) => job.obj.Id() == deal.k && exists s :: Sent(cfg, deal, w, desired.data, s)
    case UpdatingSecret(job, _, merged) => job.obj.Id() == deal.k && exists s :: Sent(cfg, deal, w, merged.data, s)
    case ReadingPrevious(job) => job.obj.Id() == deal.k && Agreement(cfg, deal, w)
    case DeletingPrevious(job, _) => job.obj.Id() == deal.k && Agreement(cfg, deal, w)
    case _ => false
  }

  ghost predicate NextProgress(cfg: Config, deal: Deal, w: State, next: Then)
    requires SecretKey(deal.protocol).Some?
  {
    match next
    case ResolvedRef(job, result) =>
      job.obj.Id() == deal.k && exists s :: Sent(cfg, deal, w, GetRegistrationData(result), s)
    case Published => Agreement(cfg, deal, w)
    case Succeeded => Agreement(cfg, deal, w)
    case _ => true
  }

  lemma BeginProgress(cfg: Config, deal: Deal, w: State, obj: Reg)
    requires SecretKey(deal.protocol).Some? && obj.Id() == deal.k
    ensures Progress(cfg, deal, w, Begin(obj))
  {
    hide Agreement, InvalidSpec;
  }

  lemma LoadProgress(cfg: Config, deal: Deal, w: State, pc: Pc, o: Outcome, d: Draw)
    requires Undisturbed(deal, w) && Progress(cfg, deal, w, pc) && (pc.Loading? || pc.Finalizing?) &&
      w.regs[deal.k].Id() == deal.k
    ensures var m' := After(cfg, w, pc, o, d); Progress(cfg, deal, m'.world, m'.pc)
  {
    hide After, Begin, Agreement, ResolvedKey;
    if pc.Loading? {
      AtLoading(cfg, w, pc, o, d);
      BeginProgress(cfg, deal, w, w.regs[deal.k]);
    } else {
      AtFinalizing(cfg, w, pc, o, d);
      BeginProgress(cfg, deal, After(cfg, w, pc, o, d).world, AddFinalizer(pc.obj));
    }
  }

  lemma ListedProgress(cfg: Config, deal: Deal, w: State, job: Job, data: RegistrationData, services: seq<Service>)
    requires SecretKey(deal.protocol).Some? && job.obj.Id() == deal.k && job.obj.spec.protocol == deal.protocol
    ensures Progress(cfg, deal, w, Listed(job, data, services))
  {
    hide Agreement, RegistrationFailed, FindServiceByConsumer;
  }

  lemma ReadProgress(cfg: Config, deal: Deal, w: State, pc: Pc, o: Outcome, d: Draw)
    requires SecretKey(deal.protocol).Some? && Shape(deal, pc) && Progress(cfg, deal, w, pc)
    requires (pc.ReadingData? || pc.Listing? || pc.Generating?) && LegalDraw(w, RequestAt(pc), o, d)
    ensures var m' := After(cfg, w, pc, o, d); Progress(cfg, deal, m'.world, m'.pc)
  {
    hide After, Listed, RegistrationFailed, Agreement, ValidateRegistration, Encode;
    if pc.ReadingData? {
      AtReadingData(cfg, w, pc, o, d);
    } else if pc.Listing? {
      AtListing(cfg, w, pc, o, d);
      ListedProgress(cfg, deal, w, pc.job, pc.data, w.services);
    } else {
      AtGenerating(cfg, w, pc, o, d);
      if o.Answered? { GeneratedSecretSurvives(d.bytes); }
    }
  }

  lemma FqdnProgress(cfg: Config, deal: Deal, w: State, pc: Pc, o: Outcome, d: Draw)
    requires SecretKey(deal.protocol).Some? && Shape(deal, pc) && Progress(cfg, deal, w, pc) && pc.ReadingFqdn?
    ensures var m' := After(cfg, w, pc, o, d); Progress(cfg, deal, m'.world, m'.pc)
  {
    hide After, RegistrationFailed, Agreement, BuildServicePayload;
    AtReadingFqdn(cfg, w, pc, o, d);
    if w.fqdn.Some? { PayloadSecret(cfg, w.fqdn.value, pc.job.Wanted(), pc.existing, pc.secret); }
  }

  lemma WriteProgress(managed: set<string>, cfg: Config, deal: Deal, m: Machine, o: Outcome, d: Draw)
    requires Inv(managed, m) && Undisturbed(deal, m.world) && Shape(deal, m.pc) && Progress(cfg, deal, m.world, m.pc)
    requires m.pc.Writing? && LegalDraw(m.world, RequestAt(m.pc), o, d)
    ensures var m' := After(cfg, m.world, m.pc, o, d); Progress(cfg, deal, m'.world, m'.pc)
  {
    hide After, RegistrationFailed, Agreement, Serve, ByConsumer, Inv, Undisturbed;
    AtWriting(cfg, m.world, m.pc, o, d);
    SameUidInv(deal, managed, m);
    ServicesAfter(managed, m, o, d, deal.consumer);
    WorldAfter(cfg, m.world, m.pc, o, d);
  }

  lemma ResultHas(cfg: Config, fqdn: string, reg: Registration, service: Service, secret: string)
    requires SecretKey(reg.protocol).Some?
    ensures DataHas(GetRegistrationData(BuildRegistrationResult(cfg, fqdn, reg, service, secret)), reg.protocol, secret)
  {
  }

  lemma UpsertProgress(cfg: Config, deal: Deal, w: State, pc: Pc, o: Outcome, d: Draw)
    requires SecretKey(deal.protocol).Some? && Shape(deal, pc) && Progress(cfg, deal, w, pc) && pc.ReadingFqdnAgain?
    ensures var m' := After(cfg, w, pc, o, d); Progress(cfg, deal, m'.world, m'.pc)
  {
    hide After, RegistrationFailed, Agreement, BuildRegistrationResult, Upserted, GetRegistrationData, ServiceHas,
         DataHas;
    AtReadingFqdnAgain(cfg, w, pc, o, d);
    if o.Answered? && w.fqdn.Some? {
      var result := BuildRegistrationResult(cfg, w.fqdn.value, pc.job.Wanted(), pc.persisted, pc.secret);
      ResultHas(cfg, w.fqdn.value, pc.job.Wanted(), pc.persisted, pc.secret);
      assert Sent(cfg, deal, w, GetRegistrationData(result), pc.secret);
    }
  }

  lemma PatchProgress(cfg: Config, deal: Deal, w: State, pc: Pc, o: Outcome, d: Draw)
    requires SecretKey(deal.protocol).Some? && Progress(cfg, deal, w, pc) && pc.Patching?
    requires Anchored(w, pc.base) && PatchOk(pc.base, pc.patched, pc.next) && w.regs[pc.base.Id()].Id() == pc.base.Id()
    ensures var m' := After(cfg, w, pc, o, d); Progress(cfg, deal, m'.world, m'.pc)
  {
    hide After, Block, InvalidPublishedPc, InvalidCompletedPc, Succeed, Agreement, Sent, GetRegistrationData;
    AtPatching(cfg, w, pc, o, d);
    RegsDoNotMatter(cfg, deal, w, After(cfg, w, pc, o, d).world);
  }

  lemma RegsDoNotMatter(cfg: Config, deal: Deal, w: State, w': State)
    requires SecretKey(deal.protocol).Some? && w'.secrets == w.secrets && w'.services == w.services
    ensures Agreement(cfg, deal, w) ==> Agreement(cfg, deal, w')
    ensures forall data, s :: Sent(cfg, deal, w, data, s) ==> Sent(cfg, deal, w', data, s)
  {
    hide TrimSpace;
    if Agreement(cfg, deal, w) {
      var v :| v != "" && Holds(w, deal.sk, deal.protocol, v) && ServiceHas(cfg, deal, w, v);
      assert Holds(w', deal.sk, deal.protocol, v) && ServiceHas(cfg, deal, w', v);
    }
  }

  // Once the Secret holds what was sent to CAS, both agree.
  lemma SentAndStored(cfg: Config, deal: Deal, w: State, s: string)
    requires deal.sk in w.secrets && Sent(cfg, deal, w, w.secrets[deal.sk].data, s)
    ensures Agreement(cfg, deal, w)
  {
    assert Holds(w, deal.sk, deal.protocol, s);
  }

  lemma CleanUpProgress(cfg: Config, deal: Deal, w: State, job: Job)
    requires SecretKey(deal.protocol).Some? && job.obj.Id() == deal.k && Agreement(cfg, deal, w)
    ensures Progress(cfg, deal, w, CleanUp(job)) && Progress(cfg, deal, w, Publish(job.obj))
  {
    hide CleanUp, Publish, Agreement;
  }

  lemma SecretReadProgress(cfg: Config, deal: Deal, w: State, job: Job, result: RegistrationResult, s: string)
    requires job.obj.Id() == deal.k && job.Target() == deal.sk && deal.sk in w.secrets
    requires Sent(cfg, deal, w, GetRegistrationData(result), s)
    ensures SecretKey(deal.protocol).Some? && Progress(cfg, deal, w, SecretRead(job, result, w.secrets[deal.sk]))
  {
    hide CleanUp, SecretFailed, Agreement, ServiceHas, GetRegistrationData;
    var current := w.secrets[deal.sk];
    var merged := Merge(current, BuildDesiredSecret(result, job.obj, job.name));
    assert Sent(cfg, deal, w, merged.data, s);
    if merged.data == current.data {
      SentAndStored(cfg, deal, w, s);
      CleanUpProgress(cfg, deal, w, job);
    }
  }

  lemma ReadSecretProgress(cfg: Config, deal: Deal, w: State, pc: Pc, o: Outcome, d: Draw)
    requires SecretKey(deal.protocol).Some? && Shape(deal, pc) && Progress(cfg, deal, w, pc) && pc.ReadingSecret?
    ensures var m' := After(cfg, w, pc, o, d); Progress(cfg, deal, m'.world, m'.pc)
  {
    hide After, SecretRead, SecretFailed, Agreement, GetRegistrationData, Sent;
    AtReadingSecret(cfg, w, pc, o, d);
    var s :| Sent(cfg, deal, w, GetRegistrationData(pc.result), s);
    if deal.sk in w.secrets { SecretReadProgress(cfg, deal, w, pc.job, pc.result, s); }
  }

  lemma SecretWriteProgress(cfg: Config, deal: Deal, w: State, pc: Pc, o: Outcome, d: Draw)
    requires SecretKey(deal.protocol).Some? && Shape(deal, pc) && Progress(cfg, deal, w, pc)
    requires (pc.CreatingSecret? && pc.desired.Id() == pc.job.Target()) ||
      (pc.UpdatingSecret? && pc.merged.Id() == pc.job.Target())
    ensures var m' := After(cfg, w, pc, o, d); Progress(cfg, deal, m'.world, m'.pc)
  {
    hide After, CleanUp, SecretFailed, Agreement, ServiceHas;
    var w' := After(cfg, w, pc, o, d).world;
    if pc.CreatingSecret? { AtCreatingSecret(cfg, w, pc, o, d); } else { AtUpdatingSecret(cfg, w, pc, o, d); }
    var data := if pc.CreatingSecret? then pc.desired.data else pc.merged.data;
    var s :| Sent(cfg, deal, w, data, s);
    if deal.sk in w'.secrets && w'.secrets[deal.sk].data == data {
      ServicesDoMatter(cfg, deal, w, w', s);
      SentAndStored(cfg, deal, w', s);
      CleanUpProgress(cfg, deal, w', pc.job);
    }
  }

  lemma ServicesDoMatter(cfg: Config, deal: Deal, w: State, w': State, s: string)
    requires w'.services == w.services
    ensures ServiceHas(cfg, deal, w, s) == ServiceHas(cfg, deal, w', s)
  {
  }

  lemma CleaningProgress(cfg: Config, deal: Deal, w: State, pc: Pc, o: Outcome, d: Draw)
    requires SecretKey(deal.protocol).Some? && Shape(deal, pc) && Progress(cfg, deal, w, pc)
    requires pc.ReadingPrevious? || pc.DeletingPrevious?
    ensures var m' := After(cfg, w, pc, o, d); Progress(cfg, deal, m'.world, m'.pc)
  {
    hide After, CleanUp, Publish, ServiceHas, TrimSpace;
    var w' := After(cfg, w, pc, o, d).world;
    if pc.ReadingPrevious? { AtReadingPrevious(cfg, w, pc, o, d); } else { AtDeletingPrevious(cfg, w, pc, o, d); }
    var v :| v != "" && Holds(w, deal.sk, deal.protocol, v) && ServiceHas(cfg, deal, w, v);
    ServicesDoMatter(cfg, deal, w, w', v);
    assert Holds(w', deal.sk, deal.protocol, v);
    CleanUpProgress(cfg, deal, w', pc.job);
  }

  lemma CallProgress(managed: set<string>, cfg: Config, deal: Deal, m: Machine, o: Outcome, d: Draw)
    requires Inv(managed, m) && Undisturbed(deal, m.world) && Shape(deal, m.pc) && Progress(cfg, deal, m.world, m.pc)
    requires !m.pc.Idle? && LegalDraw(m.world, RequestAt(m.pc), o, d)
    ensures var m' := After(cfg, m.world, m.pc, o, d); Progress(cfg, deal, m'.world, m'.pc)
  {
    hide After, Shape, Anchored, ServicesOk, ByConsumer, ResolvedKey, Agreement, Sent;
    var w, pc := m.world, m.pc;
    if pc.Loading? || pc.Finalizing? { LoadProgress(cfg, deal, w, pc, o, d); }
    else if pc.ReadingData? || pc.Listing? || pc.Generating? { ReadProgress(cfg, deal, w, pc, o, d); }
    else if pc.ReadingFqdn? { FqdnProgress(cfg, deal, w, pc, o, d); }
    else if pc.Writing? { WriteProgress(managed, cfg, deal, m, o, d); }
    else if pc.ReadingFqdnAgain? { UpsertProgress(cfg, deal, w, pc, o, d); }
    else if pc.Patching? { AnchoredKey(managed, w, pc); PatchProgress(cfg, deal, w, pc, o, d); }
    else if pc.ReadingSecret? { ReadSecretProgress(cfg, deal, w, pc, o, d); }
    else if pc.CreatingSecret? || pc.UpdatingSecret? { SecretWriteProgress(cfg, deal, w, pc, o, d); }
    else { CleaningProgress(cfg, deal, w, pc, o, d); }
  }

  lemma AnchoredKey(managed: set<string>, w: State, pc: Pc)
    requires RegsOk(managed, w) && pc.Patching? && PcOk(managed, w, pc)
    ensures Anchored(w, pc.base) && w.regs[pc.base.Id()].Id() == pc.base.Id() && PatchOk(pc.base, pc.patched, pc.next)
  {
  }

  // Users who leave the deal alone do not undo progress.
  lemma UserKeepsAgreement(cfg: Config, deal: Deal, managed: set<string>, m: Machine, a: UserAct)
    requires LegalUser(managed, m.world, a) && deal.consumer in managed && Undisturbed(deal, m.world) &&
      LeavesDeal(deal, m, User(a))
    ensures SecretKey(deal.protocol).Some?
    ensures Agreement(cfg, deal, m.world) ==> Agreement(cfg, deal, Apply(m.world, a))
    ensures forall data, s :: Sent(cfg, deal, m.world, data, s) ==> Sent(cfg, deal, Apply(m.world, a), data, s)
    ensures forall s :: ServiceHas(cfg, deal, m.world, s) ==> ServiceHas(cfg, deal, Apply(m.world, a), s)
  {
    hide Apply, LegalUser, ServiceHas, Holds, DataHas;
    forall s | ServiceHas(cfg, deal, m.world, s)
      ensures ServiceHas(cfg, deal, Apply(m.world, a), s)
    {
      UserKeepsServices(cfg, deal, managed, m.world, a, s);
    }
    if Agreement(cfg, deal, m.world) {
      var v :| v != "" && Holds(m.world, deal.sk, deal.protocol, v) && ServiceHas(cfg, deal, m.world, v);
      assert Holds(Apply(m.world, a), deal.sk, deal.protocol, v);
    }
  }

  lemma UserProgress(cfg: Config, deal: Deal, managed: set<string>, m: Machine, a: UserAct)
    requires LegalUser(managed, m.world, a) && deal.consumer in managed && Undisturbed(deal, m.world) &&
      LeavesDeal(deal, m, User(a))
    requires Progress(cfg, deal, m.world, m.pc)
    ensures SecretKey(deal.protocol).Some? && Progress(cfg, deal, Apply(m.world, a), m.pc)
  {
    hide Apply, LegalUser, ServiceHas, Sent, Agreement, LeavesDeal;
    UserKeepsAgreement(cfg, deal, managed, m, a);
  }

  lemma ProgressIsOwn(cfg: Config, deal: Deal, w: State, pc: Pc)
    requires Undisturbed(deal, w) && Progress(cfg, deal, w, pc) && pc.CreatingSecret?
    ensures pc.job.obj.Id() == deal.k
  {
  }

  lemma StepProgress(managed: set<string>, cfg: Config, deal: Deal, m: Machine, e: Event)
    requires Inv(managed, m) && Legal(managed, m, e) && LeavesDeal(deal, m, e) && deal.consumer in managed
    requires Undisturbed(deal, m.world) && Shape(deal, m.pc) && Progress(cfg, deal, m.world, m.pc)
    requires e.User? || e.Call?
    ensures var m' := Step(cfg, m, e);
      Undisturbed(deal, m'.world) && Shape(deal, m'.pc) && Progress(cfg, deal, m'.world, m'.pc)
  {
    hide Serve, Resume, ByConsumer, Undisturbed, Shape, Progress, Inv, Apply;
    match e
    case User(a) => UserProgress(cfg, deal, managed, m, a);
    case Call(o, d) =>
      if !m.pc.Idle? {
        if m.pc.CreatingSecret? { ProgressIsOwn(cfg, deal, m.world, m.pc); }
        CallKeepsUndisturbed(deal, managed, cfg, m, o, d);
        CallKeepsShapeInv(deal, managed, cfg, m, o, d);
        CallProgress(managed, cfg, deal, m, o, d);
      }
  }

  lemma {:induction false} ReconcileProgress(managed: set<string>, cfg: Config, deal: Deal, m: Machine, es: seq<Event>)
    requires Inv(managed, m) && LegalRun(cfg, managed, m, es) && LeaveDeal(cfg, deal, m, es) && deal.consumer in managed
    requires Undisturbed(deal, m.world) && Shape(deal, m.pc) && Progress(cfg, deal, m.world, m.pc)
    requires forall e | e in es :: e.User? || e.Call?
    ensures var m' := Run(cfg, m, es); SecretKey(deal.protocol).Some? && Progress(cfg, deal, m'.world, m'.pc)
    decreases |es|
  {
    hide Shape, Progress, Inv, Step, LeavesDeal, Legal;
    if es != [] {
      assert es[0] in es;
      StepKeepsInv(managed, cfg, m, es[0]);
      StepProgress(managed, cfg, deal, m, es[0]);
      ReconcileProgress(managed, cfg, deal, Step(cfg, m, es[0]), es[1..]);
    }
  }

  // A reconcile of an OIDC or OAuth registration that returns without error leaves CAS with the hash of exactly the
  // client secret in the Secret, whatever others did meanwhile outside the deal.
  lemma SuccessAgrees(managed: set<string>, cfg: Config, deal: Deal, w: State, es: seq<Event>)
    requires Inv(managed, Machine(w, Loading(deal.k))) && deal.consumer in managed && Undisturbed(deal, w)
    requires LegalRun(cfg, managed, Machine(w, Loading(deal.k)), es) &&
             LeaveDeal(cfg, deal, Machine(w, Loading(deal.k)), es)
    requires forall e | e in es :: e.User? || e.Call?
    requires Run(cfg, Machine(w, Loading(deal.k)), es).pc == Idle(None)
    ensures SecretKey(deal.protocol).Some? && Agreement(cfg, deal, Run(cfg, Machine(w, Loading(deal.k)), es).world)
  {
    hide Inv, LegalRun, LeaveDeal, Run, Agreement;
    ReconcileProgress(managed, cfg, deal, Machine(w, Loading(deal.k)), es);
  }

  // Switching back: whatever was reconciled onto the Secret meanwhile, with other protocols and any failures, a
  // reconcile that returns without error makes CAS accept the client secret the protocol had at first.
  lemma SwitchBackRestores(managed: set<string>, cfg: Config, deal: Deal, m: Machine, between: seq<Event>,
          es: seq<Event>, v: string)
    requires Inv(managed, m) && LegalRun(cfg, managed, m, between) && deal.consumer in managed
    requires SecretKey(deal.protocol).Some? && Trimmed(v) && v != "" && Holds(m.world, deal.sk, deal.protocol, v) &&
      Carries(m.pc, deal.sk, deal.protocol, v)
    requires LeaveValue(cfg, m, between, deal.sk, deal.protocol, v) && !Missing(cfg, m, between, deal.sk)
    requires var back := Machine(Run(cfg, m, between).world, Loading(deal.k));
      Undisturbed(deal, back.world) && LegalRun(cfg, managed, back, es) && LeaveDeal(cfg, deal, back, es) &&
      LeaveValue(cfg, back, es, deal.sk, deal.protocol, v) && !Missing(cfg, back, es, deal.sk) &&
      (forall e | e in es :: e.User? || e.Call?) && Run(cfg, back, es).pc == Idle(None)
    ensures var end := Run(cfg, Machine(Run(cfg, m, between).world, Loading(deal.k)), es).world;
      Holds(end, deal.sk, deal.protocol, v) && ServiceHas(cfg, deal, end, v)
  {
    hide Inv, Run, LegalRun, LeaveDeal, LeaveValue, Missing, Undisturbed, ServiceHas;
    var w := Run(cfg, m, between).world;
    var back := Machine(w, Loading(deal.k));
    RunKeepsInv(managed, cfg, m, between);
    LoadingIsSound(managed, Run(cfg, m, between), deal.k);
    ClientSecretStays(managed, cfg, m, between, deal.sk, deal.protocol, v);
    ClientSecretStays(managed, cfg, back, es, deal.sk, deal.protocol, v);
    SuccessAgrees(managed, cfg, deal, w, es);
  }

  lemma LoadingIsSound(managed: set<string>, m: Machine, k: Key)
    requires Inv(managed, m)
    ensures Inv(managed, Machine(m.world, Loading(k)))
  {
    hide WorldOk;
  }
}
