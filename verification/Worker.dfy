// The one reconcile worker as a machine that makes one call per step.
//
// A program point holds the local variables of the code at that point. Steps that make no call (validation, a patch
// that would change nothing) are taken together with the step before them.
module Worker {
  import opened Wrappers
  import opened GoStrings
  import opened Base64
  import opened Domain
  import opened CasTypes
  import opened Registry
  import opened Mapper
  import opened Cluster
  import opened World

  // The locals of handleReconcile: the object in memory, the resolved Secret name, whether the operator manages
  // that Secret, and the name the status held before.
  datatype Job = Job(obj: Reg, name: string, managed: bool, prev: string) {
    function Wanted(): Registration { FromAuthRegistration(obj) }
    function Target(): Key { Key(obj.namespace, name) }
    function Previous(): Key { Key(obj.namespace, TrimSpace(prev)) }
  }

  // What follows a status patch.
  datatype Then =
    | ClearedRef(error: string)          // PatchInvalidSpec goes on to CredentialsPublished
    | InvalidPublished(error: string)    // and then to Completed
    | SecretUnpublished(error: string)   // PatchSecretReconcileFailed goes on to Completed
    | GiveUp(error: string)              // the reconcile returns its error
    | ResolvedRef(job: Job, result: RegistrationResult)
    | Published
    | Succeeded

  datatype Pc =
    | Idle(returned: Option<string>)     // no reconcile is running; the last one returned this error
    | Loading(key: Key)
    | Finalizing(obj: Reg)
    | ReadingData(job: Job)
    | Listing(job: Job, data: RegistrationData)
    | Generating(job: Job, existing: Option<Service>)
    | ReadingFqdn(job: Job, existing: Option<Service>, secret: string)
    | Writing(job: Job, payload: Service, create: bool, secret: string)
    | ReadingFqdnAgain(job: Job, persisted: Service, secret: string)
    | Patching(base: Reg, patched: Reg, next: Then)
    | ReadingSecret(job: Job, result: RegistrationResult)
    | CreatingSecret(job: Job, desired: Secret)
    | UpdatingSecret(job: Job, read: Secret, merged: Secret)
    | ReadingPrevious(job: Job)
    | DeletingPrevious(job: Job, seen: Secret)
    | ListingForDelete(obj: Reg)
    | DeletingService(obj: Reg, id: int)
    | Unfinalizing(obj: Reg)

  function RequestAt(pc: Pc): Request
    requires !pc.Idle?
  {
    match pc
    case Loading(key) => GetReg(key)
    case Finalizing(obj) => UpdateReg(obj, AddFinalizer(obj))
    case ReadingData(job) => GetSecret(job.Target())
    case Listing(_, _) => ListServices
    case Generating(_, _) => RandomBytes
    case ReadingFqdn(_, _, _) => GetFqdn
    case Writing(_, payload, create, _) => if create then CreateService(payload) else UpdateService(payload)
    case ReadingFqdnAgain(_, _, _) => GetFqdn
    case Patching(base, patched, _) => PatchStatus(base, patched)
    case ReadingSecret(job, _) => GetSecret(job.Target())
    case CreatingSecret(_, desired) => CreateSecret(desired)
    case UpdatingSecret(_, read, merged) => UpdateSecret(read, merged)
    case ReadingPrevious(job) => GetSecret(job.Previous())
    case DeletingPrevious(job, _) => DeleteSecret(job.Previous())
    case ListingForDelete(_) => ListServices
    case DeletingService(_, id) => DeleteService(id)
    case Unfinalizing(obj) => UpdateReg(obj, RemoveFinalizer(obj))
  }

  // ---- Status patches ----

  // patchStatus: no call when nothing changes; `skipped` is where the code is then.
  function Patch(obj: Reg, status: Status, next: Then, skipped: Pc): Pc {
    if status == obj.status then skipped else Patching(obj, obj.(status := status), next)
  }

  function WithCondition(obj: Reg, ctype: string, isTrue: bool, reason: string, message: string): Status {
    obj.status.(conditions := SetStatusCondition(obj.status.conditions,
      Condition(ctype, isTrue, reason, message, obj.generation)))
  }

  function WithRef(obj: Reg, name: string): Status {
    obj.status.(resolvedSecretRef := name)
  }

  function Succeed(obj: Reg): (pc: Pc)
    ensures pc == Idle(None) || (pc.Patching? && pc.base == obj && pc.next == Succeeded)
  {
    Patch(obj, WithCondition(obj, COMPLETED, true, "RegistrationSucceeded",
      "Service registration was reconciled successfully"), Succeeded, Idle(None))
  }

  function Publish(obj: Reg): (pc: Pc)
    ensures pc == Idle(None) || (pc.Patching? && pc.base == obj && (pc.next == Published || pc.next == Succeeded))
  {
    Patch(obj, WithCondition(obj, PUBLISHED, true, "SecretReconciled", "Credentials Secret is ready"), Published,
      Succeed(obj))
  }

  function RegistrationFailed(obj: Reg, error: string): (pc: Pc)
    ensures pc == Idle(Some(error)) || (pc.Patching? && pc.base == obj && pc.next == GiveUp(error))
  {
    Patch(obj, WithCondition(obj, COMPLETED, false, "RegistrationFailed", error), GiveUp(error), Idle(Some(error)))
  }

  function Block(obj: Reg, error: string): (pc: Pc)
    ensures pc == Idle(Some(error)) || (pc.Patching? && pc.base == obj && pc.next == GiveUp(error))
  {
    Patch(obj, WithCondition(obj, COMPLETED, false, "Blocked",
      "Registration is blocked until Secret reconciliation succeeds"), GiveUp(error), Idle(Some(error)))
  }

  function SecretFailed(obj: Reg, error: string): (pc: Pc)
    ensures pc == Idle(Some(error)) ||
      (pc.Patching? && pc.base == obj && (pc.next == SecretUnpublished(error) || pc.next == GiveUp(error)))
  {
    Patch(obj, WithCondition(obj, PUBLISHED, false, "SecretReconcileFailed", error), SecretUnpublished(error),
      Block(obj, error))
  }

  function InvalidCompletedPc(obj: Reg, error: string): (pc: Pc)
    ensures pc == Idle(Some(error)) || (pc.Patching? && pc.base == obj && pc.next == GiveUp(error))
  {
    Patch(obj, WithCondition(obj, COMPLETED, false, "InvalidSpec",
      "Registration is blocked because the resource specification is invalid"),
      GiveUp(error), Idle(Some(error)))
  }

  function InvalidPublishedPc(obj: Reg, error: string): (pc: Pc)
    ensures pc == Idle(Some(error)) ||
      (pc.Patching? && pc.base == obj && (pc.next == InvalidPublished(error) || pc.next == GiveUp(error)))
  {
    Patch(obj, WithCondition(obj, PUBLISHED, false, "InvalidSpec", error), InvalidPublished(error),
      InvalidCompletedPc(obj, error))
  }

  function InvalidSpec(obj: Reg, error: string): (pc: Pc)
    ensures pc == Idle(Some(error)) ||
      (pc.Patching? && pc.base == obj && (pc.next == ClearedRef(error) || pc.next == InvalidPublished(error) ||
        pc.next == GiveUp(error)))
  {
    Patch(obj, WithRef(obj, ""), ClearedRef(error), InvalidPublishedPc(obj, error))
  }

  // Where the code is after a patch that was answered with `obj`.
  function AfterPatch(obj: Reg, next: Then): Pc {
    match next
    case ClearedRef(error) => InvalidPublishedPc(obj, error)
    case InvalidPublished(error) => InvalidCompletedPc(obj, error)
    case SecretUnpublished(error) => Block(obj, error)
    case GiveUp(error) => Idle(Some(error))
    case ResolvedRef(job, result) => ReadingSecret(job.(obj := obj), result)
    case Published => Succeed(obj)
    case Succeeded => Idle(None)
  }

  // A failed patch ends the reconcile; while an error is being reported, that error is the one returned.
  function AfterFailedPatch(next: Then, error: string): Pc {
    match next
    case ClearedRef(e) => Idle(Some(e))
    case InvalidPublished(e) => Idle(Some(e))
    case SecretUnpublished(e) => Idle(Some(e))
    case GiveUp(e) => Idle(Some(e))
    case _ => Idle(Some(error))
  }

  // ---- handleReconcile ----

  function Begin(obj: Reg): (pc: Pc)
    ensures pc.ReadingData? || (pc.Patching? && !pc.next.ResolvedRef?) || (pc.Idle? && pc.returned.Some?)
  {
    match ResolveSecretName(obj)
    case Err(e) => InvalidSpec(obj, e)
    case Ok((name, managed)) => ReadingData(Job(obj, name, managed, obj.status.resolvedSecretRef))
  }

  function BeginUpsert(job: Job, data: RegistrationData): (pc: Pc)
    ensures pc.Listing? || (pc.Patching? && pc.next.GiveUp?) || (pc.Idle? && pc.returned.Some?)
  {
    match ValidateRegistration(job.Wanted())
    case Some(e) => RegistrationFailed(job.obj, e)
    case None => Listing(job, data)
  }

  function Listed(job: Job, data: RegistrationData, services: seq<Service>): (pc: Pc)
    ensures pc.ReadingFqdn? || pc.Generating? || (pc.Patching? && pc.next.GiveUp?) || (pc.Idle? && pc.returned.Some?)
  {
    match FindServiceByConsumer(services, job.obj.spec.consumer)
    case Err(e) => RegistrationFailed(job.obj, e)
    case Ok(existing) =>
      match ClientSecret(data, job.obj.spec.protocol)
      case None => ReadingFqdn(job, existing, "")
      case Some(secret) => if secret != "" then ReadingFqdn(job, existing, secret) else Generating(job, existing)
  }

  function Upserted(job: Job, result: RegistrationResult): (pc: Pc)
    ensures pc == ReadingSecret(job, result) ||
            (pc.Patching? && pc.base == job.obj && pc.next == ResolvedRef(job, result))
  {
    Patch(job.obj, WithRef(job.obj, job.name), ResolvedRef(job, result), ReadingSecret(job, result))
  }

  function SecretRead(job: Job, result: RegistrationResult, current: Secret): (pc: Pc)
    ensures pc.UpdatingSecret? || pc == ReadingPrevious(job) ||
      (pc.Patching? && pc.base == job.obj && !pc.next.ResolvedRef?) || pc.Idle?
  {
    var merged := Merge(current, BuildDesiredSecret(result, job.obj, job.name));
    match if job.managed then SetControllerReference(job.obj, merged) else Ok(merged)
    case Err(e) => SecretFailed(job.obj, e)
    case Ok(secret) => if secret == current then CleanUp(job) else UpdatingSecret(job, current, secret)
  }

  // cleanupObsoleteGeneratedSecret
  function CleanUp(job: Job): (pc: Pc)
    ensures pc == Idle(None) ||
      (pc.Patching? && pc.base == job.obj && (pc.next == Published || pc.next == Succeeded)) ||
      pc == ReadingPrevious(job)
  {
    var prev := TrimSpace(job.prev);
    if prev == "" || prev == job.name then Publish(job.obj) else ReadingPrevious(job)
  }

  // ---- handleDeletion ----

  function BeginDeletion(obj: Reg): (pc: Pc)
    ensures pc.Idle? || pc == ListingForDelete(obj)
  {
    if !HasFinalizer(obj) then Idle(None)
    else if Blank(obj.spec.consumer) then Idle(Some("consumer must not be empty"))
    else ListingForDelete(obj)
  }

  function ListedForDelete(obj: Reg, services: seq<Service>): (pc: Pc)
    ensures pc.Idle? || pc == Unfinalizing(obj) || (pc.DeletingService? && pc.obj == obj)
  {
    match FindServiceByConsumer(services, obj.spec.consumer)
    case Err(e) => Idle(Some(e))
    case Ok(None) => Unfinalizing(obj)
    case Ok(Some(service)) => if service.id == 0 then Idle(Some("no numeric id")) else DeletingService(obj, service.id)
  }

  // ---- One step ----

  function Loaded(obj: Reg): (pc: Pc)
    ensures pc.Idle? || (pc.Patching? && !pc.next.ResolvedRef?) || pc.ReadingData? || pc == ListingForDelete(obj) ||
      pc == Finalizing(obj)
  {
    if obj.deletedAt.Some? then BeginDeletion(obj)
    else if HasFinalizer(obj) then Begin(obj)
    else Finalizing(obj)
  }

  const NO_FQDN := "global config does not contain key fqdn"

  // Where the code is after the call at `pc` was answered with `r`.
  function Resume(cfg: Config, pc: Pc, r: Response): Pc
    requires !pc.Idle?
  {
    match pc
    case Loading(_) =>
      (match r case RegAnswer(obj) => Loaded(obj) case NotFound => Idle(None) case _ => Idle(Some(Error(r))))
    case Finalizing(_) => if r.RegAnswer? then Begin(r.reg) else Idle(Some(Error(r)))
    case ReadingData(job) =>
      (match r
       case SecretAnswer(secret) => BeginUpsert(job, secret.data)
       case NotFound => BeginUpsert(job, map[])
       case _ => Idle(Some(Error(r))))
    case Listing(job, data) =>
      if r.ServicesAnswer? then Listed(job, data, r.services) else RegistrationFailed(job.obj, Error(r))
    case Generating(job, existing) =>
      if r.BytesAnswer? then ReadingFqdn(job, existing, Encode(r.bytes)) else RegistrationFailed(job.obj, Error(r))
    case ReadingFqdn(job, existing, secret) =>
      if r.FqdnAnswer? && r.fqdn.Some? then
        Writing(job, BuildServicePayload(cfg, r.fqdn.value, job.Wanted(), existing, secret), existing.None?, secret)
      else RegistrationFailed(job.obj, Error(r))
    case Writing(job, _, _, secret) =>
      if r.ServiceAnswer? then ReadingFqdnAgain(job, r.service, secret) else RegistrationFailed(job.obj, Error(r))
    case ReadingFqdnAgain(job, persisted, secret) =>
      if r.FqdnAnswer? && r.fqdn.Some? then
        Upserted(job, BuildRegistrationResult(cfg, r.fqdn.value, job.Wanted(), persisted, secret))
      else RegistrationFailed(job.obj, Error(r))
    case Patching(_, _, next) => if r.RegAnswer? then AfterPatch(r.reg, next) else AfterFailedPatch(next, Error(r))
    case ReadingSecret(job, result) =>
      (match r
       case SecretAnswer(secret) => SecretRead(job, result, secret)
       case NotFound =>
         CreatingSecret(job, BuildDesiredSecret(result, job.obj, job.name).(controller := Some(OwnerFor(job.obj))))
       case _ => SecretFailed(job.obj, Error(r)))
    case CreatingSecret(job, _) => if r.Done? then CleanUp(job) else SecretFailed(job.obj, Error(r))
    case UpdatingSecret(job, _, _) => if r.Done? then CleanUp(job) else SecretFailed(job.obj, Error(r))
    case ReadingPrevious(job) =>
      (match r
       case SecretAnswer(secret) =>
         if IsControlledBy(secret, job.obj) then DeletingPrevious(job, secret) else Publish(job.obj)
       case NotFound => Publish(job.obj)
       case _ => Idle(Some(Error(r))))
    case DeletingPrevious(job, _) => if r.Done? || r.NotFound? then Publish(job.obj) else Idle(Some(Error(r)))
    case ListingForDelete(obj) => if r.ServicesAnswer? then ListedForDelete(obj, r.services) else Idle(Some(Error(r)))
    case DeletingService(obj, _) => if r.Done? then Unfinalizing(obj) else Idle(Some(Error(r)))
    case Unfinalizing(_) => if r.RegAnswer? then Idle(None) else Idle(Some(Error(r)))
  }

  // The error value of an answer the code takes for a failure.
  function Error(r: Response): string {
    if r.Failed? then r.error else if r.FqdnAnswer? then NO_FQDN else "not found"
  }

  // ---- Runs ----

  datatype Machine = Machine(world: State, pc: Pc)

  datatype Event =
    | User(act: UserAct)              // somebody else acts, between two calls of the worker
    | Call(outcome: Outcome, draw: Draw)  // the worker's next call
    | Start(key: Key)                 // a reconcile request is taken from the queue
    | Crash                           // the operator process dies

  // The call at `pc`: what it does to the stores, and where the code goes on with its answer.
  function After(cfg: Config, w: State, pc: Pc, o: Outcome, d: Draw): Machine
    requires !pc.Idle?
  {
    var answer := Serve(w, RequestAt(pc), o, d);
    Machine(answer.0, Resume(cfg, pc, answer.1))
  }

  function Step(cfg: Config, m: Machine, e: Event): Machine {
    match e
    case User(act) => m.(world := Apply(m.world, act))
    case Call(o, d) =>
      if m.pc.Idle? then m else After(cfg, m.world, m.pc, o, d)
    case Start(key) => if m.pc.Idle? then m.(pc := Loading(key)) else m
    case Crash => m.(pc := Idle(Some("crashed")))
  }

  function Run(cfg: Config, m: Machine, es: seq<Event>): Machine
    decreases |es|
  {
    if es == [] then m else Run(cfg, Step(cfg, m, es[0]), es[1..])
  }

  predicate Legal(managed: set<string>, m: Machine, e: Event) {
    match e
    case User(act) => LegalUser(managed, m.world, act)
    case Call(o, d) => m.pc.Idle? || LegalDraw(m.world, RequestAt(m.pc), o, d)
    case _ => true
  }

  predicate LegalRun(cfg: Config, managed: set<string>, m: Machine, es: seq<Event>)
    decreases |es|
  {
    es == [] || (Legal(managed, m, es[0]) && LegalRun(cfg, managed, Step(cfg, m, es[0]), es[1..]))
  }

  lemma {:induction false} RunAppend(cfg: Config, m: Machine, a: seq<Event>, b: seq<Event>)
    ensures Run(cfg, m, a + b) == Run(cfg, Run(cfg, m, a), b)
    decreases |a|
  {
    if a == [] {
      assert a + b == b;
    } else {
      assert (a + b)[1..] == a[1..] + b;
      RunAppend(cfg, Step(cfg, m, a[0]), a[1..], b);
    }
  }

  lemma {:induction false} LegalRunAppend(cfg: Config, managed: set<string>, m: Machine, a: seq<Event>, b: seq<Event>)
    requires LegalRun(cfg, managed, m, a) && LegalRun(cfg, managed, Run(cfg, m, a), b)
    ensures LegalRun(cfg, managed, m, a + b) && Run(cfg, m, a + b) == Run(cfg, Run(cfg, m, a), b)
    decreases |a|
  {
    hide Legal, Step;
    RunAppend(cfg, m, a, b);
    if a == [] {
      assert a + b == b;
    } else {
      assert (a + b)[1..] == a[1..] + b;
      LegalRunAppend(cfg, managed, Step(cfg, m, a[0]), a[1..], b);
    }
  }

  lemma LegalRunThen(cfg: Config, managed: set<string>, m: Machine, es: seq<Event>, e: Event)
    requires LegalRun(cfg, managed, m, es) && Legal(managed, Run(cfg, m, es), e)
    ensures LegalRun(cfg, managed, m, es + [e]) && Run(cfg, m, es + [e]) == Step(cfg, Run(cfg, m, es), e)
  {
    hide Legal, Step;
    assert [e][1..] == [];
    LegalRunAppend(cfg, managed, m, es, [e]);
  }
}
