// The two stores, the calls the operator can make on them, and everything others may do to them.
module World {
  import opened Wrappers
  import opened GoStrings
  import opened Base64
  import opened CasTypes
  import opened Registry
  import opened Cluster

  datatype State = State(
    regs: map<Key, Reg>, secrets: map<Key, Secret>, services: seq<Service>, fqdn: Option<string>, nextUid: nat)

  // ---- Calls ----

  // An update carries the object as it was read: the server's resource-version check compares it with what is stored.
  datatype Request =
    | GetReg(key: Key)
    | UpdateReg(base: Reg, reg: Reg)
    | PatchStatus(base: Reg, reg: Reg)
    | GetSecret(key: Key)
    | CreateSecret(secret: Secret)
    | UpdateSecret(read: Secret, secret: Secret)
    | DeleteSecret(key: Key)
    | ListServices
    | CreateService(service: Service)
    | UpdateService(service: Service)
    | DeleteService(id: int)
    | GetFqdn
    | RandomBytes

  datatype Response =
    | RegAnswer(reg: Reg)
    | SecretAnswer(secret: Secret)
    | ServicesAnswer(services: seq<Service>)
    | ServiceAnswer(service: Service)
    | FqdnAnswer(fqdn: Option<string>)
    | BytesAnswer(bytes: seq<Byte>)
    | Done
    | NotFound
    | Failed(error: string)

  // What the outside chooses for a call: the id CAS assigns, whether it echoes the record, the random bytes.
  datatype Draw = Draw(id: int, echo: bool, bytes: seq<Byte>)

  // A call is answered, fails without effect, or takes effect with its answer lost.
  datatype Outcome = Answered | Refused(error: string) | Lost(error: string)

  function StoreReg(w: State, reg: Reg): State {
    if reg.deletedAt.Some? && reg.finalizers == [] then w.(regs := w.regs - {reg.Id()})
    else w.(regs := w.regs[reg.Id() := reg])
  }

  // The merge patch between two versions of a registration's status, laid over the stored status.
  function PatchedStatus(stored: Status, base: Status, status: Status): Status {
    Status(if base.resolvedSecretRef == status.resolvedSecretRef then stored.resolvedSecretRef
           else status.resolvedSecretRef,
           if base.conditions == status.conditions then stored.conditions else status.conditions)
  }

  function Perform(w: State, request: Request, d: Draw): (State, Response) {
    match request
    case GetReg(key) => (w, if key in w.regs then RegAnswer(w.regs[key]) else NotFound)
    case UpdateReg(base, reg) =>
      if reg.Id() !in w.regs then (w, NotFound)
      else if w.regs[reg.Id()] != base then (w, Failed("conflict"))
      else (StoreReg(w, reg), RegAnswer(reg))
    case PatchStatus(base, reg) =>
      if reg.Id() !in w.regs then (w, NotFound)
      else
        var stored := w.regs[reg.Id()];
        var patched := stored.(status := PatchedStatus(stored.status, base.status, reg.status));
        (w.(regs := w.regs[reg.Id() := patched]), RegAnswer(patched))
    case GetSecret(key) => (w, if key in w.secrets then SecretAnswer(w.secrets[key]) else NotFound)
    case CreateSecret(secret) =>
      if secret.Id() in w.secrets then (w, Failed("already exists"))
      else (w.(secrets := w.secrets[secret.Id() := secret]), Done)
    case UpdateSecret(read, secret) =>
      if secret.Id() !in w.secrets then (w, NotFound)
      else if w.secrets[secret.Id()] != read then (w, Failed("conflict"))
      else if secret.stype != read.stype then (w, Failed("type is immutable"))
      else (w.(secrets := w.secrets[secret.Id() := secret]), Done)
    case DeleteSecret(key) =>
      if key in w.secrets then (w.(secrets := w.secrets - {key}), Done) else (w, NotFound)
    case ListServices => (w, ServicesAnswer(w.services))
    case CreateService(service) =>
      var stored := service.(id := d.id);
      (w.(services := w.services + [stored]), ServiceAnswer(if d.echo then stored else service))
    case UpdateService(service) => (w.(services := Replace(w.services, service)), ServiceAnswer(service))
    case DeleteService(id) => (w.(services := Registry.Remove(w.services, id)), Done)
    case GetFqdn => (w, FqdnAnswer(w.fqdn))
    case RandomBytes => (w, BytesAnswer(d.bytes))
  }

  function Serve(w: State, request: Request, o: Outcome, d: Draw): (State, Response) {
    match o
    case Answered => Perform(w, request, d)
    case Refused(error) => (w, Failed(error))
    case Lost(error) => (Perform(w, request, d).0, Failed(error))
  }

  // A call writes to one of the stores only.
  lemma ServeFrame(w: State, request: Request, o: Outcome, d: Draw)
    ensures var w' := Serve(w, request, o, d).0;
      && (!request.UpdateReg? && !request.PatchStatus? ==> w'.regs == w.regs)
      && (!request.CreateSecret? && !request.UpdateSecret? && !request.DeleteSecret? ==> w'.secrets == w.secrets)
      && (!request.CreateService? && !request.UpdateService? && !request.DeleteService? ==> w'.services == w.services)
      && w'.fqdn == w.fqdn && w'.nextUid == w.nextUid
      && (o.Refused? ==> w' == w)
  {
  }

  // If a call takes effect, CAS gives a new record a fresh id, and the random source fills the whole buffer.
  predicate LegalDraw(w: State, request: Request, o: Outcome, d: Draw) {
    !o.Refused? ==>
      (request.CreateService? ==> d.id != 0 && Int64(d.id) && d.id !in Ids(w.services)) &&
      (request.RandomBytes? ==> |d.bytes| == 32)
  }

  // ---- Others ----

  // Users create, edit and delete objects; the garbage collector removes Secrets (RemoveSecret);
  // other tools own the services of consumers that no registration names.
  datatype UserAct =
    | CreateReg(reg: Reg)
    | EditReg(reg: Reg)
    | DeleteReg(key: Key, now: int)
    | PutSecret(secret: Secret)
    | RemoveSecret(key: Key)
    | SetFqdn(fqdn: Option<string>)
    | EditServices(services: seq<Service>)

  function Apply(w: State, a: UserAct): State {
    match a
    case CreateReg(reg) =>
      if reg.Id() in w.regs then w
      else w.(regs := w.regs[reg.Id() :=
                        reg.(uid := w.nextUid, generation := 1, deletedAt := None, status := Status("", []))],
              nextUid := w.nextUid + 1)
    case EditReg(reg) =>
      if reg.Id() !in w.regs then w
      else
        var stored := w.regs[reg.Id()];
        StoreReg(w, reg.(uid := stored.uid, deletedAt := stored.deletedAt, status := stored.status,
                       generation := if reg.spec == stored.spec then stored.generation else stored.generation + 1))
    case DeleteReg(key, now) =>
      if key !in w.regs || (w.regs[key].deletedAt.Some? && w.regs[key].finalizers != []) then w
      else if w.regs[key].finalizers == [] then w.(regs := w.regs - {key})
      else w.(regs := w.regs[key := w.regs[key].(deletedAt := Some(now), generation := w.regs[key].generation + 1)])
    case PutSecret(secret) => w.(secrets := w.secrets[secret.Id() := secret])
    case RemoveSecret(key) => w.(secrets := w.secrets - {key})
    case SetFqdn(fqdn) => w.(fqdn := fqdn)
    case EditServices(services) => w.(services := services)
  }

  // What others keep to. `managed` holds the consumers registrations may name: nobody else registers services for
  // them, and a registration keeps its consumer. Nobody takes the operator's finalizer, the API server lets nobody add
  // it to an object that is being deleted, and nobody makes a Secret controlled by a registration. An owner reference
  // may be taken off a Secret, or replaced by one to an object of another kind (whose uid is negative).
  predicate LegalUser(managed: set<string>, w: State, a: UserAct) {
    match a
    case CreateReg(reg) => Trimmed(reg.name) && (Blank(reg.spec.consumer) || reg.spec.consumer in managed)
    case EditReg(reg) =>
      reg.Id() in w.regs ==>
        reg.spec.consumer == w.regs[reg.Id()].spec.consumer && (HasFinalizer(w.regs[reg.Id()]) ==> HasFinalizer(reg)) &&
        (w.regs[reg.Id()].deletedAt.Some? ==> (HasFinalizer(reg) ==> HasFinalizer(w.regs[reg.Id()])))
    case PutSecret(secret) =>
      (secret.Id() in w.secrets && secret.controller == w.secrets[secret.Id()].controller) ||
      (secret.controller.Some? ==> secret.controller.value.kind != REG_KIND && secret.controller.value.uid < 0)
    case EditServices(services) =>
      Valid(services) && forall c | c in managed :: ByConsumer(services, c) == ByConsumer(w.services, c)
    case _ => true
  }
}
