// What the operator does to the data of a Secret: it only adds, and a client secret once there stays.
module SecretData {
  import opened Wrappers
  import opened GoStrings
  import opened Base64
  import opened Domain
  import opened CasTypes
  import opened Registry
  import opened Mapper
  import opened Cluster
  import opened World
  import opened Worker
  import opened Invariant
  import opened Steps
  import opened SecretSafety

  // The data keys a protocol writes.
  function KeysOf(protocol: Protocol): set<string> {
    match protocol
    case CAS => {"cas_client_id"}
    case OIDC => {"oidc_client_id", "oidc_client_secret", "oidc_issuer_url"}
    case OAUTH => {"oauth", "oauth_client_secret", "oauth_auth_url", "oauth_token_url"}
    case _ => {}
  }

  // Keys of the protocol are added or get other values; nothing else changes, and no key is gone.
  predicate DataGrown(data: RegistrationData, data': RegistrationData, protocol: Protocol) {
    data.Keys <= data'.Keys <= data.Keys + KeysOf(protocol) &&
    forall key | key in data && key !in KeysOf(protocol) :: data'[key] == data[key]
  }

  lemma ResultKeys(result: RegistrationResult)
    ensures GetRegistrationData(result).Keys <= KeysOf(result.protocol)
  {
  }

  lemma ResultGrows(data: RegistrationData, result: RegistrationResult)
    ensures DataGrown(data, data + GetRegistrationData(result), result.protocol)
  {
    hide GetRegistrationData, KeysOf;
    ResultKeys(result);
  }

  lemma SameGrows(data: RegistrationData, protocol: Protocol)
    ensures DataGrown(data, data, protocol)
  {
  }

  lemma WrittenGrows(data: RegistrationData, data': RegistrationData)
    requires DataWritten(data, data')
    ensures exists protocol :: DataGrown(data, data', protocol)
  {
    hide GetRegistrationData, DataGrown;
    var result :| data' == data + GetRegistrationData(result);
    ResultGrows(data, result);
  }

  // A Secret that survives a call keeps every label, annotation and data key. Only the label with the registration's
  // name and the keys of one protocol can be new or get other values.
  lemma SecretOnlyGrows(managed: set<string>, m: Machine, o: Outcome, d: Draw, sk: Key)
    requires Inv(managed, m) && !m.pc.Idle? && sk in m.world.secrets
    requires sk in Serve(m.world, RequestAt(m.pc), o, d).0.secrets
    ensures var before, after := m.world.secrets[sk], Serve(m.world, RequestAt(m.pc), o, d).0.secrets[sk];
      && before.labels.Keys <= after.labels.Keys <= before.labels.Keys + {NAME_LABEL}
      && (forall l | l in before.labels && l != NAME_LABEL :: after.labels[l] == before.labels[l])
      && after.annotations == before.annotations
      && exists protocol :: DataGrown(before.data, after.data, protocol)
  {
    hide Serve, WorldOk, Anchored, FindingsOk, DataWritten, DataGrown;
    SecretAfterCall(managed, m, o, d, sk);
    SameGrows(m.world.secrets[sk].data, CAS);
    if m.pc.UpdatingSecret? && sk == m.pc.job.Target() && m.world.secrets[sk] == m.pc.read {
      assert UpdateOk(m.pc.job, m.pc.read, m.pc.merged);
      WrittenGrows(m.pc.read.data, m.pc.merged.data);
    }
  }

  // ---- Which protocol ----

  // What the reconcile at `pc` writes to its Secret are data of this protocol.
  predicate WritesFor(pc: Pc, protocol: Protocol) {
    match pc
    case Loading(_) => false
    case Finalizing(_) => false
    case ReadingData(job) => job.obj.spec.protocol == protocol
    case Listing(job, _) => job.obj.spec.protocol == protocol
    case Generating(job, _) => job.obj.spec.protocol == protocol
    case ReadingFqdn(job, _, _) => job.obj.spec.protocol == protocol
    case Writing(job, _, _, _) => job.obj.spec.protocol == protocol
    case ReadingFqdnAgain(job, _, _) => job.obj.spec.protocol == protocol
    case Patching(_, _, next) => next.ResolvedRef? ==> next.result.protocol == protocol
    case ReadingSecret(_, result) => result.protocol == protocol
    case CreatingSecret(_, desired) => desired.data.Keys <= KeysOf(protocol)
    case UpdatingSecret(_, read, merged) => DataGrown(read.data, merged.data, protocol)
    case _ => true
  }

  lemma ServiceWritesFor(cfg: Config, w: State, pc: Pc, o: Outcome, d: Draw, protocol: Protocol)
    requires pc.ReadingData? || pc.Listing? || pc.Generating? || pc.ReadingFqdn? || pc.Writing? || pc.ReadingFqdnAgain?
    requires WritesFor(pc, protocol)
    ensures WritesFor(After(cfg, w, pc, o, d).pc, protocol)
  {
    hide After, RegistrationFailed, BuildServicePayload, ClientSecret, ValidateRegistration, FindServiceByConsumer,
         Encode, DataGrown;
    if pc.ReadingData? { AtReadingData(cfg, w, pc, o, d); }
    else if pc.Listing? { AtListing(cfg, w, pc, o, d); }
    else if pc.Generating? { AtGenerating(cfg, w, pc, o, d); }
    else if pc.ReadingFqdn? { AtReadingFqdn(cfg, w, pc, o, d); }
    else if pc.Writing? { AtWriting(cfg, w, pc, o, d); }
    else { AtReadingFqdnAgain(cfg, w, pc, o, d); }
  }

  lemma PatchWritesFor(managed: set<string>, cfg: Config, w: State, pc: Pc, o: Outcome, d: Draw, protocol: Protocol)
    requires pc.Patching? && PcOk(managed, w, pc) && WritesFor(pc, protocol)
    ensures WritesFor(After(cfg, w, pc, o, d).pc, protocol)
  {
    hide After, Succeed, Block, InvalidPublishedPc, InvalidCompletedPc, ConditionsOk, DataGrown;
    AtPatching(cfg, w, pc, o, d);
  }

  lemma ReadingSecretWritesFor(cfg: Config, w: State, pc: Pc, o: Outcome, d: Draw, protocol: Protocol)
    requires pc.ReadingSecret? && WritesFor(pc, protocol)
    ensures WritesFor(After(cfg, w, pc, o, d).pc, protocol)
  {
    hide After, SecretFailed, CleanUp, GetRegistrationData, DataGrown, KeysOf;
    AtReadingSecret(cfg, w, pc, o, d);
    ResultKeys(pc.result);
    if pc.job.Target() in w.secrets { ResultGrows(w.secrets[pc.job.Target()].data, pc.result); }
  }

  lemma QuietWritesFor(pc: Pc, protocol: Protocol)
    requires Quiet(pc) && !pc.ReadingData? && !pc.Finalizing?
    ensures WritesFor(pc, protocol)
  {
  }

  lemma NeverFinalizes(cfg: Config, w: State, pc: Pc, o: Outcome, d: Draw)
    requires !pc.Idle? && !pc.Loading?
    ensures !After(cfg, w, pc, o, d).pc.Finalizing?
  {
    hide Begin, BeginUpsert, Listed, Upserted, SecretRead, CleanUp, ListedForDelete, RegistrationFailed, SecretFailed,
         Publish, Succeed, Block, InvalidPublishedPc, InvalidCompletedPc, BuildServicePayload, BuildRegistrationResult,
         Encode, Serve;
  }

  lemma CallWritesFor(managed: set<string>, cfg: Config, m: Machine, o: Outcome, d: Draw, protocol: Protocol)
    requires Inv(managed, m) && !m.pc.Idle? && WritesFor(m.pc, protocol)
    ensures WritesFor(After(cfg, m.world, m.pc, o, d).pc, protocol)
  {
    hide After, PcOk, WorldOk;
    var w, pc := m.world, m.pc;
    if pc.Patching? { PatchWritesFor(managed, cfg, w, pc, o, d, protocol); }
    else if pc.ReadingSecret? { ReadingSecretWritesFor(cfg, w, pc, o, d, protocol); }
    else if !Carrier(pc) {
      OthersAreQuiet(cfg, w, pc, o, d);
      OnlyStartReads(cfg, w, pc, o, d);
      NeverFinalizes(cfg, w, pc, o, d);
      QuietWritesFor(After(cfg, w, pc, o, d).pc, protocol);
    }
    else { ServiceWritesFor(cfg, w, pc, o, d, protocol); }
  }

  lemma {:induction false} RunWritesFor(managed: set<string>, cfg: Config, m: Machine, es: seq<Event>,
      protocol: Protocol)
    requires Inv(managed, m) && LegalRun(cfg, managed, m, es) && forall e | e in es :: e.User? || e.Call?
    requires WritesFor(m.pc, protocol)
    ensures WritesFor(Run(cfg, m, es).pc, protocol)
    decreases |es|
  {
    hide Inv, WritesFor, Serve, Resume, Apply, Legal;
    if es != [] {
      assert es[0] in es;
      StepKeepsInv(managed, cfg, m, es[0]);
      if es[0].Call? && !m.pc.Idle? { CallWritesFor(managed, cfg, m, es[0].outcome, es[0].draw, protocol); }
      RunWritesFor(managed, cfg, Step(cfg, m, es[0]), es[1..], protocol);
    }
  }

  // From the object it has loaded, to whatever end and whatever others do meanwhile: a reconcile changes a Secret in
  // the keys of the protocol it has loaded only, and creates one with no other keys.
  lemma OnlyLoadedProtocol(managed: set<string>, cfg: Config, m: Machine, es: seq<Event>, o: Outcome, d: Draw, sk: Key)
    requires Inv(managed, m) && m.pc.ReadingData? && LegalRun(cfg, managed, m, es) &&
             forall e | e in es :: e.User? || e.Call?
    requires !Run(cfg, m, es).pc.Idle?
    ensures var m' := Run(cfg, m, es); var w' := Serve(m'.world, RequestAt(m'.pc), o, d).0;
      sk in w'.secrets ==>
        if sk in m'.world.secrets then
          DataGrown(m'.world.secrets[sk].data, w'.secrets[sk].data, m.pc.job.obj.spec.protocol)
        else w'.secrets[sk].data.Keys <= KeysOf(m.pc.job.obj.spec.protocol)
  {
    hide Inv, Run, LegalRun, Serve, DataGrown, KeysOf;
    var protocol := m.pc.job.obj.spec.protocol;
    RunKeepsInv(managed, cfg, m, es);
    RunWritesFor(managed, cfg, m, es, protocol);
    var m' := Run(cfg, m, es);
    if sk in m'.world.secrets {
      SecretAfterCall(managed, m', o, d, sk);
      SameGrows(m'.world.secrets[sk].data, protocol);
    } else {
      NewSecretAfterCall(managed, m', o, d, sk);
    }
  }

  // ---- A client secret stays ----

  // Writing the data leaves the value of the key, if it writes it at all.
  predicate Agrees(data: RegistrationData, key: string, v: string) {
    key in data ==> data[key] == v
  }

  // The value is stored, and what the running reconcile has read of it, or will write for it, is that value.
  predicate Carries(pc: Pc, sk: Key, protocol: Protocol, v: string)
    requires SecretKey(protocol).Some?
  {
    var key := SecretKey(protocol).value;
    match pc
    case Listing(job, data) => job.Target() == sk ==> key in data && TrimSpace(data[key]) == v
    case Generating(job, _) => job.Target() == sk ==> job.obj.spec.protocol != protocol
    case ReadingFqdn(job, _, s) => job.Target() == sk && job.obj.spec.protocol == protocol ==> s == v
    case Writing(job, _, _, s) => job.Target() == sk && job.obj.spec.protocol == protocol ==> s == v
    case ReadingFqdnAgain(job, _, s) => job.Target() == sk && job.obj.spec.protocol == protocol ==> s == v
    case Patching(_, _, next) =>
      next.ResolvedRef? && next.job.Target() == sk ==> Agrees(GetRegistrationData(next.result), key, v)
    case ReadingSecret(job, result) => job.Target() == sk ==> Agrees(GetRegistrationData(result), key, v)
    case UpdatingSecret(job, _, merged) => job.Target() == sk ==> key in merged.data && TrimSpace(merged.data[key]) == v
    case _ => true
  }

  predicate Holds(w: State, sk: Key, protocol: Protocol, v: string)
    requires SecretKey(protocol).Some?
  {
    var key := SecretKey(protocol).value;
    sk in w.secrets && key in w.secrets[sk].data && TrimSpace(w.secrets[sk].data[key]) == v
  }

  // Nobody else removes the Secret or writes the key.
  predicate LeavesValue(m: Machine, e: Event, sk: Key, protocol: Protocol, v: string)
    requires SecretKey(protocol).Some?
  {
    e.User? && Holds(m.world, sk, protocol, v) ==> Holds(Apply(m.world, e.act), sk, protocol, v)
  }

  predicate LeaveValue(cfg: Config, m: Machine, es: seq<Event>, sk: Key, protocol: Protocol, v: string)
    requires SecretKey(protocol).Some?
    decreases |es|
  {
    es == [] || (LeavesValue(m, es[0], sk, protocol, v) &&
      LeaveValue(cfg, Step(cfg, m, es[0]), es[1..], sk, protocol, v))
  }

  // The Secret is missing somewhere in the run.
  predicate Missing(cfg: Config, m: Machine, es: seq<Event>, sk: Key)
    decreases |es|
  {
    sk !in m.world.secrets || (es != [] && Missing(cfg, Step(cfg, m, es[0]), es[1..], sk))
  }

  lemma ResultCarries(cfg: Config, fqdn: string, reg: Registration, service: Service, secret: string,
      protocol: Protocol, v: string)
    requires SecretKey(protocol).Some? && (reg.protocol == protocol ==> secret == v)
    ensures Agrees(GetRegistrationData(BuildRegistrationResult(cfg, fqdn, reg, service, secret)),
            SecretKey(protocol).value, v)
  {
    SecretKeysSeparate(BuildRegistrationResult(cfg, fqdn, reg, service, secret), protocol);
  }

  lemma ListedCarries(job: Job, data: RegistrationData, services: seq<Service>, sk: Key, protocol: Protocol, v: string)
    requires SecretKey(protocol).Some? && Trimmed(v) && v != ""
    requires job.Target() == sk ==> SecretKey(protocol).value in data && TrimSpace(data[SecretKey(protocol).value]) == v
    ensures Carries(Listed(job, data, services), sk, protocol, v)
  {
    hide RegistrationFailed, FindServiceByConsumer;

  }

  lemma SecretReadCarries(job: Job, result: RegistrationResult, current: Secret, sk: Key, protocol: Protocol, v: string)
    requires SecretKey(protocol).Some?
    requires job.Target() == sk ==>
      SecretKey(protocol).value in current.data && TrimSpace(current.data[SecretKey(protocol).value]) == v &&
      Trimmed(v) &&
      Agrees(GetRegistrationData(result), SecretKey(protocol).value, v)
    ensures Carries(SecretRead(job, result, current), sk, protocol, v)
  {
    hide SecretFailed, CleanUp, GetRegistrationData;

  }

  lemma QuietCarries(pc: Pc, sk: Key, protocol: Protocol, v: string)
    requires Quiet(pc) && SecretKey(protocol).Some?
    ensures Carries(pc, sk, protocol, v)
  {
    hide After, RegistrationFailed, ValidateRegistration;
  }

  lemma ReadingDataCarries(cfg: Config, w: State, pc: Pc, o: Outcome, d: Draw, sk: Key, protocol: Protocol, v: string)
    requires pc.ReadingData? && SecretKey(protocol).Some? && Holds(w, sk, protocol, v)
    ensures Carries(After(cfg, w, pc, o, d).pc, sk, protocol, v)
  {
    AtReadingData(cfg, w, pc, o, d);
  }

  lemma ListingCarries(cfg: Config, w: State, pc: Pc, o: Outcome, d: Draw, sk: Key, protocol: Protocol, v: string)
    requires pc.Listing? && SecretKey(protocol).Some? && Trimmed(v) && v != "" && Carries(pc, sk, protocol, v)
    ensures Carries(After(cfg, w, pc, o, d).pc, sk, protocol, v)
  {
    hide After, RegistrationFailed, Listed;
    AtListing(cfg, w, pc, o, d);
    ListedCarries(pc.job, pc.data, w.services, sk, protocol, v);
  }

  lemma SecretCarries(cfg: Config, w: State, pc: Pc, o: Outcome, d: Draw, sk: Key, protocol: Protocol, v: string)
    requires pc.Generating? || pc.ReadingFqdn? || pc.Writing?
    requires SecretKey(protocol).Some? && Carries(pc, sk, protocol, v)
    ensures Carries(After(cfg, w, pc, o, d).pc, sk, protocol, v)
  {
    hide After, RegistrationFailed, BuildServicePayload, Encode;
    if pc.Generating? { AtGenerating(cfg, w, pc, o, d); }
    else if pc.ReadingFqdn? { AtReadingFqdn(cfg, w, pc, o, d); }
    else { AtWriting(cfg, w, pc, o, d); }
  }

  lemma ReadingFqdnAgainCarries(cfg: Config, w: State, pc: Pc, o: Outcome, d: Draw, sk: Key, protocol: Protocol,
      v: string)
    requires pc.ReadingFqdnAgain? && SecretKey(protocol).Some? && Carries(pc, sk, protocol, v)
    ensures Carries(After(cfg, w, pc, o, d).pc, sk, protocol, v)
  {
    hide After, RegistrationFailed, BuildRegistrationResult, GetRegistrationData;
    AtReadingFqdnAgain(cfg, w, pc, o, d);
    if w.fqdn.Some? && pc.job.Target() == sk {
      ResultCarries(cfg, w.fqdn.value, pc.job.Wanted(), pc.persisted, pc.secret, protocol, v);
    }
  }

  lemma PatchedCarries(obj: Reg, next: Then, sk: Key, protocol: Protocol, v: string)
    requires SecretKey(protocol).Some?
    requires next.ResolvedRef? && next.job.Target() == sk ==>
      Agrees(GetRegistrationData(next.result), SecretKey(protocol).value, v)
    requires next.ResolvedRef? ==> next.job.obj.Id() == obj.Id()
    ensures Carries(AfterPatch(obj, next), sk, protocol, v)
  {
    hide Block, InvalidPublishedPc, InvalidCompletedPc, Succeed, GetRegistrationData;

  }

  lemma PatchingCarries(cfg: Config, w: State, pc: Pc, o: Outcome, d: Draw, sk: Key, protocol: Protocol, v: string)
    requires pc.Patching? && SecretKey(protocol).Some? && Carries(pc, sk, protocol, v)
    requires Anchored(w, pc.base) && PatchOk(pc.base, pc.patched, pc.next) && w.regs[pc.base.Id()].Id() == pc.base.Id()
    ensures Carries(After(cfg, w, pc, o, d).pc, sk, protocol, v)
  {
    hide After, AfterPatch, GetRegistrationData;
    AtPatching(cfg, w, pc, o, d);
    PatchedCarries(w.regs[pc.base.Id()].(status := pc.patched.status), pc.next, sk, protocol, v);
  }

  lemma ReadingSecretCarries(cfg: Config, w: State, pc: Pc, o: Outcome, d: Draw, sk: Key, protocol: Protocol, v: string)
    requires pc.ReadingSecret? && SecretKey(protocol).Some? && Holds(w, sk, protocol, v) &&
      Carries(pc, sk, protocol, v) && Trimmed(v)
    ensures Carries(After(cfg, w, pc, o, d).pc, sk, protocol, v)
  {
    hide After, SecretFailed, SecretRead, GetRegistrationData, TrimSpace, BuildDesiredSecret;
    AtReadingSecret(cfg, w, pc, o, d);
    if pc.job.Target() in w.secrets {
      SecretReadCarries(pc.job, pc.result, w.secrets[pc.job.Target()], sk, protocol, v);
    }
  }

  lemma CallCarries(managed: set<string>, cfg: Config, m: Machine, o: Outcome, d: Draw, sk: Key, protocol: Protocol,
      v: string)
    requires Inv(managed, m) && !m.pc.Idle? && SecretKey(protocol).Some? && Trimmed(v) && v != ""
    requires Holds(m.world, sk, protocol, v) && Carries(m.pc, sk, protocol, v)
    ensures Carries(After(cfg, m.world, m.pc, o, d).pc, sk, protocol, v)
  {
    hide After, Carries;
    var w, pc := m.world, m.pc;
    if pc.ReadingData? { ReadingDataCarries(cfg, w, pc, o, d, sk, protocol, v); }
    else if pc.Listing? { ListingCarries(cfg, w, pc, o, d, sk, protocol, v); }
    else if pc.Generating? || pc.ReadingFqdn? || pc.Writing? { SecretCarries(cfg, w, pc, o, d, sk, protocol, v); }
    else if pc.ReadingFqdnAgain? { ReadingFqdnAgainCarries(cfg, w, pc, o, d, sk, protocol, v); }
    else if pc.Patching? { PatchingCarries(cfg, w, pc, o, d, sk, protocol, v); }
    else if pc.ReadingSecret? { ReadingSecretCarries(cfg, w, pc, o, d, sk, protocol, v); }
    else {
      OthersAreQuiet(cfg, w, pc, o, d);
      QuietCarries(After(cfg, w, pc, o, d).pc, sk, protocol, v);
    }
  }

  lemma StepKeepsValue(managed: set<string>, cfg: Config, m: Machine, e: Event, sk: Key, protocol: Protocol, v: string)
    requires Inv(managed, m) && Legal(managed, m, e) && SecretKey(protocol).Some? && Trimmed(v) && v != ""
    requires Holds(m.world, sk, protocol, v) && Carries(m.pc, sk, protocol, v) && LeavesValue(m, e, sk, protocol, v)
    ensures var m' := Step(cfg, m, e);
      sk in m'.world.secrets ==> Holds(m'.world, sk, protocol, v) && Carries(m'.pc, sk, protocol, v)
  {
    match e
    case Call(o, d) =>
      if !m.pc.Idle? {
        SecretAfterCall(managed, m, o, d, sk);
        CallCarries(managed, cfg, m, o, d, sk, protocol, v);
        hide Serve, Resume, Inv;
      }
    case _ =>
  }

  // A client secret of a protocol, once in a Secret, stays there whatever registrations are reconciled onto that
  // Secret, with whatever protocols and failures, as long as the Secret exists and nobody else writes the key. So
  // switching a registration to another protocol and back finds the secret it had.
  lemma {:induction false} ClientSecretStays(managed: set<string>, cfg: Config, m: Machine, es: seq<Event>,
                                             sk: Key, protocol: Protocol, v: string)
    requires Inv(managed, m) && LegalRun(cfg, managed, m, es) && SecretKey(protocol).Some? && Trimmed(v) && v != ""
    requires Holds(m.world, sk, protocol, v) && Carries(m.pc, sk, protocol, v) &&
             LeaveValue(cfg, m, es, sk, protocol, v)
    ensures Missing(cfg, m, es, sk) ||
            (Holds(Run(cfg, m, es).world, sk, protocol, v) &&
             ClientSecret(Run(cfg, m, es).world.secrets[sk].data, protocol) == Some(v))
    decreases |es|
  {
    if es != [] {
      StepKeepsInv(managed, cfg, m, es[0]);
      StepKeepsValue(managed, cfg, m, es[0], sk, protocol, v);
      if sk in Step(cfg, m, es[0]).world.secrets {
        ClientSecretStays(managed, cfg, Step(cfg, m, es[0]), es[1..], sk, protocol, v);
      }
    }
  }
}
