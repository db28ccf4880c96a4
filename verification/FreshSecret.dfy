// Where no client secret is stored yet, the one that comes into both stores is made of the random bytes.
module FreshSecret {
  import opened Wrappers
  import opened GoStrings
  import opened Base64
  import opened Domain
  import opened CasTypes
  import opened Registry
  import opened Mapper
  import opened Cluster
  import opened World
  import opened Worker
  import opened Invariant
  import opened Steps
  import opened Attempts
  import opened FixedPoint
  import opened Success
  import opened Health
  import opened Footprint

  // The Secret, its data key, and the value that is to be there.
  datatype Entry = Entry(sk: Key, key: string, v: string)

  predicate Has(w: State, e: Entry) {
    e.sk in w.secrets && HasIn(w.secrets[e.sk].data, e)
  }

  predicate HasIn(data: RegistrationData, e: Entry) {
    e.key in data && data[e.key] == e.v
  }

  // No client secret is stored.
  predicate Lacks(data: RegistrationData, key: string) {
    key in data ==> AllSpace(data[key])
  }

  predicate LacksSecret(w: State, e: Entry) {
    e.sk in w.secrets ==> Lacks(w.secrets[e.sk].data, e.key)
  }

  // How far the value has come.
  predicate Makes(w: State, pc: Pc, e: Entry) {
    match pc
    case Loading(_) => LacksSecret(w, e)
    case Finalizing(_) => LacksSecret(w, e)
    case ReadingData(_) => LacksSecret(w, e)
    case Listing(_, data) => Lacks(data, e.key)
    case Generating(_, _) => true
    case ReadingFqdn(_, _, s) => s == e.v
    case Writing(_, _, _, s) => s == e.v
    case ReadingFqdnAgain(_, _, s) => s == e.v
    case Patching(_, _, next) =>
      if next.ResolvedRef? then HasIn(GetRegistrationData(next.result), e) else Has(w, e)
    case ReadingSecret(_, result) => HasIn(GetRegistrationData(result), e)
    case CreatingSecret(job, desired) => desired.Id() == e.sk && HasIn(desired.data, e)
    case UpdatingSecret(job, _, merged) => merged.Id() == e.sk && HasIn(merged.data, e)
    case _ => Has(w, e)
  }

  // The entry of this registration, for bytes that are drawn.
  predicate EntryOf(reg: Reg, d: Draw, e: Entry) {
    SecretKey(reg.spec.protocol) == Some(e.key) && ResolvedKey(reg) == Some(e.sk) && |d.bytes| == 32 &&
    e.v == Encode(d.bytes)
  }

  lemma JobFor(cfg: Config, w: State, k: Key, pc: Pc)
    requires Stage(cfg, w, k, pc) && k in w.regs && ObjAt(pc).Some?
    ensures SameSpec(w.regs[k], ObjAt(pc).value)
    ensures pc.ReadingData? || pc.ReadingSecret? ==> ResolvedKey(w.regs[k]) == Some(pc.job.Target())
  {
    hide ConditionsOk, StoresSettled, Success.Result, Planned, ValidateRegistration, ByConsumer;
  }

  lemma LoadMakes(cfg: Config, w: State, k: Key, pc: Pc, d: Draw, e: Entry)
    requires (pc.Loading? || pc.Finalizing?) && Stage(cfg, w, k, pc) && Makes(w, pc, e)
    requires var m' := After(cfg, w, pc, Answered, d); Smooth(m'.world, m'.pc)
    ensures var m' := After(cfg, w, pc, Answered, d); Makes(m'.world, m'.pc, e)
  {
    hide After, ConditionsOk, InvalidSpec, BeginDeletion, LacksSecret, Has;
    if pc.Loading? { AtLoading(cfg, w, pc, Answered, d); } else { AtFinalizing(cfg, w, pc, Answered, d); }
    LacksSame(w, After(cfg, w, pc, Answered, d).world, e);
  }

  lemma LacksSame(w: State, w': State, e: Entry)
    requires w'.secrets == w.secrets
    ensures LacksSecret(w', e) == LacksSecret(w, e) && Has(w', e) == Has(w, e)
  {
  }

  // Nothing stored, so the bytes are drawn and encoded.
  lemma ReadMakes(cfg: Config, w: State, k: Key, pc: Pc, d: Draw, e: Entry)
    requires (pc.ReadingData? || pc.Listing? || pc.Generating?) && Stage(cfg, w, k, pc) && Makes(w, pc, e)
    requires k in w.regs && EntryOf(w.regs[k], d, e)
    requires var m' := After(cfg, w, pc, Answered, d); Smooth(m'.world, m'.pc)
    ensures var m' := After(cfg, w, pc, Answered, d); Makes(m'.world, m'.pc, e)
  {
    hide After, ConditionsOk, RegistrationFailed, FindServiceByConsumer, ValidateRegistration, Stage, Encode, TrimSpace;
    JobFor(cfg, w, k, pc);
    if pc.ReadingData? {
      AtReadingData(cfg, w, pc, Answered, d);
    } else if pc.Listing? {
      AtListing(cfg, w, pc, Answered, d);
      LackingIsEmpty(pc.data, pc.job.obj.spec.protocol, e.key);
    } else {
      AtGenerating(cfg, w, pc, Answered, d);
    }
  }

  lemma LackingIsEmpty(data: RegistrationData, protocol: Protocol, key: string)
    requires SecretKey(protocol) == Some(key) && Lacks(data, key)
    ensures ClientSecret(data, protocol) == Some("")
  {
  }

  lemma UpsertMakes(cfg: Config, w: State, k: Key, pc: Pc, d: Draw, e: Entry)
    requires (pc.ReadingFqdn? || pc.Writing? || pc.ReadingFqdnAgain?) && Stage(cfg, w, k, pc) && Makes(w, pc, e)
    requires k in w.regs && EntryOf(w.regs[k], d, e)
    requires var m' := After(cfg, w, pc, Answered, d); Smooth(m'.world, m'.pc)
    ensures var m' := After(cfg, w, pc, Answered, d); Makes(m'.world, m'.pc, e)
  {
    hide After, RegistrationFailed, BuildServicePayload, BuildRegistrationResult, Stage, Encode, GetRegistrationData;
    JobFor(cfg, w, k, pc);
    if pc.ReadingFqdn? {
      AtReadingFqdn(cfg, w, pc, Answered, d);
    } else if pc.Writing? {
      AtWriting(cfg, w, pc, Answered, d);
    } else {
      AtReadingFqdnAgain(cfg, w, pc, Answered, d);
      if w.fqdn.Some? { ResultHasSecret(cfg, w.fqdn.value, pc.job.Wanted(), pc.persisted, pc.secret, e); }
    }
  }

  lemma ResultHasSecret(cfg: Config, fqdn: string, reg: Registration, service: Service, secret: string, e: Entry)
    requires SecretKey(reg.protocol) == Some(e.key) && secret == e.v
    ensures HasIn(GetRegistrationData(BuildRegistrationResult(cfg, fqdn, reg, service, secret)), e)
  {
  }

  lemma PatchMakes(managed: set<string>, cfg: Config, w: State, pc: Pc, d: Draw, e: Entry)
    requires pc.Patching? && PcOk(managed, w, pc) && Makes(w, pc, e) && Smooth(w, pc)
    ensures var m' := After(cfg, w, pc, Answered, d); Makes(m'.world, m'.pc, e)
  {
    hide After, ConditionsOk, Succeed, GetRegistrationData, Has;
    AtPatching(cfg, w, pc, Answered, d);
    LacksSame(w, After(cfg, w, pc, Answered, d).world, e);
  }

  lemma SecretMakes(cfg: Config, w: State, k: Key, pc: Pc, d: Draw, e: Entry)
    requires pc.ReadingSecret? && Stage(cfg, w, k, pc) && Makes(w, pc, e) && SecretsOk(w)
    requires k in w.regs && EntryOf(w.regs[k], d, e)
    requires var m' := After(cfg, w, pc, Answered, d); Smooth(m'.world, m'.pc)
    ensures var m' := After(cfg, w, pc, Answered, d); Makes(m'.world, m'.pc, e)
  {
    hide After, Stage, CleanUp, SecretFailed, GetRegistrationData, Encode, ResolvedKey;
    JobFor(cfg, w, k, pc);
    AtReadingSecret(cfg, w, pc, Answered, d);
    DoneMakes(w, pc.job, e);
    FailureIsNotSmooth(w, pc.job.obj);
  }

  // The reconcile that goes on to the cleanup has the value in the Secret.
  lemma DoneMakes(w: State, job: Job, e: Entry)
    ensures Has(w, e) ==> Makes(w, CleanUp(job), e)
  {
    hide Publish, TrimSpace;
  }

  lemma FailureIsNotSmooth(w: State, obj: Reg)
    ensures forall error :: !Smooth(w, SecretFailed(obj, error))
  {
    hide WithCondition, Patch;
  }

  lemma WriteMakes(cfg: Config, w: State, pc: Pc, d: Draw, e: Entry)
    requires (pc.CreatingSecret? || pc.UpdatingSecret?) && Makes(w, pc, e)
    requires var m' := After(cfg, w, pc, Answered, d); Smooth(m'.world, m'.pc)
    ensures var m' := After(cfg, w, pc, Answered, d); Makes(m'.world, m'.pc, e)
  {
    hide After, CleanUp, SecretFailed;
    var m' := After(cfg, w, pc, Answered, d);
    if pc.CreatingSecret? {
      AtCreatingSecret(cfg, w, pc, Answered, d);
    } else {
      AtUpdatingSecret(cfg, w, pc, Answered, d);
    }
    DoneMakes(m'.world, pc.job, e);
    FailureIsNotSmooth(m'.world, pc.job.obj);
  }

  lemma CleanUpMakes(cfg: Config, w: State, k: Key, pc: Pc, d: Draw, e: Entry)
    requires (pc.ReadingPrevious? || pc.DeletingPrevious?) && Stage(cfg, w, k, pc) && Makes(w, pc, e)
    requires k in w.regs && EntryOf(w.regs[k], d, e)
    ensures var m' := After(cfg, w, pc, Answered, d); Makes(m'.world, m'.pc, e)
  {
    hide After, Stage, Publish, Encode, ResolvedKey, TrimSpace;
    if pc.ReadingPrevious? {
      AtReadingPrevious(cfg, w, pc, Answered, d);
    } else {
      AtDeletingPrevious(cfg, w, pc, Answered, d);
      WritesTarget(cfg, w, k, pc);
    }
  }

  lemma CallMakes(managed: set<string>, cfg: Config, m: Machine, k: Key, d: Draw, e: Entry)
    requires Inv(managed, m) && !m.pc.Idle? && Stage(cfg, m.world, k, m.pc) && Smooth(m.world, m.pc)
    requires Makes(m.world, m.pc, e) && k in m.world.regs && EntryOf(m.world.regs[k], d, e)
    requires var m' := After(cfg, m.world, m.pc, Answered, d); Smooth(m'.world, m'.pc)
    ensures var m' := After(cfg, m.world, m.pc, Answered, d); Makes(m'.world, m'.pc, e)
  {
    hide After, Smooth, Makes, EntryOf, RegsOk, ServicesOk, NextStage, ConditionsOk;
    var w, pc := m.world, m.pc;
    if pc.Loading? || pc.Finalizing? { LoadMakes(cfg, w, k, pc, d, e); }
    else if pc.ReadingData? || pc.Listing? || pc.Generating? { ReadMakes(cfg, w, k, pc, d, e); }
    else if pc.ReadingFqdn? || pc.Writing? || pc.ReadingFqdnAgain? { UpsertMakes(cfg, w, k, pc, d, e); }
    else if pc.Patching? { PatchMakes(managed, cfg, w, pc, d, e); }
    else if pc.ReadingSecret? { SecretMakes(cfg, w, k, pc, d, e); }
    else if pc.CreatingSecret? || pc.UpdatingSecret? { WriteMakes(cfg, w, pc, d, e); }
    else { CleanUpMakes(cfg, w, k, pc, d, e); }
  }

  lemma {:induction false} FinishMakes(managed: set<string>, cfg: Config, w0: State, m: Machine, k: Key, d: Draw,
      e: Entry)
    requires Underway(managed, cfg, w0, m, k, d) && EntryOf(w0.regs[k], d, e) && Makes(m.world, m.pc, e)
    ensures Has(Finish(cfg, m, d).world, e)
    decreases Rank(m.pc)
  {
    hide Underway, After, Rank, Makes, EntryOf, Has;
    if m.pc.Idle? {
      FinishIdle(cfg, m, d);
      EndHas(m, e);
    } else {
      var next := After(cfg, m.world, m.pc, Answered, d);
      StaysUnderway(managed, cfg, w0, m, k, d);
      UnderwayMakes(managed, cfg, w0, m, k, d, e);
      RankFalls(cfg, m.world, m.pc, Answered, d);
      FinishStep(cfg, m.world, m.pc, d, next);
      FinishMakes(managed, cfg, w0, next, k, d, e);
    }
  }

  lemma EndHas(m: Machine, e: Entry)
    requires m.pc.Idle? && Makes(m.world, m.pc, e)
    ensures Has(m.world, e)
  {
  }

  lemma UnderwayMakes(managed: set<string>, cfg: Config, w0: State, m: Machine, k: Key, d: Draw, e: Entry)
    requires Underway(managed, cfg, w0, m, k, d) && !m.pc.Idle? && EntryOf(w0.regs[k], d, e) && Makes(m.world, m.pc, e)
    requires Underway(managed, cfg, w0, After(cfg, m.world, m.pc, Answered, d), k, d)
    ensures var m' := After(cfg, m.world, m.pc, Answered, d); Makes(m'.world, m'.pc, e)
  {
    hide Inv, Stage, Smooth, Fresh, After, Healthy, Makes, From, ByConsumer, SecretWithin;
    SameEntry(w0.regs[k], m.world.regs[k], d, e);
    CallMakes(managed, cfg, m, k, d, e);
  }

  lemma SameEntry(reg: Reg, reg': Reg, d: Draw, e: Entry)
    requires SameSpec(reg, reg') && EntryOf(reg, d, e)
    ensures EntryOf(reg', d, e)
  {
    hide Encode;
  }

  // The first reconcile of an OIDC or OAuth registration, every call answered: the Secret has the random bytes as
  // client secret, in base64url without padding, and CAS has its hash (a settled record has the hash of what is in the
  // Secret).
  lemma FreshSecretIsDrawn(managed: set<string>, cfg: Config, w: State, k: Key, d: Draw)
    requires WorldOk(managed, w) && k in w.regs && w.regs[k].deletedAt.None? && Healthy(w, w.regs[k])
    requires Fresh(w, Loading(k), d) && SecretKey(w.regs[k].spec.protocol).Some?
    requires ResolvedKey(w.regs[k]).Some? ==>
      var sk := ResolvedKey(w.regs[k]).value;
      sk in w.secrets ==> Lacks(w.secrets[sk].data, SecretKey(w.regs[k].spec.protocol).value)
    ensures ResolvedKey(w.regs[k]).Some?
    ensures var sk, key := ResolvedKey(w.regs[k]).value, SecretKey(w.regs[k].spec.protocol).value;
      var w' := Attempt(cfg, w, k, d).world;
      sk in w'.secrets && key in w'.secrets[sk].data && Decode(w'.secrets[sk].data[key]) == Some(d.bytes) &&
      Settled(cfg, w', k)
  {
    hide Healthy, Underway, Settled, Finish, Encode, Decode, ResolvedKey, RegsOk, ServicesOk, SecretsOk;
    StartsUnderway(managed, cfg, w, k, d);
    var e := Entry(ResolvedKey(w.regs[k]).value, SecretKey(w.regs[k].spec.protocol).value, Encode(d.bytes));
    var m := Machine(w, Loading(k));
    FinishMakes(managed, cfg, w, m, k, d, e);
    AttemptSettles(managed, cfg, w, m, k, d);
    RoundTrip(d.bytes);
  }
}
