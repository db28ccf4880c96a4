// A registration whose stores all hold what a reconcile would write: the state a successful reconcile leaves, and which
// the next one leaves as it is.
module FixedPoint {
  import opened Wrappers
  import opened GoStrings
  import opened Domain
  import opened Registry
  import opened Mapper
  import opened Cluster
  import opened World
  import opened Worker
  import opened Invariant
  import opened Steps
  import opened Attempts

  // The client secret a reconcile takes from this data; none for CAS.
  predicate Reuses(data: RegistrationData, protocol: Protocol, s: string) {
    match ClientSecret(data, protocol)
    case None => s == ""
    case Some(t) => t == s && s != ""
  }

  // The record CAS holds is the one a reconcile would send.
  predicate ServiceSettled(cfg: Config, w: State, reg: Reg, s: string) {
    w.fqdn.Some? &&
    var found := ByConsumer(w.services, reg.spec.consumer);
    |found| == 1 && BuildServicePayload(cfg, w.fqdn.value, FromAuthRegistration(reg), Some(found[0]), s) == found[0]
  }

  // The credentials that follow from that record.
  function DataFor(cfg: Config, w: State, reg: Reg, s: string): RegistrationData
    requires ServiceSettled(cfg, w, reg, s)
  {
    GetRegistrationData(BuildRegistrationResult(cfg, w.fqdn.value, FromAuthRegistration(reg),
                                                ByConsumer(w.services, reg.spec.consumer)[0], s))
  }

  // The Secret holds them, with type, label and owner.
  predicate SecretHolds(secret: Secret, reg: Reg, managed: bool, data: RegistrationData) {
    secret.stype == OPAQUE && NAME_LABEL in secret.labels && secret.labels[NAME_LABEL] == reg.name &&
    (forall key | key in data :: key in secret.data && secret.data[key] == data[key]) &&
    (managed ==> secret.controller == Some(OwnerFor(reg)))
  }

  predicate SecretSettled(cfg: Config, w: State, reg: Reg, name: string, managed: bool, s: string)
    requires ServiceSettled(cfg, w, reg, s)
  {
    var sk := Key(reg.namespace, name);
    sk in w.secrets && Reuses(w.secrets[sk].data, reg.spec.protocol, s) &&
    SecretHolds(w.secrets[sk], reg, managed, DataFor(cfg, w, reg, s))
  }

  // CAS and the Secret are as they should be.
  ghost predicate StoresSettled(cfg: Config, w: State, reg: Reg) {
    ResolveSecretName(reg).Ok? &&
    var (name, managed) := ResolveSecretName(reg).value;
    exists s :: ServiceSettled(cfg, w, reg, s) && SecretSettled(cfg, w, reg, name, managed, s)
  }

  predicate Ready(reg: Reg) {
    reg.deletedAt.None? && HasFinalizer(reg) && ValidateRegistration(FromAuthRegistration(reg)).None? &&
    ResolveSecretName(reg).Ok?
  }

  predicate SaysPublished(reg: Reg) {
    WithCondition(reg, PUBLISHED, true, "SecretReconciled", "Credentials Secret is ready") == reg.status
  }

  predicate SaysCompleted(reg: Reg) {
    WithCondition(reg, COMPLETED, true, "RegistrationSucceeded", "Service registration was reconciled successfully") ==
      reg.status
  }

  ghost predicate Settled(cfg: Config, w: State, k: Key) {
    k in w.regs && w.regs[k].Id() == k && Trimmed(w.regs[k].name) && Ready(w.regs[k]) &&
    StoresSettled(cfg, w, w.regs[k]) &&
    w.regs[k].status.resolvedSecretRef == ResolveSecretName(w.regs[k]).value.0 &&
    SaysPublished(w.regs[k]) && SaysCompleted(w.regs[k])
  }

  // ---- The next reconcile changes nothing ----

  lemma MergeHeld(secret: Secret, reg: Reg, name: string, managed: bool, result: RegistrationResult)
    requires SecretHolds(secret, reg, managed, GetRegistrationData(result))
    ensures Merge(secret, BuildDesiredSecret(result, reg, name)) == secret
    ensures managed ==> SetControllerReference(reg, secret) == Ok(secret)
  {
    hide GetRegistrationData;
    var desired := BuildDesiredSecret(result, reg, name);
    assert secret.labels + desired.labels == secret.labels;
    assert secret.annotations + desired.annotations == secret.annotations;
    assert secret.data + desired.data == secret.data;
  }

  lemma SecretReadSettled(cfg: Config, w: State, job: Job, s: string)
    requires ServiceSettled(cfg, w, job.obj, s) && SecretSettled(cfg, w, job.obj, job.name, job.managed, s)
    requires job.prev == job.name && SaysPublished(job.obj) && SaysCompleted(job.obj)
    requires Trimmed(job.name)
    ensures var result := BuildRegistrationResult(cfg, w.fqdn.value, job.Wanted(),
            ByConsumer(w.services, job.obj.spec.consumer)[0], s);
            SecretRead(job, result, w.secrets[job.Target()]) == Idle(None)
  {
    hide BuildRegistrationResult, GetRegistrationData, BuildDesiredSecret, Merge, SetControllerReference,
         BuildServicePayload;
    var result := BuildRegistrationResult(cfg, w.fqdn.value, job.Wanted(),
      ByConsumer(w.services, job.obj.spec.consumer)[0], s);
    MergeHeld(w.secrets[job.Target()], job.obj, job.name, job.managed, result);
  }

  lemma StoredIn(cfg: Config, w: State, reg: Reg, s: string)
    requires ServiceSettled(cfg, w, reg, s)
    ensures |ByConsumer(w.services, reg.spec.consumer)| == 1 &&
            ByConsumer(w.services, reg.spec.consumer)[0] in w.services
  {
    hide BuildServicePayload, ByConsumer;
    ByConsumerIn(w.services, reg.spec.consumer);
    assert ByConsumer(w.services, reg.spec.consumer)[0] in ByConsumer(w.services, reg.spec.consumer);
  }

  lemma ListedSettled(cfg: Config, w: State, job: Job, s: string)
    requires ServiceSettled(cfg, w, job.obj, s) && SecretSettled(cfg, w, job.obj, job.name, job.managed, s)
    ensures Listed(job, w.secrets[job.Target()].data, w.services) ==
            ReadingFqdn(job, Some(ByConsumer(w.services, job.obj.spec.consumer)[0]), s)
  {
    hide BuildServicePayload, SecretHolds;
  }

  // After the service is written.
  lemma ResultSettled(cfg: Config, w: State, job: Job, s: string, d: Draw)
    requires ServiceSettled(cfg, w, job.obj, s) && SecretSettled(cfg, w, job.obj, job.name, job.managed, s)
    requires job.prev == job.name == job.obj.status.resolvedSecretRef && Trimmed(job.name)
    requires SaysPublished(job.obj) && SaysCompleted(job.obj)
    ensures Rests(cfg, w, ReadingFqdnAgain(job, ByConsumer(w.services, job.obj.spec.consumer)[0], s), d,
            [GetFqdn, GetSecret(job.Target())])
  {
    hide After, Finish, Calls, Woken, SecretRead, BuildServicePayload, BuildRegistrationResult, SecretSettled,
         ByConsumer, SaysPublished, SaysCompleted;
    var stored := ByConsumer(w.services, job.obj.spec.consumer)[0];
    var result := BuildRegistrationResult(cfg, w.fqdn.value, job.Wanted(), stored, s);
    SecretReadSettled(cfg, w, job, s);
    SecretSettledIn(cfg, w, job, s);
    FinishIdle(cfg, Machine(w, Idle(None)), d);
    AtReadingSecret(cfg, w, ReadingSecret(job, result), Answered, d);
    RestsBefore(cfg, w, ReadingSecret(job, result), Idle(None), d, [GetSecret(job.Target())], []);
    AtReadingFqdnAgain(cfg, w, ReadingFqdnAgain(job, stored, s), Answered, d);
    RestsBefore(cfg, w, ReadingFqdnAgain(job, stored, s), ReadingSecret(job, result), d,
                [GetFqdn, GetSecret(job.Target())], [GetSecret(job.Target())]);
  }

  // From the write on, which stores the record again.
  lemma StoreSettled(cfg: Config, w: State, job: Job, s: string, d: Draw)
    requires Valid(w.services) && ServiceSettled(cfg, w, job.obj, s) &&
             SecretSettled(cfg, w, job.obj, job.name, job.managed, s)
    requires job.prev == job.name == job.obj.status.resolvedSecretRef && Trimmed(job.name)
    requires SaysPublished(job.obj) && SaysCompleted(job.obj)
    ensures var stored := ByConsumer(w.services, job.obj.spec.consumer)[0];
      stored in w.services &&
      Rests(cfg, w, Writing(job, stored, false, s), d, [UpdateService(stored), GetFqdn, GetSecret(job.Target())])
  {
    hide After, Rests, BuildServicePayload, SecretSettled, ByConsumer, SaysPublished, SaysCompleted, Replace,
         ServiceSettled;
    StoredIn(cfg, w, job.obj, s);
    var stored := ByConsumer(w.services, job.obj.spec.consumer)[0];
    ReplaceSame(w.services, stored);
    ResultSettled(cfg, w, job, s, d);
    AtWriting(cfg, w, Writing(job, stored, false, s), Answered, d);
    RestsBefore(cfg, w, Writing(job, stored, false, s), ReadingFqdnAgain(job, stored, s), d,
                [UpdateService(stored), GetFqdn, GetSecret(job.Target())], [GetFqdn, GetSecret(job.Target())]);
  }

  // From the first read of the fqdn on.
  lemma WriteSettled(cfg: Config, w: State, job: Job, s: string, d: Draw)
    requires Valid(w.services) && ServiceSettled(cfg, w, job.obj, s) &&
             SecretSettled(cfg, w, job.obj, job.name, job.managed, s)
    requires job.prev == job.name == job.obj.status.resolvedSecretRef && Trimmed(job.name)
    requires SaysPublished(job.obj) && SaysCompleted(job.obj)
    ensures var stored := ByConsumer(w.services, job.obj.spec.consumer)[0];
      stored in w.services &&
      Rests(cfg, w, ReadingFqdn(job, Some(stored), s), d,
        [GetFqdn, UpdateService(stored), GetFqdn, GetSecret(job.Target())])
  {
    hide After, Rests, BuildServicePayload, SecretSettled, ByConsumer, SaysPublished, SaysCompleted, Valid;
    var stored := ByConsumer(w.services, job.obj.spec.consumer)[0];
    StoreSettled(cfg, w, job, s, d);
    AtReadingFqdn(cfg, w, ReadingFqdn(job, Some(stored), s), Answered, d);
    RestsBefore(cfg, w, ReadingFqdn(job, Some(stored), s), Writing(job, stored, false, s), d,
                [GetFqdn, UpdateService(stored), GetFqdn, GetSecret(job.Target())],
                [UpdateService(stored), GetFqdn, GetSecret(job.Target())]);
  }

  lemma SecretSettledIn(cfg: Config, w: State, job: Job, s: string)
    requires ServiceSettled(cfg, w, job.obj, s) && SecretSettled(cfg, w, job.obj, job.name, job.managed, s)
    ensures job.Target() in w.secrets
  {
  }

  // On a settled registration a reconcile makes seven calls. Six of them read; the one write sends CAS the record it
  // holds already. No Secret is written, no status patched, both stores are afterwards as they were, and no further
  // reconcile is asked for.
  lemma SettledIsFixedPoint(cfg: Config, w: State, k: Key, d: Draw)
    requires Valid(w.services) && Settled(cfg, w, k)
    ensures var stored := ByConsumer(w.services, w.regs[k].spec.consumer); var sk := ResolvedKey(w.regs[k]);
      |stored| == 1 && stored[0] in w.services && sk.Some? &&
      Rests(cfg, w, Loading(k), d,
        [GetReg(k), GetSecret(sk.value), ListServices, GetFqdn, UpdateService(stored[0]), GetFqdn, GetSecret(sk.value)])
  {
    hide After, Rests, Listed, SecretSettled, ServiceSettled, ByConsumer, SaysPublished, SaysCompleted,
         ValidateRegistration;
    var reg := w.regs[k];
    var (name, managed) := ResolveSecretName(reg).value;
    var s :| ServiceSettled(cfg, w, reg, s) && SecretSettled(cfg, w, reg, name, managed, s);
    var job := Job(reg, name, managed, name);
    NameTrimmed(reg);
    SecretSettledIn(cfg, w, job, s);
    StoredIn(cfg, w, reg, s);
    ListedSettled(cfg, w, job, s);
    WriteSettled(cfg, w, job, s, d);
    var data := w.secrets[job.Target()].data;
    var stored := ByConsumer(w.services, reg.spec.consumer)[0];
    var calls := [GetReg(k), GetSecret(job.Target()), ListServices, GetFqdn, UpdateService(stored), GetFqdn,
      GetSecret(job.Target())];
    assert calls[3..] == [GetFqdn, UpdateService(stored), GetFqdn, GetSecret(job.Target())];
    AtListing(cfg, w, Listing(job, data), Answered, d);
    RestsBefore(cfg, w, Listing(job, data), ReadingFqdn(job, Some(stored), s), d, calls[2..], calls[3..]);
    AtReadingData(cfg, w, ReadingData(job), Answered, d);
    RestsBefore(cfg, w, ReadingData(job), Listing(job, data), d, calls[1..], calls[2..]);
    AtLoading(cfg, w, Loading(k), Answered, d);
    RestsBefore(cfg, w, Loading(k), ReadingData(job), d, calls, calls[1..]);
  }

}
