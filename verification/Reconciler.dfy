// The reconcile of one registration, and its deletion, in the order in which the code makes its calls.
//
// Each method starts where the machine of module Worker is at its first call and ends where the machine is after its
// last one. So every run of the code is a run of the machine, and what is proved of those holds of it.
module Reconciler {
  import opened Wrappers
  import opened GoStrings
  import opened Domain
  import opened Mapper
  import opened Cluster
  import opened World
  import opened Worker
  import opened Client
  import opened Objects
  import opened StatusPatcher
  import opened SecretReconciler
  import opened CasBackend

  lemma AfterReadingData(cfg: Config, job: Job, r: Response)
    ensures Resume(cfg, ReadingData(job), r) ==
      if r.SecretAnswer? then BeginUpsert(job, r.secret.data)
      else if r.NotFound? then BeginUpsert(job, map[])
      else Idle(Some(Error(r)))
  {
    hide BeginUpsert;
  }

  lemma AfterPrevious(cfg: Config, job: Job, r: Response)
    ensures Resume(cfg, ReadingPrevious(job), r) ==
      if r.SecretAnswer? then
        (if IsControlledBy(r.secret, job.obj) then DeletingPrevious(job, r.secret) else Publish(job.obj))
      else if r.NotFound? then Publish(job.obj) else Idle(Some(Error(r)))
  {
    hide Publish;
  }

  lemma AfterDeletingPrevious(cfg: Config, job: Job, seen: Secret, r: Response)
    ensures Resume(cfg, DeletingPrevious(job, seen), r) ==
      if r.Done? || r.NotFound? then Publish(job.obj) else Idle(Some(Error(r)))
  {
    hide Publish;
  }

  lemma AfterUnfinalizing(cfg: Config, obj: Reg, r: Response)
    ensures Resume(cfg, Unfinalizing(obj), r) == Idle(if r.RegAnswer? then None else Some(Error(r)))
  {
  }

  class Reconciler {
    const client: Client
    const secrets: SecretReconciler
    const statuses: StatusPatcher
    const backend: CasBackend

    constructor (client: Client)
      ensures this.client == client && Wired()
    {
      this.client := client;
      secrets := new SecretReconciler(client);
      statuses := new StatusPatcher(client);
      backend := new CasBackend(client);
    }

    predicate Wired() {
      secrets.client == client && statuses.client == client && backend.client == client &&
      backend.mapper.client == client
    }

    method HandleReconcile(reg: AuthRegistration) returns (error: Option<string>)
      requires Wired() && client.At(Begin(reg.Value()))
      modifies client, reg
      ensures client.At(Idle(error))
    {
      hide LegalRun, Run, InvalidSpec, BeginUpsert, Upserted, RegistrationFailed, ResolveSecretName;
      var resolved := ResolveSecretName(reg.Value());
      if resolved.Err? {
        var _ := statuses.PatchInvalidSpec(reg, resolved.error);
        return Some(resolved.error);
      }
      var (name, managed) := resolved.value;
      ghost var job := Job(reg.Value(), name, managed, reg.resolvedSecretRef);
      var previous := reg.resolvedSecretRef;
      var data := ReadRegistrationData(reg.namespace, name, job);
      if data.Err? {
        return Some(data.error);
      }
      var result := backend.Upsert(FromAuthRegistration(reg.Value()), data.value, job);
      if result.Err? {
        var _ := statuses.PatchRegistrationFailed(reg, result.error);
        return Some(result.error);
      }
      error := Publicize(reg, name, managed, previous, result.value, job);
    }

    // From the registered service to the published credentials.
    method Publicize(reg: AuthRegistration, name: string, managed: bool, previous: string, result: RegistrationResult,
            ghost job: Job)
      returns (error: Option<string>)
      requires Wired() && job == Job(reg.Value(), name, managed, previous) && client.At(Upserted(job, result))
      modifies client, reg
      ensures client.At(Idle(error))
    {
      hide LegalRun, Run, SecretFailed, CleanUp, Succeed, Publish;
      error := statuses.PatchResolvedSecretRef(reg, name, ResolvedRef(job, result));
      if error.Some? {
        return;
      }
      ghost var moved := job.(obj := reg.Value());
      error := secrets.Reconcile(result, reg, name, managed, moved);
      if error.Some? {
        var _ := statuses.PatchSecretReconcileFailed(reg, error.value);
        return;
      }
      error := CleanupObsoleteGeneratedSecret(reg, previous, name, moved);
      if error.Some? {
        return;
      }
      error := statuses.PatchCredentialsPublished(reg);
      if error.Some? {
        return;
      }
      error := statuses.PatchRegistrationSucceeded(reg);
    }

    method ReadRegistrationData(namespace: string, name: string, ghost job: Job)
        returns (data: Result<RegistrationData>)
      requires job.Target() == Key(namespace, name) && client.At(ReadingData(job))
      modifies client
      ensures client.At(if data.Ok? then BeginUpsert(job, data.value) else Idle(Some(data.error)))
    {
      hide LegalRun, Run, Resume, BeginUpsert;
      var r := client.Call(GetSecret(Key(namespace, name)), ReadingData(job));
      AfterReadingData(client.cfg, job, r);
      if r.NotFound? {
        return Ok(map[]);
      }
      if !r.SecretAnswer? {
        return Err(Error(r));
      }
      var copied: RegistrationData := map[];
      var keys := r.secret.data.Keys;
      while keys != {}
        invariant keys <= r.secret.data.Keys
        invariant copied == map key | key in r.secret.data && key !in keys :: r.secret.data[key]
        decreases keys
      {
        var key :| key in keys;
        keys := keys - {key};
        copied := copied[key := r.secret.data[key]];
      }
      assert copied == r.secret.data;
      data := Ok(copied);
    }

    method CleanupObsoleteGeneratedSecret(reg: AuthRegistration, previous: string, name: string,
            ghost job: Job) returns (error: Option<string>)
      requires job.obj == reg.Value() && job.prev == previous && job.name == name && client.At(CleanUp(job))
      modifies client
      ensures client.At(if error.None? then Publish(job.obj) else Idle(error))
    {
      hide LegalRun, Run, Resume, Publish, TrimSpace;
      var trimmed := TrimSpace(previous);
      if trimmed == "" || trimmed == name {
        return None;
      }
      var r := client.Call(GetSecret(Key(reg.namespace, trimmed)), ReadingPrevious(job));
      AfterPrevious(client.cfg, job, r);
      if r.NotFound? {
        return None;
      }
      if !r.SecretAnswer? {
        return Some(Error(r));
      }
      if !IsControlledBy(r.secret, reg.Value()) {
        return None;
      }
      ghost var pc := DeletingPrevious(job, r.secret);
      ghost var seen := r.secret;
      r := client.Call(DeleteSecret(Key(reg.namespace, trimmed)), pc);
      AfterDeletingPrevious(client.cfg, job, seen, r);
      error := if r.Done? || r.NotFound? then None else Some(Error(r));
    }

    method HandleDeletion(reg: AuthRegistration) returns (error: Option<string>)
      requires Wired() && client.At(BeginDeletion(reg.Value()))
      modifies client, reg
      ensures client.At(Idle(error))
    {
      hide LegalRun, Run, Resume;
      if FINALIZER !in reg.finalizers {
        return None;
      }
      error := backend.Delete(FromAuthRegistration(reg.Value()), reg.Value());
      if error.Some? {
        return;
      }
      var base := reg.Value();
      reg.RemoveFinalizer();
      var r := client.Call(UpdateReg(base, reg.Value()), Unfinalizing(base));
      AfterUnfinalizing(client.cfg, base, r);
      error := if r.RegAnswer? then None else Some(Error(r));
    }
  }
}
