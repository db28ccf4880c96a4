// Writes the credentials Secret: created if it is missing, else merged in place and updated if that changed it.
module SecretReconciler {
  import opened Wrappers
  import opened Domain
  import opened Mapper
  import opened Cluster
  import opened World
  import opened Worker
  import opened Client
  import opened Objects

  // Where the calls of the Secret step lead.
  lemma AfterReading(cfg: Config, job: Job, result: RegistrationResult)
    ensures forall r {:trigger Resume(cfg, ReadingSecret(job, result), r)} ::
      Resume(cfg, ReadingSecret(job, result), r) ==
        if r.SecretAnswer? then SecretRead(job, result, r.secret)
        else if r.NotFound? then
          CreatingSecret(job,
            Cluster.BuildDesiredSecret(result, job.obj, job.name).(controller := Some(OwnerFor(job.obj))))
        else SecretFailed(job.obj, Error(r))
  {
    hide SecretRead, SecretFailed;
  }

  lemma AfterWriting(cfg: Config, pc: Pc)
    requires pc.CreatingSecret? || pc.UpdatingSecret?
    ensures forall r {:trigger Resume(cfg, pc, r)} ::
      Resume(cfg, pc, r) == if r.Done? then CleanUp(pc.job) else SecretFailed(pc.job.obj, Error(r))
  {
    hide CleanUp, SecretFailed;
  }

  class SecretReconciler {
    const client: Client

    constructor (client: Client)
      ensures this.client == client
    {
      this.client := client;
    }

    static method BuildDesiredSecret(result: RegistrationResult, reg: AuthRegistration,
            name: string) returns (secret: SecretObject)
      ensures fresh(secret) && secret.Value() == Cluster.BuildDesiredSecret(result, reg.Value(), name)
    {
      hide GetRegistrationData;
      secret := new SecretObject(Secret(reg.namespace, name, OPAQUE, map[NAME_LABEL := reg.name], map[], map[], None));
      secret.data := secret.data + GetRegistrationData(result);
      assert map[] + GetRegistrationData(result) == GetRegistrationData(result);
    }

    // Type, labels, annotations and data of the desired Secret are copied over those of the current one.
    static method Overlay(current: SecretObject, desired: SecretObject)
      requires current != desired
      modifies current
      ensures current.Value() == Merge(old(current.Value()), desired.Value())
    {
      current.stype := desired.stype;
      current.labels := current.labels + desired.labels;
      current.annotations := current.annotations + desired.annotations;
      current.data := current.data + desired.data;
    }

    method Reconcile(result: RegistrationResult, reg: AuthRegistration, name: string, managed: bool, ghost job: Job)
      returns (error: Option<string>)
      requires job.obj == reg.Value() && job.name == name && job.managed == managed &&
               client.At(ReadingSecret(job, result))
      modifies client
      ensures client.At(if error.None? then CleanUp(job) else SecretFailed(job.obj, error.value))
    {
      hide CleanUp, SecretFailed, GetRegistrationData, Merge, Resume, LegalRun, Run;
      AfterReading(client.cfg, job, result);
      var desired := BuildDesiredSecret(result, reg, name);
      var r := client.Call(GetSecret(Key(reg.namespace, name)), ReadingSecret(job, result));
      if r.NotFound? {
        // Nothing controls a Secret that is only being made.
        var none := desired.SetControllerReference(reg);
        AfterWriting(client.cfg, CreatingSecret(job, desired.Value()));
        r := client.Call(CreateSecret(desired.Value()), CreatingSecret(job, desired.Value()));
        return if r.Done? then None else Some(Error(r));
      }
      if !r.SecretAnswer? {
        return Some(Error(r));
      }
      var current := new SecretObject(r.secret);
      var before := current.Value();
      Overlay(current, desired);
      if managed {
        error := current.SetControllerReference(reg);
        if error.Some? {
          return;
        }
      }
      if before == current.Value() {
        return None;
      }
      AfterWriting(client.cfg, UpdatingSecret(job, before, current.Value()));
      r := client.Call(UpdateSecret(before, current.Value()), UpdatingSecret(job, before, current.Value()));
      error := if r.Done? then None else Some(Error(r));
    }
  }
}
