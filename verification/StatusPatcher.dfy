// Status updates: the object in memory is changed, and the difference sent only if there is one.
module StatusPatcher {
  import opened Wrappers
  import opened Cluster
  import opened World
  import opened Worker
  import opened Client
  import opened Objects

  class StatusPatcher {
    const client: Client

    constructor (client: Client)
      ensures this.client == client
    {
      this.client := client;
    }

    // patchStatus. Where nothing changes the code is already where an answered patch would have taken it.
    method PatchStatus(reg: AuthRegistration, mutate: Status -> Status, ghost next: Then)
        returns (error: Option<string>)
      requires client.At(Patch(reg.Value(), mutate(reg.Value().status), next, AfterPatch(reg.Value(), next)))
      modifies client, reg
      ensures error.None? ==> client.At(AfterPatch(reg.Value(), next))
      ensures error.Some? ==> client.At(AfterFailedPatch(next, error.value))
    {
      hide AfterPatch;
      var before := reg.Value();
      reg.SetStatus(mutate(before.status));
      if before.status == reg.Value().status {
        return None;
      }
      var r := client.Call(Request.PatchStatus(before, reg.Value()), Patching(before, reg.Value(), next));
      if !r.RegAnswer? {
        return Some(Error(r));
      }
      reg.Load(r.reg);
      error := None;
    }

    method PatchResolvedSecretRef(reg: AuthRegistration, name: string, ghost next: Then) returns (error: Option<string>)
      requires client.At(Patch(reg.Value(), WithRef(reg.Value(), name), next, AfterPatch(reg.Value(), next)))
      modifies client, reg
      ensures error.None? ==> client.At(AfterPatch(reg.Value(), next))
      ensures error.Some? ==> client.At(AfterFailedPatch(next, error.value))
    {
      hide AfterPatch;
      error := PatchStatus(reg, (status: Status) => status.(resolvedSecretRef := name), next);
    }

    // patchCondition: the condition is stamped with the generation of the object in memory.
    method PatchCondition(reg: AuthRegistration, ctype: string, isTrue: bool, reason: string, message: string,
        ghost next: Then)
      returns (error: Option<string>)
      requires ctype != "" ==>
        client.At(Patch(reg.Value(), WithCondition(reg.Value(), ctype, isTrue, reason, message), next,
          AfterPatch(reg.Value(), next)))
      modifies client, reg
      ensures ctype == "" ==>
        error == Some("condition type must not be empty") && client.world == old(client.world) &&
        reg.Value() == old(reg.Value())
      ensures ctype != "" && error.None? ==> client.At(AfterPatch(reg.Value(), next))
      ensures ctype != "" && error.Some? ==> client.At(AfterFailedPatch(next, error.value))
    {
      hide AfterPatch, SetStatusCondition;
      if ctype == "" {
        return Some("condition type must not be empty");
      }
      var condition := Condition(ctype, isTrue, reason, message, reg.generation);
      error := PatchStatus(reg,
        (status: Status) => status.(conditions := SetStatusCondition(status.conditions, condition)), next);
    }

    method PatchInvalidSpec(reg: AuthRegistration, invalid: string) returns (error: Option<string>)
      requires client.At(InvalidSpec(reg.Value(), invalid))
      modifies client, reg
      ensures client.At(Idle(Some(invalid)))
    {
      hide Patch, WithRef, WithCondition;
      error := PatchResolvedSecretRef(reg, "", ClearedRef(invalid));
      if error.Some? {
        return;
      }
      error := PatchCondition(reg, PUBLISHED, false, "InvalidSpec", invalid, InvalidPublished(invalid));
      if error.Some? {
        return;
      }
      error := PatchCondition(reg, COMPLETED, false, "InvalidSpec",
                              "Registration is blocked because the resource specification is invalid", GiveUp(invalid));
    }

    method PatchSecretReconcileFailed(reg: AuthRegistration, failure: string) returns (error: Option<string>)
      requires client.At(SecretFailed(reg.Value(), failure))
      modifies client, reg
      ensures client.At(Idle(Some(failure)))
    {
      hide Patch, WithCondition;
      error := PatchCondition(reg, PUBLISHED, false, "SecretReconcileFailed", failure, SecretUnpublished(failure));
      if error.Some? {
        return;
      }
      error := PatchCondition(reg, COMPLETED, false, "Blocked",
                              "Registration is blocked until Secret reconciliation succeeds", GiveUp(failure));
    }

    method PatchRegistrationFailed(reg: AuthRegistration, failure: string) returns (error: Option<string>)
      requires client.At(RegistrationFailed(reg.Value(), failure))
      modifies client, reg
      ensures client.At(Idle(Some(failure)))
    {
      hide Patch, WithCondition;
      error := PatchCondition(reg, COMPLETED, false, "RegistrationFailed", failure, GiveUp(failure));
    }

    method PatchCredentialsPublished(reg: AuthRegistration) returns (error: Option<string>)
      requires client.At(Publish(reg.Value()))
      modifies client, reg
      ensures client.At(if error.None? then Succeed(reg.Value()) else Idle(error))
    {
      hide Patch, WithCondition, Succeed;
      error := PatchCondition(reg, PUBLISHED, true, "SecretReconciled", "Credentials Secret is ready", Published);
    }

    method PatchRegistrationSucceeded(reg: AuthRegistration) returns (error: Option<string>)
      requires client.At(Succeed(reg.Value()))
      modifies client, reg
      ensures client.At(Idle(error))
    {
      hide Patch, WithCondition;
      error := PatchCondition(reg, COMPLETED, true, "RegistrationSucceeded",
        "Service registration was reconciled successfully", Succeeded);
    }
  }
}
