// What a reconcile that fails says in the status of its registration.
module Reports {
  import opened Wrappers
  import opened Registry
  import opened Mapper
  import opened Cluster
  import opened World
  import opened Worker
  import opened Invariant
  import opened Steps
  import opened Attempts
  import opened FixedPoint
  import opened Success

  // The condition is there, for the generation of the object, and none of its type is true.
  predicate Denied(reg: Reg, ctype: string, reason: string, message: string) {
    Condition(ctype, false, reason, message, reg.generation) in reg.status.conditions &&
    forall c | c in reg.status.conditions && c.ctype == ctype :: !c.isTrue
  }

  // Nothing but the status of the registration is different.
  predicate OnlyStatus(w: State, w': State, k: Key)
    requires k in w.regs
  {
    k in w'.regs && w' == w.(regs := w.regs[k := w.regs[k].(status := w'.regs[k].status)])
  }

  // ---- One patch ----

  // The answered patch, or the patch that is not needed: the code goes on with an object of this status.
  lemma PatchGoesOn(cfg: Config, w: State, k: Key, obj: Reg, status: Status, next: Then, d: Draw) returns (obj': Reg)
    requires Exact(w, k, obj) && ConditionsOk(status.conditions, obj.generation)
    ensures obj'.status == status && obj'.generation == obj.generation
    ensures var w' := w.(regs := w.regs[k := w.regs[k].(status := status)]);
      Exact(w', k, obj') &&
      Finish(cfg, Machine(w, Patch(obj, status, next, AfterPatch(obj, next))), d) ==
      Finish(cfg, Machine(w', AfterPatch(obj', next)), d)
  {
    hide After, Finish, AfterPatch, Calls, Woken, ConditionsOk;
    var w' := w.(regs := w.regs[k := w.regs[k].(status := status)]);
    if status == obj.status {
      assert w.regs[k].(status := status) == w.regs[k];
      assert w.regs[k := w.regs[k]] == w.regs;
      obj' := obj;
    } else {
      var pc := Patching(obj, obj.(status := status), next);
      obj' := w.regs[k].(status := status);
      AtPatching(cfg, w, pc, Answered, d);
      FinishStep(cfg, w, pc, d, Machine(w', AfterPatch(obj', next)));
    }
  }

  lemma DeniedSet(obj: Reg, ctype: string, reason: string, message: string)
    requires ConditionsOk(obj.status.conditions, obj.generation)
    ensures var status := WithCondition(obj, ctype, false, reason, message);
      ConditionsOk(status.conditions, obj.generation) && status.resolvedSecretRef == obj.status.resolvedSecretRef
    ensures forall reg: Reg ::
      reg.status == WithCondition(obj, ctype, false, reason, message) && reg.generation == obj.generation ==>
        Denied(reg, ctype, reason, message) &&
        forall t, r, m | t != ctype && Denied(obj, t, r, m) :: Denied(reg, t, r, m)
  {
    var c := Condition(ctype, false, reason, message, obj.generation);
    SetConditionOk(obj.status.conditions, c, obj.generation);
    var i := SetConditionSays(obj.status.conditions, c);
    var after := SetStatusCondition(obj.status.conditions, c);
    assert after[i] == c;
    forall x | x in obj.status.conditions && x.ctype != ctype
      ensures x in after
    {
      var j :| 0 <= j < |obj.status.conditions| && obj.status.conditions[j] == x;
      assert after[j] == x;
    }
  }

  // ---- The three reports ----

  lemma RegistrationFailedEnds(cfg: Config, w: State, k: Key, obj: Reg, error: string, d: Draw)
    requires Exact(w, k, obj)
    ensures var m' := Finish(cfg, Machine(w, RegistrationFailed(obj, error)), d);
      m'.pc == Idle(Some(error)) && OnlyStatus(w, m'.world, k) &&
      m'.world.regs[k].status.resolvedSecretRef == w.regs[k].status.resolvedSecretRef &&
      Denied(m'.world.regs[k], "Completed", "RegistrationFailed", error)
  {
    hide Finish, WithCondition, ConditionsOk, Denied;
    DeniedSet(obj, COMPLETED, "RegistrationFailed", error);
    var status := WithCondition(obj, COMPLETED, false, "RegistrationFailed", error);
    var obj' := PatchGoesOn(cfg, w, k, obj, status, GiveUp(error), d);
    FinishIdle(cfg, Machine(w.(regs := w.regs[k := w.regs[k].(status := status)]), Idle(Some(error))), d);
  }

  lemma BlockEnds(cfg: Config, w: State, k: Key, obj: Reg, error: string, d: Draw)
    requires Exact(w, k, obj)
    ensures var m' := Finish(cfg, Machine(w, Block(obj, error)), d);
      m'.pc == Idle(Some(error)) && OnlyStatus(w, m'.world, k) &&
      m'.world.regs[k].status.resolvedSecretRef == w.regs[k].status.resolvedSecretRef &&
      Denied(m'.world.regs[k], "Completed", "Blocked",
        "Registration is blocked until Secret reconciliation succeeds") &&
      forall r, m :: Denied(obj, "CredentialsPublished", r, m) ==>
        Denied(m'.world.regs[k], "CredentialsPublished", r, m)
  {
    hide Finish, WithCondition, ConditionsOk, Denied;
    var message := "Registration is blocked until Secret reconciliation succeeds";
    DeniedSet(obj, COMPLETED, "Blocked", message);
    assert |PUBLISHED| == 20 && |COMPLETED| == 9;
    var status := WithCondition(obj, COMPLETED, false, "Blocked", message);
    var obj' := PatchGoesOn(cfg, w, k, obj, status, GiveUp(error), d);
    FinishIdle(cfg, Machine(w.(regs := w.regs[k := w.regs[k].(status := status)]), Idle(Some(error))), d);
  }

  // A failed Secret step: no credentials, and the registration is blocked.
  lemma SecretFailedEnds(cfg: Config, w: State, k: Key, obj: Reg, error: string, d: Draw)
    requires Exact(w, k, obj)
    ensures var m' := Finish(cfg, Machine(w, SecretFailed(obj, error)), d);
      m'.pc == Idle(Some(error)) && OnlyStatus(w, m'.world, k) &&
      m'.world.regs[k].status.resolvedSecretRef == w.regs[k].status.resolvedSecretRef &&
      Denied(m'.world.regs[k], "CredentialsPublished", "SecretReconcileFailed", error) &&
      Denied(m'.world.regs[k], "Completed", "Blocked", "Registration is blocked until Secret reconciliation succeeds")
  {
    hide Finish, WithCondition, ConditionsOk, Denied, Block;
    DeniedSet(obj, PUBLISHED, "SecretReconcileFailed", error);
    var status := WithCondition(obj, PUBLISHED, false, "SecretReconcileFailed", error);
    var obj' := PatchGoesOn(cfg, w, k, obj, status, SecretUnpublished(error), d);
    BlockEnds(cfg, w.(regs := w.regs[k := w.regs[k].(status := status)]), k, obj', error, d);
  }

  // A blank Secret name: the pointer is cleared, and both conditions say so.
  lemma InvalidSpecEnds(cfg: Config, w: State, k: Key, obj: Reg, error: string, d: Draw)
    requires Exact(w, k, obj)
    ensures var m' := Finish(cfg, Machine(w, InvalidSpec(obj, error)), d);
      m'.pc == Idle(Some(error)) && OnlyStatus(w, m'.world, k) && m'.world.regs[k].status.resolvedSecretRef == "" &&
      Denied(m'.world.regs[k], "CredentialsPublished", "InvalidSpec", error) &&
      Denied(m'.world.regs[k], "Completed", "InvalidSpec",
        "Registration is blocked because the resource specification is invalid")
  {
    hide Finish, WithCondition, ConditionsOk, Denied, InvalidPublishedPc;
    var status := WithRef(obj, "");
    var obj' := PatchGoesOn(cfg, w, k, obj, status, ClearedRef(error), d);
    InvalidPublishedEnds(cfg, w.(regs := w.regs[k := w.regs[k].(status := status)]), k, obj', error, d);
  }

  lemma InvalidPublishedEnds(cfg: Config, w: State, k: Key, obj: Reg, error: string, d: Draw)
    requires Exact(w, k, obj)
    ensures var m' := Finish(cfg, Machine(w, InvalidPublishedPc(obj, error)), d);
      m'.pc == Idle(Some(error)) && OnlyStatus(w, m'.world, k) &&
      m'.world.regs[k].status.resolvedSecretRef == w.regs[k].status.resolvedSecretRef &&
      Denied(m'.world.regs[k], "CredentialsPublished", "InvalidSpec", error) &&
      Denied(m'.world.regs[k], "Completed", "InvalidSpec",
        "Registration is blocked because the resource specification is invalid")
  {
    hide Finish, WithCondition, ConditionsOk, Denied, InvalidCompletedPc;
    DeniedSet(obj, PUBLISHED, "InvalidSpec", error);
    var status := WithCondition(obj, PUBLISHED, false, "InvalidSpec", error);
    var obj' := PatchGoesOn(cfg, w, k, obj, status, InvalidPublished(error), d);
    InvalidCompletedEnds(cfg, w.(regs := w.regs[k := w.regs[k].(status := status)]), k, obj', error, d);
  }

  lemma InvalidCompletedEnds(cfg: Config, w: State, k: Key, obj: Reg, error: string, d: Draw)
    requires Exact(w, k, obj)
    ensures var m' := Finish(cfg, Machine(w, InvalidCompletedPc(obj, error)), d);
      m'.pc == Idle(Some(error)) && OnlyStatus(w, m'.world, k) &&
      m'.world.regs[k].status.resolvedSecretRef == w.regs[k].status.resolvedSecretRef &&
      Denied(m'.world.regs[k], "Completed", "InvalidSpec",
        "Registration is blocked because the resource specification is invalid") &&
      forall r, m :: Denied(obj, "CredentialsPublished", r, m) ==>
        Denied(m'.world.regs[k], "CredentialsPublished", r, m)
  {
    hide Finish, WithCondition, ConditionsOk, Denied;
    var message := "Registration is blocked because the resource specification is invalid";
    DeniedSet(obj, COMPLETED, "InvalidSpec", message);
    assert |PUBLISHED| == 20 && |COMPLETED| == 9;
    var status := WithCondition(obj, COMPLETED, false, "InvalidSpec", message);
    var obj' := PatchGoesOn(cfg, w, k, obj, status, GiveUp(error), d);
    FinishIdle(cfg, Machine(w.(regs := w.regs[k := w.regs[k].(status := status)]), Idle(Some(error))), d);
  }

  // ---- Calls that fail ----

  predicate AtService(pc: Pc) {
    pc.Listing? || pc.Generating? || pc.ReadingFqdn? || pc.Writing? || pc.ReadingFqdnAgain?
  }

  predicate AtSecret(pc: Pc) {
    pc.ReadingSecret? || pc.CreatingSecret? || pc.UpdatingSecret?
  }

  // The answer to such a call is its error.
  lemma FailedCall(cfg: Config, w: State, pc: Pc, o: Outcome, d: Draw)
    requires !pc.Idle? && !o.Answered?
    ensures AtService(pc) ==>
            After(cfg, w, pc, o, d) == Machine(Serve(w, RequestAt(pc), o, d).0, RegistrationFailed(pc.job.obj, o.error))
    ensures AtSecret(pc) ==>
            After(cfg, w, pc, o, d) == Machine(Serve(w, RequestAt(pc), o, d).0, SecretFailed(pc.job.obj, o.error))
  {
    hide Perform, RegistrationFailed, SecretFailed, RequestAt;
  }

  lemma CalledFor(cfg: Config, w: State, k: Key, pc: Pc, o: Outcome, d: Draw)
    requires Stage(cfg, w, k, pc) && (AtService(pc) || AtSecret(pc))
    ensures Exact(Serve(w, RequestAt(pc), o, d).0, k, pc.job.obj)
  {
    hide Serve, ConditionsOk, Planned, ServiceSettled, ByConsumer, Success.Result, SecretHolds, ResolveSecretName,
         Ready, ValidateRegistration;
    ServeFrame(w, RequestAt(pc), o, d);
  }

  // A call to CAS, for the fqdn or for random bytes is refused, or its answer lost: if the report can be made,
  // Completed is withdrawn with that error, and the reconcile returns it.
  lemma FailedServiceCallReported(cfg: Config, m: Machine, k: Key, o: Outcome, d: Draw, d': Draw)
    requires Stage(cfg, m.world, k, m.pc) && AtService(m.pc) && !o.Answered?
    ensures var w' := Serve(m.world, RequestAt(m.pc), o, d).0; var m' := Finish(cfg, Step(cfg, m, Call(o, d)), d');
      k in w'.regs && m'.pc == Idle(Some(o.error)) && OnlyStatus(w', m'.world, k) &&
      Denied(m'.world.regs[k], "Completed", "RegistrationFailed", o.error)
  {
    hide After, RegistrationFailed, Finish, Denied, Serve, Exact, Stage, RequestAt, OnlyStatus;
    FailedCall(cfg, m.world, m.pc, o, d);
    CalledFor(cfg, m.world, k, m.pc, o, d);
    StoredOf(Serve(m.world, RequestAt(m.pc), o, d).0, k, m.pc.job.obj);
    RegistrationFailedEnds(cfg, Serve(m.world, RequestAt(m.pc), o, d).0, k, m.pc.job.obj, o.error, d');
  }

  lemma StoredOf(w: State, k: Key, obj: Reg)
    requires Exact(w, k, obj)
    ensures k in w.regs
  {
  }

  // The same for the Secret: both conditions are withdrawn.
  lemma FailedSecretCallReported(cfg: Config, m: Machine, k: Key, o: Outcome, d: Draw, d': Draw)
    requires Stage(cfg, m.world, k, m.pc) && AtSecret(m.pc) && !o.Answered?
    ensures var w' := Serve(m.world, RequestAt(m.pc), o, d).0; var m' := Finish(cfg, Step(cfg, m, Call(o, d)), d');
      k in w'.regs && m'.pc == Idle(Some(o.error)) && OnlyStatus(w', m'.world, k) &&
      Denied(m'.world.regs[k], "CredentialsPublished", "SecretReconcileFailed", o.error) &&
      Denied(m'.world.regs[k], "Completed", "Blocked", "Registration is blocked until Secret reconciliation succeeds")
  {
    hide After, SecretFailed, Finish, Denied, Serve, Exact, Stage, RequestAt, OnlyStatus;
    FailedCall(cfg, m.world, m.pc, o, d);
    CalledFor(cfg, m.world, k, m.pc, o, d);
    StoredOf(Serve(m.world, RequestAt(m.pc), o, d).0, k, m.pc.job.obj);
    SecretFailedEnds(cfg, Serve(m.world, RequestAt(m.pc), o, d).0, k, m.pc.job.obj, o.error, d');
  }
}
