// The objects that the code reads into memory and changes there.
module Objects {
  import opened Wrappers
  import opened Domain
  import opened Cluster

  class AuthRegistration {
    var namespace: string
    var name: string
    var uid: int
    var generation: nat
    var finalizers: seq<string>
    var deletedAt: Option<int>
    var labels: map<string, string>
    var annotations: map<string, string>
    var spec: Spec
    var resolvedSecretRef: string
    var conditions: seq<Condition>

    constructor (reg: Reg)
      ensures Value() == reg
    {
      namespace, name, uid, generation := reg.namespace, reg.name, reg.uid, reg.generation;
      finalizers, deletedAt, labels, annotations := reg.finalizers, reg.deletedAt, reg.labels, reg.annotations;
      spec, resolvedSecretRef, conditions := reg.spec, reg.status.resolvedSecretRef, reg.status.conditions;
    }

    function Value(): Reg
      reads this
    {
      Reg(namespace, name, uid, generation, finalizers, deletedAt, labels, annotations, spec,
        Status(resolvedSecretRef, conditions))
    }

    // The answer of a write is read into the object.
    method Load(reg: Reg)
      modifies this
      ensures Value() == reg
    {
      namespace, name, uid, generation := reg.namespace, reg.name, reg.uid, reg.generation;
      finalizers, deletedAt, labels, annotations := reg.finalizers, reg.deletedAt, reg.labels, reg.annotations;
      spec, resolvedSecretRef, conditions := reg.spec, reg.status.resolvedSecretRef, reg.status.conditions;
    }

    method SetStatus(status: Status)
      modifies `resolvedSecretRef, `conditions
      ensures Value() == old(Value()).(status := status)
    {
      resolvedSecretRef, conditions := status.resolvedSecretRef, status.conditions;
    }

    // controllerutil.AddFinalizer: says whether it changed the object.
    method AddFinalizer() returns (changed: bool)
      modifies `finalizers
      ensures Value() == Cluster.AddFinalizer(old(Value())) && changed == !HasFinalizer(old(Value()))
    {
      for i := 0 to |finalizers|
        invariant forall j | 0 <= j < i :: finalizers[j] != FINALIZER
        invariant finalizers == old(finalizers)
      {
        if finalizers[i] == FINALIZER {
          return false;
        }
      }
      finalizers := finalizers + [FINALIZER];
      changed := true;
    }

    // controllerutil.RemoveFinalizer: removes every occurrence, shifting the rest to the front.
    method RemoveFinalizer()
      modifies `finalizers
      ensures Value() == Cluster.RemoveFinalizer(old(Value()))
    {
      var kept: seq<string> := [];
      for i := 0 to |finalizers|
        invariant finalizers == old(finalizers)
        invariant kept + Without(finalizers[i..], FINALIZER) == Without(finalizers, FINALIZER)
      {
        assert finalizers[i..][1..] == finalizers[i + 1..];
        if finalizers[i] != FINALIZER {
          kept := kept + [finalizers[i]];
        }
      }
      finalizers := kept;
    }
  }

  class SecretObject {
    const namespace: string
    const name: string
    var stype: string
    var labels: map<string, string>
    var annotations: map<string, string>
    var data: RegistrationData
    var controller: Option<Owner>

    constructor (secret: Secret)
      ensures Value() == secret
    {
      namespace, name, stype := secret.namespace, secret.name, secret.stype;
      labels, annotations, data, controller := secret.labels, secret.annotations, secret.data, secret.controller;
    }

    function Value(): Secret
      reads this
    {
      Secret(namespace, name, stype, labels, annotations, data, controller)
    }

    // controllerutil.SetControllerReference
    method SetControllerReference(reg: AuthRegistration) returns (error: Option<string>)
      modifies `controller
      ensures match Cluster.SetControllerReference(reg.Value(), old(Value()))
              case Ok(secret) => error == None && Value() == secret
              case Err(e) => error == Some(e) && Value() == old(Value())
    {
      if controller.Some? && (controller.value.kind != REG_KIND || controller.value.name != reg.name) {
        return Some("already owned");
      }
      controller := Some(Owner(REG_KIND, reg.name, reg.uid));
      error := None;
    }
  }
}
