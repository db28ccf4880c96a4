// The Kubernetes objects the operator works on, and the library functions that change them.
module Cluster {
  import opened Wrappers
  import opened GoStrings
  import opened Domain

  const FINALIZER := "k8s.cloudogu.com/auth-registration-finalizer"
  const NAME_LABEL := "k8s.cloudogu.com/auth-registration"
  const GENERATED_SUFFIX := "-credentials"
  const PUBLISHED := "CredentialsPublished"
  const COMPLETED := "Completed"
  const OPAQUE := "Opaque"
  const REG_KIND := "AuthRegistration"

  datatype Key = Key(namespace: string, name: string)

  datatype Spec = Spec(protocol: Protocol, consumer: string, logoutUrl: Option<string>, secretRef: Option<string>,
    params: map<string, string>)

  datatype Condition = Condition(ctype: string, isTrue: bool, reason: string, message: string, observedGeneration: nat)

  datatype Status = Status(resolvedSecretRef: string, conditions: seq<Condition>)

  // An AuthRegistration.
  datatype Reg = Reg(
    namespace: string, name: string, uid: int, generation: nat, finalizers: seq<string>, deletedAt: Option<int>,
    labels: map<string, string>, annotations: map<string, string>, spec: Spec, status: Status)
  {
    function Id(): Key { Key(namespace, name) }
  }

  // A controller owner reference.
  datatype Owner = Owner(kind: string, name: string, uid: int)

  datatype Secret = Secret(
    namespace: string, name: string, stype: string, labels: map<string, string>, annotations: map<string, string>,
    data: RegistrationData, controller: Option<Owner>)
  {
    function Id(): Key { Key(namespace, name) }
  }

  function FromAuthRegistration(reg: Reg): Registration {
    Registration(reg.spec.protocol, reg.spec.consumer,
      if reg.spec.logoutUrl.None? then "" else reg.spec.logoutUrl.value, reg.spec.params)
  }

  // ---- Finalizers ----

  predicate HasFinalizer(reg: Reg) {
    FINALIZER in reg.finalizers
  }

  function AddFinalizer(reg: Reg): Reg {
    if HasFinalizer(reg) then reg else reg.(finalizers := reg.finalizers + [FINALIZER])
  }

  function Without(finalizers: seq<string>, f: string): (rest: seq<string>)
    ensures f !in rest
  {
    if finalizers == [] then []
    else (if finalizers[0] == f then [] else [finalizers[0]]) + Without(finalizers[1..], f)
  }

  function RemoveFinalizer(reg: Reg): Reg {
    reg.(finalizers := Without(reg.finalizers, FINALIZER))
  }

  // ---- Conditions ----

  // meta.SetStatusCondition, without the transition time.
  function SetStatusCondition(conditions: seq<Condition>, c: Condition): seq<Condition> {
    if conditions == [] then [c]
    else if conditions[0].ctype == c.ctype then [c] + conditions[1..]
    else [conditions[0]] + SetStatusCondition(conditions[1..], c)
  }

  predicate IsTrue(status: Status, ctype: string) {
    exists c | c in status.conditions :: c.ctype == ctype && c.isTrue
  }

  // ---- Secrets ----

  function OwnerFor(reg: Reg): Owner {
    Owner(REG_KIND, reg.name, reg.uid)
  }

  predicate IsControlledBy(secret: Secret, reg: Reg) {
    secret.controller.Some? && secret.controller.value.uid == reg.uid
  }

  // controllerutil.SetControllerReference: refuses to take over from an object of another kind or name.
  function SetControllerReference(reg: Reg, secret: Secret): Result<Secret> {
    if secret.controller.Some? && (secret.controller.value.kind != REG_KIND || secret.controller.value.name != reg.name)
    then Err("already owned")
    else Ok(secret.(controller := Some(OwnerFor(reg))))
  }

  function BuildDesiredSecret(result: RegistrationResult, reg: Reg, secretName: string): Secret {
    Secret(reg.namespace, secretName, OPAQUE, map[NAME_LABEL := reg.name], map[], GetRegistrationData(result), None)
  }

  // Type, labels, annotations and data of the desired Secret laid over the current one.
  function Merge(current: Secret, desired: Secret): Secret {
    current.(stype := desired.stype, labels := current.labels + desired.labels,
             annotations := current.annotations + desired.annotations, data := current.data + desired.data)
  }

  // The name of the credentials Secret, and whether the operator manages that Secret itself.
  function ResolveSecretName(reg: Reg): Result<(string, bool)> {
    match reg.spec.secretRef
    case None => Ok((reg.name + GENERATED_SUFFIX, true))
    case Some(ref) => if Blank(ref) then Err("spec.secretRef must not be empty") else Ok((TrimSpace(ref), false))
  }

  // The Secret a registration currently resolves to.
  function ResolvedKey(reg: Reg): Option<Key> {
    match ResolveSecretName(reg)
    case Ok((name, _)) => Some(Key(reg.namespace, name))
    case Err(_) => None
  }
}
