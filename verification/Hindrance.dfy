// What stands in the way of a registration: while it is there no reconcile returns without error, and without it one
// whose calls are answered does.
module Hindrance {
  import opened Wrappers
  import opened GoStrings
  import opened Domain
  import opened Registry
  import opened Mapper
  import opened Cluster
  import opened World
  import opened Worker
  import opened Invariant
  import opened SecretSafety
  import opened Steps
  import opened Attempts
  import opened FixedPoint
  import opened Success
  import opened Health
  import opened Footprint
  import opened Reach

  // The fqdn is missing; the name of the Secret is blank; the consumer is blank or the protocol is none of the three;
  // the Secret is of another type, which the API server lets nobody change while the operator always sends its own; or
  // an object of another kind or name controls the Secret of the generated name.
  datatype Obstacle = NoFqdn | BadRef | BadSpec | Mistyped | Taken

  predicate Hinders(w: State, k: Key, obstacle: Obstacle) {
    k in w.regs && w.regs[k].Id() == k &&
    match obstacle
    case NoFqdn => w.fqdn.None?
    case BadRef => w.regs[k].spec.secretRef.Some? && AllSpace(w.regs[k].spec.secretRef.value)
    case BadSpec => AllSpace(w.regs[k].spec.consumer) || w.regs[k].spec.protocol !in {CAS, OIDC, OAUTH}
    case Mistyped => ResolvedSecret(w, k) && w.secrets[ResolvedKey(w.regs[k]).value].stype != "Opaque"
    case Taken => w.regs[k].spec.secretRef.None? && ResolvedSecret(w, k) && OthersControl(w, k)
  }

  predicate ResolvedSecret(w: State, k: Key)
    requires k in w.regs
  {
    ResolvedKey(w.regs[k]).Some? && ResolvedKey(w.regs[k]).value in w.secrets
  }

  predicate OthersControl(w: State, k: Key)
    requires k in w.regs && ResolvedSecret(w, k)
  {
    var controller := w.secrets[ResolvedKey(w.regs[k]).value].controller;
    controller.Some? && (controller.value.kind != "AuthRegistration" || controller.value.name != w.regs[k].name)
  }

  // What is valid, said of the registration itself.
  lemma ValidIff(reg: Reg)
    ensures ValidateRegistration(FromAuthRegistration(reg)).None? <==>
            !AllSpace(reg.spec.consumer) && reg.spec.protocol in {CAS, OIDC, OAUTH}
    ensures ResolvedKey(reg).None? <==> reg.spec.secretRef.Some? && AllSpace(reg.spec.secretRef.value)
  {
  }

  lemma HealthyIffFree(w: State, k: Key)
    requires k in w.regs && w.regs[k].Id() == k
    ensures Healthy(w, w.regs[k]) <==> forall obstacle :: !Hinders(w, k, obstacle)
  {
    hide ValidateRegistration, TrimSpace, AllSpace;
    ValidIff(w.regs[k]);
    if !Healthy(w, w.regs[k]) {
      assert Hinders(w, k, NoFqdn) || Hinders(w, k, BadRef) || Hinders(w, k, BadSpec) || Hinders(w, k, Mistyped) ||
             Hinders(w, k, Taken);
    }
  }

  // ---- No call removes an obstacle ----

  lemma TypeKept(w: State, request: Request, o: Outcome, d: Draw, sk: Key)
    requires sk in w.secrets
    ensures var w' := Serve(w, request, o, d).0; sk in w'.secrets ==> w'.secrets[sk].stype == w.secrets[sk].stype
  {
  }

  lemma NoDeletion(cfg: Config, w: State, k: Key, pc: Pc)
    requires Stage(cfg, w, k, pc)
    ensures !pc.Unfinalizing?
  {
  }

  lemma NameKept(managed: set<string>, cfg: Config, m: Machine, k: Key, o: Outcome, d: Draw)
    requires Inv(managed, m) && !m.pc.Idle? && Stage(cfg, m.world, k, m.pc) && k in m.world.regs &&
             m.world.regs[k].Id() == k
    ensures var w' := Serve(m.world, RequestAt(m.pc), o, d).0;
      k in w'.regs && w'.regs[k].Id() == k && w'.regs[k].spec == m.world.regs[k].spec && w'.fqdn == m.world.fqdn &&
      ResolvedKey(w'.regs[k]) == ResolvedKey(m.world.regs[k])
  {
    hide Serve, Inv, Stage, TrimSpace;
    ServeFrame(m.world, RequestAt(m.pc), o, d);
    NoDeletion(cfg, m.world, k, m.pc);
    RegAfterInv(managed, m, o, d, k);
    SpecKept(managed, m, o, d, k);
  }

  // The reconcile does not delete the Secret its registration resolves to.
  lemma ResolvedKept(managed: set<string>, cfg: Config, m: Machine, k: Key, o: Outcome, d: Draw)
    requires Inv(managed, m) && !m.pc.Idle? && Stage(cfg, m.world, k, m.pc) && k in m.world.regs &&
             ResolvedSecret(m.world, k)
    ensures ResolvedKey(m.world.regs[k]).value in Serve(m.world, RequestAt(m.pc), o, d).0.secrets
  {
    hide Serve, Inv, Stage, TrimSpace;
    SecretAfterCall(managed, m, o, d, ResolvedKey(m.world.regs[k]).value);
    if m.pc.DeletingPrevious? { WritesTarget(cfg, m.world, k, m.pc); }
  }

  lemma TakenKept(managed: set<string>, cfg: Config, m: Machine, k: Key, o: Outcome, d: Draw)
    requires Inv(managed, m) && !m.pc.Idle? && Stage(cfg, m.world, k, m.pc) && Hinders(m.world, k, Taken)
    ensures var w' := Serve(m.world, RequestAt(m.pc), o, d).0; var sk := ResolvedKey(m.world.regs[k]).value;
      sk in w'.secrets && w'.secrets[sk].controller == m.world.secrets[sk].controller
  {
    hide Serve, Inv, Stage, TrimSpace;
    var sk := ResolvedKey(m.world.regs[k]).value;
    ResolvedKept(managed, cfg, m, k, o, d);
    OwnerAfterCall(managed, m, o, d, sk);
    if m.pc.UpdatingSecret? { WritesTarget(cfg, m.world, k, m.pc); }
  }

  lemma CallKeepsObstacle(managed: set<string>, cfg: Config, m: Machine, k: Key, o: Outcome, d: Draw,
      obstacle: Obstacle)
    requires Inv(managed, m) && !m.pc.Idle? && Stage(cfg, m.world, k, m.pc) && Hinders(m.world, k, obstacle)
    ensures Hinders(After(cfg, m.world, m.pc, o, d).world, k, obstacle)
  {
    hide After, Serve, Inv, Stage, ResolvedKey, AllSpace;
    WorldAfter(cfg, m.world, m.pc, o, d);
    NameKept(managed, cfg, m, k, o, d);
    match obstacle
    case Mistyped =>
      ResolvedKept(managed, cfg, m, k, o, d);
      TypeKept(m.world, RequestAt(m.pc), o, d, ResolvedKey(m.world.regs[k]).value);
    case Taken => TakenKept(managed, cfg, m, k, o, d);
    case _ =>
  }

  // ---- While it is there ----

  lemma HinderedIsNotSettled(cfg: Config, w: State, k: Key, obstacle: Obstacle)
    requires Hinders(w, k, obstacle)
    ensures !Settled(cfg, w, k)
  {
    hide BuildServicePayload, Reuses, DataFor, SaysPublished, SaysCompleted, ByConsumer, TrimSpace, AllSpace,
         ValidateRegistration;
    if k in w.regs { ValidIff(w.regs[k]); }
  }

  // Whatever the outcomes of its calls, no reconcile of the registration returns without error, and the obstacle stays.
  // So the reconcile is retried until somebody else removes the obstacle.
  lemma {:induction false} ObstacleFails(managed: set<string>, cfg: Config, m: Machine, k: Key, es: seq<Event>,
      obstacle: Obstacle)
    requires Inv(managed, m) && LegalRun(cfg, managed, m, es) && forall e | e in es :: e.Call?
    requires Stage(cfg, m.world, k, m.pc) && Hinders(m.world, k, obstacle)
    ensures Run(cfg, m, es).pc != Idle(None) && Hinders(Run(cfg, m, es).world, k, obstacle)
    decreases |es|
  {
    hide Inv, Serve, Resume, LegalDraw, Settled, Hinders;
    if es == [] {
      HinderedIsNotSettled(cfg, m.world, k, obstacle);
    } else {
      assert es[0] in es;
      StepKeepsInv(managed, cfg, m, es[0]);
      if !m.pc.Idle? {
        CallStage(managed, cfg, m, k, es[0].outcome, es[0].draw);
        CallKeepsObstacle(managed, cfg, m, k, es[0].outcome, es[0].draw, obstacle);
      }
      ObstacleFails(managed, cfg, Step(cfg, m, es[0]), k, es[1..], obstacle);
    }
  }

  // A reconcile that returns without error, by calls with whatever outcomes.
  ghost predicate Succeeds(managed: set<string>, cfg: Config, m: Machine, es: seq<Event>) {
    LegalRun(cfg, managed, m, es) && (forall e | e in es :: e.Call?) && Run(cfg, m, es).pc == Idle(None)
  }

  // A reconcile of a live registration can return without error if and only if nothing is in its way; and then it does
  // so whenever its calls are answered.
  lemma SucceedsIffHealthy(managed: set<string>, cfg: Config, w: State, k: Key, d: Draw)
    requires WorldOk(managed, w) && k in w.regs && w.regs[k].deletedAt.None? && Fresh(w, Loading(k), d)
    ensures (exists es :: Succeeds(managed, cfg, Machine(w, Loading(k)), es)) <==> Healthy(w, w.regs[k])
    ensures Healthy(w, w.regs[k]) ==>
            Attempt(cfg, w, k, d).pc == Idle(None) && Settled(cfg, Attempt(cfg, w, k, d).world, k)
  {
    hide Healthy, Fresh, Run, LegalRun, Underway, Settled, Finish, Hinders, ConditionsOk, ServicesOk, SecretsOk;
    var m := Machine(w, Loading(k));
    if Healthy(w, w.regs[k]) {
      StartsUnderway(managed, cfg, w, k, d);
      AttemptSettles(managed, cfg, w, m, k, d);
      var es := FinishIsRun(managed, cfg, w, m, k, d);
      assert Succeeds(managed, cfg, m, es);
    } else {
      HealthyIffFree(w, k);
      var obstacle :| Hinders(w, k, obstacle);
      forall es: seq<Event> | LegalRun(cfg, managed, m, es) && forall e | e in es :: e.Call?
        ensures !Succeeds(managed, cfg, m, es)
      {
        ObstacleFails(managed, cfg, m, k, es, obstacle);
      }
    }
  }
}
