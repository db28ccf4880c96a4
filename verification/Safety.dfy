// What every run keeps: one service per consumer, a finalizer behind every service, and other people's Secrets.
module Safety {
  import opened Registry
  import opened Mapper
  import opened Cluster
  import opened World
  import opened Worker
  import opened Invariant

  // ---- One service per consumer ----

  // In every reachable state, also after a create whose answer was lost and any number of retries.
  lemma AtMostOneService(managed: set<string>, cfg: Config, m: Machine, es: seq<Event>, c: string)
    requires Inv(managed, m) && LegalRun(cfg, managed, m, es) && c in managed
    ensures |ByConsumer(Run(cfg, m, es).world.services, c)| <= 1
    ensures FindServiceByConsumer(Run(cfg, m, es).world.services, c).Ok?
  {
    RunKeepsInv(managed, cfg, m, es);
  }

  // No call of the operator changes the services of a consumer other than the one it is reconciling.
  lemma OtherConsumersUntouched(managed: set<string>, cfg: Config, m: Machine, o: Outcome, d: Draw, c: string)
    requires Inv(managed, m) && (m.pc.Idle? || LegalDraw(m.world, RequestAt(m.pc), o, d))
    requires ObjAt(m.pc).Some? ==> c != ObjAt(m.pc).value.spec.consumer
    ensures ByConsumer(Step(cfg, m, Call(o, d)).world.services, c) == ByConsumer(m.world.services, c)
  {
    if !m.pc.Idle? {
      ServicesAfter(managed, m, o, d, c);
    }
  }

  // ---- A finalizer behind every service ----

  ghost predicate Guarded(managed: set<string>, w: State) {
    forall c | c in managed && ByConsumer(w.services, c) != [] :: GuardedBy(w, c)
  }

  ghost predicate GuardedBy(w: State, c: string) {
    exists k | k in w.regs :: w.regs[k].spec.consumer == c && HasFinalizer(w.regs[k])
  }

  lemma UserKeepsGuard(managed: set<string>, w: State, a: UserAct, c: string)
    requires RegsOk(managed, w) && LegalUser(managed, w, a) && GuardedBy(w, c)
    ensures GuardedBy(Apply(w, a), c)
  {
    var k :| k in w.regs && w.regs[k].spec.consumer == c && HasFinalizer(w.regs[k]);
    RegAfterUser(managed, w, a, k);
    hide Apply, LegalUser;
  }

  // The call that takes the finalizer away is the only one after which a registration no longer guards.
  lemma CallKeepsGuard(managed: set<string>, m: Machine, o: Outcome, d: Draw, c: string)
    requires Inv(managed, m) && !m.pc.Idle? && GuardedBy(m.world, c)
    requires m.pc.Unfinalizing? ==> c != m.pc.obj.spec.consumer
    ensures GuardedBy(Serve(m.world, RequestAt(m.pc), o, d).0, c)
  {
    var w' := Serve(m.world, RequestAt(m.pc), o, d).0;
    var k :| k in m.world.regs && m.world.regs[k].spec.consumer == c && HasFinalizer(m.world.regs[k]);
    RegAfterCall(m, o, d, k);
    hide Serve, Inv, WorldOk;
    assert k in w'.regs && w'.regs[k].spec.consumer == c && HasFinalizer(w'.regs[k]);
  }

  lemma StepKeepsGuarded(managed: set<string>, cfg: Config, m: Machine, e: Event)
    requires Inv(managed, m) && Legal(managed, m, e) && Guarded(managed, m.world)
    ensures Guarded(managed, Step(cfg, m, e).world)
  {
    var m' := Step(cfg, m, e);
    forall c | c in managed && ByConsumer(m'.world.services, c) != []
      ensures GuardedBy(m'.world, c)
    {
      match e
      case User(a) =>
        UserKeepsFindings(managed, m.world, a, m.pc);
        UserKeepsGuard(managed, m.world, a, c);
      case Call(o, d) =>
        if !m.pc.Idle? {
          ServicesAfter(managed, m, o, d, c);
          if m.pc.Writing? && m.pc.job.obj.spec.consumer == c {
            assert m.world.regs[m.pc.job.obj.Id()].spec.consumer == c;
          }
          CallKeepsGuard(managed, m, o, d, c);
        }
      case _ =>
    }
  }

  // In every reachable state a service of a managed consumer has a stored registration that names the consumer
  // and holds the finalizer. So no registration disappears, whoever deletes it and when, leaving its service behind.
  lemma {:induction false} FinalizerGuardsService(managed: set<string>, cfg: Config, m: Machine, es: seq<Event>)
    requires Inv(managed, m) && Guarded(managed, m.world) && LegalRun(cfg, managed, m, es)
    ensures Guarded(managed, Run(cfg, m, es).world)
    decreases |es|
  {
    if es != [] {
      StepKeepsInv(managed, cfg, m, es[0]);
      StepKeepsGuarded(managed, cfg, m, es[0]);
      FinalizerGuardsService(managed, cfg, Step(cfg, m, es[0]), es[1..]);
    }
  }

  // With no other registration for the consumer, a registration that is gone has left no service.
  lemma GoneLeavesNoService(managed: set<string>, cfg: Config, m: Machine, es: seq<Event>, c: string)
    requires Inv(managed, m) && Guarded(managed, m.world) && LegalRun(cfg, managed, m, es) && c in managed
    requires forall k | k in Run(cfg, m, es).world.regs :: Run(cfg, m, es).world.regs[k].spec.consumer != c
    ensures ByConsumer(Run(cfg, m, es).world.services, c) == []
  {
    FinalizerGuardsService(managed, cfg, m, es);
  }
}
