// Where every run begins: the operator is installed next to whatever is there already.
module Start {
  import opened Wrappers
  import opened Registry
  import opened Mapper
  import opened Cluster
  import opened World
  import opened Worker
  import opened Invariant
  import opened Safety
  import opened Accounting
  import opened StatusSafety
  import Coverage

  // No registration yet. Other people's Secrets and services may exist, but none of a managed consumer, and
  // registrations control no Secret.
  predicate Installed(managed: set<string>, w: State) {
    w.regs == map[] && SecretsOk(w) && Valid(w.services) &&
    (forall c | c in managed :: ByConsumer(w.services, c) == []) &&
    (forall sk | sk in w.secrets && w.secrets[sk].controller.Some? ::
      w.secrets[sk].controller.value.kind != REG_KIND && w.secrets[sk].controller.value.uid < 0)
  }

  lemma InstalledIsSound(managed: set<string>, w: State)
    requires Installed(managed, w)
    ensures var m := Machine(w, Idle(None));
      Inv(managed, m) && Guarded(managed, w) && Bounded(w) && PatchMeans(m.pc) &&
        forall k :: AccountedFor(m, k) && Steady(m, k)
  {
    hide ByConsumer, Valid, Consistent;
  }

  // From an installation on, in every state of every run: no managed consumer has two services; a consumer with a
  // service has a registration with the finalizer; every condition is one of its type and observes a generation the
  // object had.
  lemma EveryState(managed: set<string>, cfg: Config, w: State, es: seq<Event>)
    requires Installed(managed, w) && LegalRun(cfg, managed, Machine(w, Idle(None)), es)
    ensures var m := Run(cfg, Machine(w, Idle(None)), es);
      Inv(managed, m) && Guarded(managed, m.world) && PatchMeans(m.pc) &&
      (forall c | c in managed :: |ByConsumer(m.world.services, c)| <= 1) &&
      (forall k | k in m.world.regs :: ConditionsOk(m.world.regs[k].status.conditions, m.world.regs[k].generation))
  {
    hide Run, LegalRun, Installed, Guarded, PatchMeans, ByConsumer, ConditionsOk, Valid;
    var start := Machine(w, Idle(None));
    InstalledIsSound(managed, w);
    RunKeepsInv(managed, cfg, start, es);
    FinalizerGuardsService(managed, cfg, start, es);
    RunKeepsMeaning(managed, cfg, start, es);
  }

  // And from an installation on, whatever needs work is in the queue or being worked on.
  lemma NothingMissed(managed: set<string>, cfg: Config, w: State, current: Key, es: seq<Event>)
    requires Installed(managed, w)
    requires Coverage.Allowed(managed, cfg, Coverage.Site(Machine(w, Idle(None)), current, {}), es)
    ensures var s := Coverage.OccurAll(cfg, Coverage.Site(Machine(w, Idle(None)), current, {}), es);
      Inv(managed, s.m) && Coverage.Distinct(s.m.world) && Coverage.Attended(cfg, s)
  {
    hide Coverage.Allowed, Coverage.OccurAll, Coverage.Attended, Inv, Consistent, ByConsumer, Valid;
    InstalledIsSound(managed, w);
    Coverage.NothingToAttend(cfg, w, current);
    Coverage.RunAttends(managed, cfg, Coverage.Site(Machine(w, Idle(None)), current, {}), es);
  }
}
