// Runs from an installation in which the properties that hold under a condition only do fail.
module Counterexamples {
  import opened Wrappers
  import opened GoStrings
  import opened Base64
  import opened Domain
  import opened CasTypes
  import opened Registry
  import opened Mapper
  import opened Cluster
  import opened World
  import opened Worker
  import opened Steps
  import opened Invariant
  import opened FixedPoint
  import opened Attempts
  import opened Success
  import opened Health
  import opened Footprint
  import opened SecretSafety
  import opened Obsolete
  import opened Accounting
  import opened StatusSafety
  import opened Start
  import opened Reach

  const APP := Key("apps", "app")
  const CONSUMERS := {"app"}
  const EMPTY := State(map[], map[], [], Some("ces.example"), 0)
  const CREATED := Reg("apps", "app", 0, 1, [], None, map[], map[], Spec(CAS, "app", None, None, map[]), Status("", []))
  const FIRST := State(map[APP := CREATED], map[], [], Some("ces.example"), 1)
  const GENERATED := Key("apps", "app-credentials")
  const OTHER := Key("apps", "other")
  const INSTALLATION := Machine(EMPTY, Idle(None))

  function Bytes(): (bytes: seq<Byte>)
    ensures |bytes| == 32
  {
    seq(32, _ => 0)
  }

  // The registration is the only one, reconciled to its end.
  ghost predicate Served(cfg: Config, w: State) {
    WorldOk(CONSUMERS, w) && w.regs.Keys == {APP} && w.fqdn.Some? && |w.services| <= 1 && Settled(cfg, w, APP) &&
    SameSpec(CREATED, w.regs[APP]) && OTHER !in w.secrets
  }

  lemma EmptyIsInstalled()
    ensures Installed(CONSUMERS, EMPTY)
  {
  }

  lemma CreatedRuns(cfg: Config)
    ensures var es := [User(CreateReg(CREATED)), Start(APP)];
      LegalRun(cfg, CONSUMERS, INSTALLATION, es) && Run(cfg, INSTALLATION, es) == Machine(FIRST, Loading(APP))
  {
    var created := User(CreateReg(CREATED));
    assert Legal(CONSUMERS, INSTALLATION, created);
    var m1 := Step(cfg, INSTALLATION, created);
    assert m1 == Machine(FIRST, Idle(None));
    assert Run(cfg, INSTALLATION, [created]) == m1 && LegalRun(cfg, CONSUMERS, INSTALLATION, [created]);
    LegalRunThen(cfg, CONSUMERS, INSTALLATION, [created], Start(APP));
    assert [created] + [Start(APP)] == [created, Start(APP)];
  }

  lemma CreatedIsHealthy()
    ensures Healthy(FIRST, CREATED) && CREATED.Id() == APP && WorldOk(CONSUMERS, FIRST)
  {
    assert CREATED.name == "app" && Trimmed("app");
    assert ByConsumer([], "app") == [];
  }

  // Every run begun here can be made: the registration is created and reconciled.
  lemma ServedRun(cfg: Config) returns (es: seq<Event>)
    ensures LegalRun(cfg, CONSUMERS, INSTALLATION, es)
    ensures var m := Run(cfg, INSTALLATION, es); m.pc == Idle(None) && Served(cfg, m.world)
  {
    hide Run, LegalRun, Underway, Settled, Within, Finish, Healthy, WorldOk;
    CreatedRuns(cfg);
    CreatedIsHealthy();
    var d := Draw(1, true, Bytes());
    var m := Machine(FIRST, Loading(APP));
    FirstIsFresh(d);
    StartsUnderway(CONSUMERS, cfg, FIRST, APP, d);
    AttemptSettles(CONSUMERS, cfg, FIRST, m, APP, d);
    var rest := FinishIsRun(CONSUMERS, cfg, FIRST, m, APP, d);
    var begun := [User(CreateReg(CREATED)), Start(APP)];
    LegalRunAppend(cfg, CONSUMERS, INSTALLATION, begun, rest);
    es := begun + rest;
    ServedAtEnd(cfg, Finish(cfg, m, d).world);
  }

  lemma FirstIsFresh(d: Draw)
    requires d == Draw(1, true, Bytes())
    ensures Fresh(FIRST, Loading(APP), d)
  {
  }

  lemma NoOther(w: State)
    requires ResolvedKey(CREATED).Some? && Within(FIRST, w, APP)
    ensures OTHER !in w.secrets
  {
    hide ByConsumer;
    assert SecretWithin(FIRST, w, CREATED, ResolvedKey(CREATED).value, OTHER);
    assert ResolvedKey(CREATED).value.name == "app" + GENERATED_SUFFIX && |OTHER.name| == 5 &&
           |"app" + GENERATED_SUFFIX| == 15;
  }

  lemma ServedAtEnd(cfg: Config, w: State)
    requires ResolvedKey(CREATED).Some? && Within(FIRST, w, APP) && WorldOk(CONSUMERS, w) && Settled(cfg, w, APP)
    ensures Served(cfg, w)
  {
    hide WorldOk, StoresSettled, SecretWithin;
    forall c | c != "app"
      ensures ByConsumer(w.services, c) == []
    {
      assert ByConsumer(FIRST.services, c) == [];
    }
    NoOther(w);
    OneServed(cfg, w);
    OnlyOf(w.services, "app");
  }

  lemma OneServed(cfg: Config, w: State)
    requires Settled(cfg, w, APP) && w.regs[APP].spec.consumer == "app"
    ensures |ByConsumer(w.services, "app")| == 1
  {
    hide BuildServicePayload, ByConsumer;
  }

  // With services of one consumer only, the lookup sees the whole list.
  lemma OnlyOf(services: seq<Service>, consumer: string)
    requires forall c | c != consumer :: ByConsumer(services, c) == []
    ensures ByConsumer(services, consumer) == services
  {
    hide ByConsumer;
    forall s | s in services
      ensures ConsumerOf(s) == consumer
    {
      ByConsumerNone(services, ConsumerOf(s));
    }
    ByConsumerAll(services, consumer);
  }

  lemma {:induction false} ByConsumerAll(services: seq<Service>, consumer: string)
    requires forall s | s in services :: ConsumerOf(s) == consumer
    ensures ByConsumer(services, consumer) == services
  {
    if services != [] {
      ByConsumerAll(services[1..], consumer);
      assert services == [services[0]] + services[1..];
    }
  }

  // ---- The reference is edited, and the next reconcile is under way ----

  function Moved(w: State): UserAct
    requires APP in w.regs
  {
    EditReg(w.regs[APP].(spec := w.regs[APP].spec.(secretRef := Some("other"))))
  }

  lemma MovedIsLegal(cfg: Config, w: State)
    requires Served(cfg, w)
    ensures LegalUser(CONSUMERS, w, Moved(w))
    ensures var w' := Apply(w, Moved(w));
      APP in w'.regs && w'.secrets == w.secrets && w'.services == w.services && w'.fqdn == w.fqdn &&
      w'.regs[APP].status == w.regs[APP].status && w'.regs[APP].uid == w.regs[APP].uid &&
      w'.regs[APP].deletedAt.None? &&
      w'.regs[APP].spec == CREATED.spec.(secretRef := Some("other")) && w'.regs[APP].Id() == APP
  {
    hide WorldOk, StoresSettled, SaysPublished, SaysCompleted, ValidateRegistration;
  }

  lemma MovedIsHealthy(w: State)
    requires w.fqdn.Some? && OTHER !in w.secrets && APP in w.regs && w.regs[APP].Id() == APP &&
             w.regs[APP].spec == CREATED.spec.(secretRef := Some("other"))
    ensures Healthy(w, w.regs[APP]) && ResolveSecretName(w.regs[APP]) == Ok(("other", false))
  {
    assert CREATED.spec.consumer == "app" && Trimmed("app") && Trimmed("other");
  }

  lemma FreshDraw(w: State) returns (d: Draw)
    requires |w.services| <= 1
    ensures Fresh(w, Loading(APP), d)
  {
    d := Draw(if |w.services| == 1 && w.services[0].id == 1 then 2 else 1, true, Bytes());
  }

  lemma ServedName(reg: Reg)
    requires SameSpec(CREATED, reg)
    ensures ResolveSecretName(reg) == Ok(("app-credentials", true))
  {
    assert "app" + GENERATED_SUFFIX == "app-credentials";
  }

  // The generated Secret of the served registration.
  lemma ServedOwns(cfg: Config, w: State)
    requires Served(cfg, w)
    ensures GENERATED in w.secrets && IsControlledBy(w.secrets[GENERATED], w.regs[APP])
    ensures w.regs[APP].status.resolvedSecretRef == "app-credentials"
    ensures IsTrue(w.regs[APP].status, COMPLETED) && IsTrue(w.regs[APP].status, PUBLISHED)
  {
    hide WorldOk, ServiceSettled, ValidateRegistration, WithCondition, ResolveSecretName, Reuses, DataFor;
    ServedSays(w.regs[APP]);
    ServedName(w.regs[APP]);
  }

  lemma {:induction false} SetIsIn(conditions: seq<Condition>, c: Condition)
    ensures c in SetStatusCondition(conditions, c)
  {
    if conditions != [] && conditions[0].ctype != c.ctype { SetIsIn(conditions[1..], c); }
  }

  lemma ServedSays(reg: Reg)
    requires SaysPublished(reg) && SaysCompleted(reg)
    ensures IsTrue(reg.status, COMPLETED) && IsTrue(reg.status, PUBLISHED)
  {
    SetIsIn(reg.status.conditions, Condition(COMPLETED, true, "RegistrationSucceeded",
      "Service registration was reconciled successfully",
                                             reg.generation));
    SetIsIn(reg.status.conditions, Condition(PUBLISHED, true, "SecretReconciled", "Credentials Secret is ready",
      reg.generation));
  }

  // ---- To the Secret step, with and without an obsolete Secret ----

  lemma MovedStarts(cfg: Config, w: State, d: Draw)
    requires Served(cfg, w) && Fresh(Apply(w, Moved(w)), Loading(APP), d)
    ensures var w' := Apply(w, Moved(w)); Underway(CONSUMERS, cfg, w', Machine(w', Loading(APP)), APP, d)
  {
    hide Underway, Settled, Healthy, Apply, RegsOk, SecretsOk, ServicesOk, LegalUser;
    var w' := Apply(w, Moved(w));
    MovedIsLegal(cfg, w);
    MovedIsHealthy(w');
    MovedKeepsWorld(cfg, w);
    StartsUnderway(CONSUMERS, cfg, w', APP, d);
  }

  lemma MovedKeepsWorld(cfg: Config, w: State)
    requires Served(cfg, w) && LegalUser(CONSUMERS, w, Moved(w))
    ensures WorldOk(CONSUMERS, Apply(w, Moved(w)))
  {
    hide Settled, Apply, LegalUser, WorldOk;
    SoundAtRest(w);
    UserKeepsInv(CONSUMERS, Machine(w, Idle(None)), Moved(w));
    SoundWorld(Machine(Apply(w, Moved(w)), Idle(None)));
  }

  lemma SoundAtRest(w: State)
    requires WorldOk(CONSUMERS, w)
    ensures Inv(CONSUMERS, Machine(w, Idle(None)))
  {
    hide WorldOk;
  }

  lemma SoundWorld(m: Machine)
    requires Inv(CONSUMERS, m)
    ensures WorldOk(CONSUMERS, m.world)
  {
    hide WorldOk;
  }

  lemma OldAtStep(cfg: Config, w: State, m: Machine, d: Draw)
    requires Served(cfg, w) && m.pc.ReadingSecret?
    requires var w0 := Apply(w, Moved(w)); Underway(CONSUMERS, cfg, w0, m, APP, d) && m.world.secrets == w0.secrets
    ensures HasOld(m.world, m.pc.job) && m.pc.job.Previous() == GENERATED && m.pc.job.obj.Id() == APP
  {
    hide Inv, Healthy, Fresh, ByConsumer, Settled, WorldOk, SecretWithin, Apply, Success.Result, ConditionsOk,
         ResolveSecretName, TrimSpace;
    MovedIsLegal(cfg, w);
    ServedOwns(cfg, w);
    WorksOn(cfg, m.world, APP, m.pc);
    SecretStepName(cfg, m.world, APP, m.pc);
    MovedName(m.pc.job.obj);
    assert Trimmed("app-credentials");
    assert m.pc.job.prev == "app-credentials";
    assert |"app-credentials"| == 15 && |"other"| == 5;
  }

  lemma SecretStepName(cfg: Config, w: State, k: Key, pc: Pc)
    requires pc.ReadingSecret? && Stage(cfg, w, k, pc)
    ensures ResolveSecretName(pc.job.obj) == Ok((pc.job.name, pc.job.managed))
  {
    hide ConditionsOk, Success.Result, Ready;
  }

  lemma MovedName(reg: Reg)
    requires reg.spec.secretRef == Some("other")
    ensures ResolveSecretName(reg) == Ok(("other", false))
  {
    assert Trimmed("other");
  }

  // Created, reconciled, moved to another Secret, and reconciled again up to the Secret step.
  lemma MovedRun(cfg: Config) returns (es: seq<Event>, w0: State, d: Draw)
    ensures LegalRun(cfg, CONSUMERS, INSTALLATION, es)
    ensures var m := Run(cfg, INSTALLATION, es);
      m.pc.ReadingSecret? && Underway(CONSUMERS, cfg, w0, m, APP, d) &&
      HasOld(m.world, m.pc.job) && m.pc.job.Previous() == GENERATED && m.pc.job.obj.Id() == APP
  {
    hide Run, LegalRun, Underway, Settled, WorldOk, Apply, LegalUser, HasOld;
    var served := ServedRun(cfg);
    var w := Run(cfg, INSTALLATION, served).world;
    w0 := Apply(w, Moved(w));
    MovedIsLegal(cfg, w);
    d := FreshDraw(w0);
    MovedStarts(cfg, w, d);
    LegalRunThen(cfg, CONSUMERS, INSTALLATION, served, User(Moved(w)));
    var moved := served + [User(Moved(w))];
    LegalRunThen(cfg, CONSUMERS, INSTALLATION, moved, Start(APP));
    var started := moved + [Start(APP)];
    var rest := ToSecretStep(CONSUMERS, cfg, w0, Machine(w0, Loading(APP)), APP, d);
    LegalRunAppend(cfg, CONSUMERS, INSTALLATION, started, rest);
    es := started + rest;
    OldAtStep(cfg, w, Run(cfg, INSTALLATION, es), d);
  }

  // Created, reconciled, and reconciled again up to the Secret step.
  lemma ServedAgainRun(cfg: Config) returns (es: seq<Event>)
    ensures LegalRun(cfg, CONSUMERS, INSTALLATION, es)
    ensures var m := Run(cfg, INSTALLATION, es);
      m.pc.ReadingSecret? && APP in m.world.regs && m.pc.job.obj.status == m.world.regs[APP].status &&
      m.pc.job.obj.Id() == APP &&
      IsTrue(m.pc.job.obj.status, COMPLETED) && IsTrue(m.pc.job.obj.status, PUBLISHED)
  {
    hide Run, LegalRun, Underway, Settled, WorldOk, IsTrue;
    var served := ServedRun(cfg);
    var w := Run(cfg, INSTALLATION, served).world;
    var d := FreshDraw(w);
    ServedOwns(cfg, w);
    ServedIsHealthy(cfg, w);
    StartsUnderway(CONSUMERS, cfg, w, APP, d);
    LegalRunThen(cfg, CONSUMERS, INSTALLATION, served, Start(APP));
    var started := served + [Start(APP)];
    var rest := ToSecretStep(CONSUMERS, cfg, w, Machine(w, Loading(APP)), APP, d);
    LegalRunAppend(cfg, CONSUMERS, INSTALLATION, started, rest);
    es := started + rest;
    var m := Run(cfg, INSTALLATION, es);
    UnderwayWorksOn(cfg, w, m, d);
    SameTruth(w.regs[APP].status, m.world.regs[APP].status);
  }

  lemma ServedIsHealthy(cfg: Config, w: State)
    requires Served(cfg, w)
    ensures Healthy(w, w.regs[APP]) && w.regs[APP].deletedAt.None?
  {
    hide WorldOk, ServiceSettled, Reuses, DataFor, SaysPublished, SaysCompleted, ResolveSecretName;
  }

  lemma UnderwayWorksOn(cfg: Config, w0: State, m: Machine, d: Draw)
    requires Underway(CONSUMERS, cfg, w0, m, APP, d) && m.pc.ReadingSecret? && APP in m.world.regs
    ensures m.pc.job.obj.status == m.world.regs[APP].status && m.pc.job.obj.Id() == APP
  {
    hide Inv, Healthy, Fresh, Within, From, Stage;
    WorksOn(cfg, m.world, APP, m.pc);
  }

  lemma SameTruth(a: Status, b: Status)
    requires a.conditions == b.conditions
    ensures forall ctype :: IsTrue(a, ctype) == IsTrue(b, ctype)
  {
  }

  // ---- What goes wrong ----

  // The operator dies between moving the pointer and the cleanup: the generated Secret is left behind.
  lemma LeakHappens(cfg: Config) returns (es: seq<Event>)
    ensures LegalRun(cfg, CONSUMERS, INSTALLATION, es)
    ensures Run(cfg, INSTALLATION, es).pc.Idle? && LeftBehind(Run(cfg, INSTALLATION, es), APP, GENERATED)
  {
    hide Run, LegalRun, Underway, HasOld, LeftBehind, Inv;
    var before, w0, d := MovedRun(cfg);
    var m := Run(cfg, INSTALLATION, before);
    Sound(cfg, before);
    OldIsStake(m);
    LegalRunThen(cfg, CONSUMERS, INSTALLATION, before, Crash);
    es := before + [Crash];
    CrashLeaks(CONSUMERS, cfg, m, APP);
  }

  lemma Sound(cfg: Config, es: seq<Event>)
    requires LegalRun(cfg, CONSUMERS, INSTALLATION, es)
    ensures Inv(CONSUMERS, Run(cfg, INSTALLATION, es)) && PatchMeans(Run(cfg, INSTALLATION, es).pc)
  {
    hide Run, LegalRun, Inv, PatchMeans, Installed;
    EmptyIsInstalled();
    InstalledIsSound(CONSUMERS, EMPTY);
    RunKeepsInv(CONSUMERS, cfg, INSTALLATION, es);
    RunKeepsMeaning(CONSUMERS, cfg, INSTALLATION, es);
  }

  lemma OldIsStake(m: Machine)
    requires Inv(CONSUMERS, m) && m.pc.ReadingSecret? && HasOld(m.world, m.pc.job) && m.pc.job.obj.Id() == APP
    ensures Leak(m, Crash, APP) && Stake(m.pc) == Some(m.pc.job.Previous())
  {
    hide ServicesOk, SecretsOk, FindingsOk, ConditionsOk, TrimSpace, After;
  }

  // The Secret step fails and the answer to the patch that reports it is lost: Completed stays true without published
  // credentials.
  lemma FaultHappens(cfg: Config) returns (es: seq<Event>)
    ensures LegalRun(cfg, CONSUMERS, INSTALLATION, es)
    ensures var m := Run(cfg, INSTALLATION, es);
      m.pc.Idle? && APP in m.world.regs && IsTrue(m.world.regs[APP].status, COMPLETED) &&
      !IsTrue(m.world.regs[APP].status, PUBLISHED)
  {
    hide Run, LegalRun, Inv, IsTrue, PatchMeans, StatusFault, Steady, Resume;
    var before := ServedAgainRun(cfg);
    var m := Run(cfg, INSTALLATION, before);
    Sound(cfg, before);
    var fails := Call(Refused("unavailable"), Draw(0, true, []));
    SecretStepFails(cfg, m, fails.draw);
    LegalRunThen(cfg, CONSUMERS, INSTALLATION, before, fails);
    var failed := before + [fails];
    Sound(cfg, failed);
    var lost := Call(Lost("timeout"), Draw(0, true, []));
    LostIsLegal(Step(cfg, m, fails), lost.draw);
    LegalRunThen(cfg, CONSUMERS, INSTALLATION, failed, lost);
    es := failed + [lost];
    LostIsFault(Step(cfg, m, fails), lost);
    StatusFaultShows(CONSUMERS, cfg, Step(cfg, m, fails), lost, APP);
  }

  lemma SecretStepFails(cfg: Config, m: Machine, d: Draw)
    requires Inv(CONSUMERS, m) && m.pc.ReadingSecret? && IsTrue(m.pc.job.obj.status, PUBLISHED)
    ensures var next := Step(cfg, m, Call(Refused("unavailable"), d));
      Legal(CONSUMERS, m, Call(Refused("unavailable"), d)) && next.world == m.world && next.pc.Patching? &&
      next.pc.base == m.pc.job.obj && next.pc.next == SecretUnpublished("unavailable")
  {
    hide After, IsTrue, WithCondition, Block, ServicesOk, RegsOk, SecretsOk;
    AtReadingSecret(cfg, m.world, m.pc, Refused("unavailable"), d);
    ConditionSet(m.pc.job.obj, PUBLISHED, false, "SecretReconcileFailed", "unavailable");
  }

  lemma LostIsLegal(m: Machine, d: Draw)
    requires m.pc.Patching?
    ensures Legal(CONSUMERS, m, Call(Lost("timeout"), d))
  {
  }

  lemma LostIsFault(m: Machine, e: Event)
    requires e.Call? && e.outcome.Lost? && m.pc.Patching? && m.pc.next.SecretUnpublished? && m.pc.base.Id() == APP
    requires APP in m.world.regs && m.world.regs[APP].status == m.pc.base.status
    requires IsTrue(m.pc.base.status, COMPLETED) && IsTrue(m.pc.base.status, PUBLISHED)
    ensures StatusFault(m, e, APP) && Steady(m, APP)
  {
    hide IsTrue;
  }

  // Up to the delete call, with the generated Secret still there.
  lemma DeletingRun(cfg: Config) returns (es: seq<Event>)
    ensures LegalRun(cfg, CONSUMERS, INSTALLATION, es)
    ensures var m := Run(cfg, INSTALLATION, es);
      Inv(CONSUMERS, m) && m.pc.DeletingPrevious? && m.pc.job.Previous() == GENERATED && m.pc.job.obj.Id() == APP &&
      OwnStored(m) && GENERATED in m.world.secrets
  {
    hide Run, LegalRun, Underway, Inv;
    var before, w0, d := MovedRun(cfg);
    var rest := ToDelete(CONSUMERS, cfg, w0, Run(cfg, INSTALLATION, before), APP, d);
    LegalRunAppend(cfg, CONSUMERS, INSTALLATION, before, rest);
    es := before + rest;
    Sound(cfg, es);
  }

  // A user puts a Secret of his own in the place of the old one, and the operator deletes it.
  lemma RaceHappens(cfg: Config, mine: Secret) returns (es: seq<Event>)
    requires mine.Id() == GENERATED && mine.controller == None
    ensures LegalRun(cfg, CONSUMERS, INSTALLATION, es) && |es| > 0
    ensures var before := Run(cfg, INSTALLATION, es[..|es| - 1]).world;
      es[|es| - 1].Call? && GENERATED in before.secrets && before.secrets[GENERATED] == mine &&
      GENERATED !in Run(cfg, INSTALLATION, es).world.secrets
  {
    hide Run, LegalRun, Inv, Legal, Step, OwnStored;
    var start := DeletingRun(cfg);
    var m := Run(cfg, INSTALLATION, start);
    var d := Draw(0, true, []);
    DeleteRace(CONSUMERS, cfg, m, mine, d);
    var removed := User(RemoveSecret(GENERATED));
    var put := User(PutSecret(mine));
    LegalRunThen(cfg, CONSUMERS, INSTALLATION, start, removed);
    LegalRunThen(cfg, CONSUMERS, INSTALLATION, start + [removed], put);
    var raced := start + [removed] + [put];
    DeleteIsLegal(cfg, m, removed, put, d);
    LegalRunThen(cfg, CONSUMERS, INSTALLATION, raced, Call(Answered, d));
    es := raced + [Call(Answered, d)];
    assert es[..|es| - 1] == raced;
  }

  // A user takes the owner reference off the old Secret to keep it, and the operator deletes it.
  lemma StripHappens(cfg: Config) returns (es: seq<Event>)
    ensures LegalRun(cfg, CONSUMERS, INSTALLATION, es) && |es| > 0
    ensures var before := Run(cfg, INSTALLATION, es[..|es| - 1]).world;
      es[|es| - 1].Call? && GENERATED in before.secrets && before.secrets[GENERATED].controller == None &&
      GENERATED !in Run(cfg, INSTALLATION, es).world.secrets
  {
    hide Run, LegalRun, Inv, Legal, Step, OwnStored;
    var start := DeletingRun(cfg);
    var m := Run(cfg, INSTALLATION, start);
    var d := Draw(0, true, []);
    SecretNamed(m, GENERATED);
    StripRace(CONSUMERS, cfg, m, d);
    var strip := User(PutSecret(m.world.secrets[GENERATED].(controller := None)));
    LegalRunThen(cfg, CONSUMERS, INSTALLATION, start, strip);
    var stripped := start + [strip];
    DeleteIsLegal(cfg, m, strip, strip, d);
    LegalRunThen(cfg, CONSUMERS, INSTALLATION, stripped, Call(Answered, d));
    es := stripped + [Call(Answered, d)];
    assert es[..|es| - 1] == stripped;
  }

  lemma SecretNamed(m: Machine, sk: Key)
    requires Inv(CONSUMERS, m) && sk in m.world.secrets
    ensures m.world.secrets[sk].Id() == sk
  {
    hide RegsOk, ServicesOk, PcOk;
  }

  lemma DeleteIsLegal(cfg: Config, m: Machine, a: Event, b: Event, d: Draw)
    requires m.pc.DeletingPrevious? && a.User? && b.User?
    ensures Legal(CONSUMERS, Step(cfg, Step(cfg, m, a), b), Call(Answered, d))
    ensures Legal(CONSUMERS, Step(cfg, m, a), Call(Answered, d))
  {
    hide Apply;
  }

  // A user takes the reference back, and the operator deletes the Secret that the registration asks for.
  lemma AskedBackHappens(cfg: Config) returns (es: seq<Event>)
    ensures LegalRun(cfg, CONSUMERS, INSTALLATION, es) && |es| > 0
    ensures var before, after := Run(cfg, INSTALLATION, es[..|es| - 1]).world, Run(cfg, INSTALLATION, es).world;
      es[|es| - 1].Call? && APP in before.regs && ResolvedKey(before.regs[APP]) == Some(GENERATED) &&
      GENERATED in before.secrets && GENERATED !in after.secrets
  {
    hide Run, LegalRun, Inv, Legal, Step, OwnStored, ResolvedKey, Races;
    var start := DeletingRun(cfg);
    var m := Run(cfg, INSTALLATION, start);
    var d := Draw(0, true, []);
    var k := m.pc.job.obj.Id();
    AskedBackIsDeleted(CONSUMERS, cfg, m, d);
    var back := User(EditReg(m.world.regs[k].(spec :=
      m.world.regs[k].spec.(secretRef := Some(TrimSpace(m.pc.job.prev))))));
    LegalRunThen(cfg, CONSUMERS, INSTALLATION, start, back);
    var asked := start + [back];
    DeleteIsLegal(cfg, m, back, back, d);
    LegalRunThen(cfg, CONSUMERS, INSTALLATION, asked, Call(Answered, d));
    es := asked + [Call(Answered, d)];
    assert es[..|es| - 1] == asked;
  }
}
