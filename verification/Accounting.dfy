// Which Secrets a registration controls: the one its status points to, unless a run was cut short.
module Accounting {
  import opened Wrappers
  import opened GoStrings
  import opened Domain
  import opened Registry
  import opened Mapper
  import opened Cluster
  import opened World
  import opened Worker
  import opened Invariant
  import opened Steps
  import opened SecretSafety

  predicate Owns(reg: Reg, secret: Secret) {
    IsControlledBy(secret, reg)
  }

  // The Secret status.resolvedSecretRef points to.
  function Pointed(reg: Reg): Key {
    Key(reg.namespace, reg.status.resolvedSecretRef)
  }

  // The run at `pc` has moved the pointer of registration `k` and still has to clean up this Secret.
  predicate Pending(pc: Pc, k: Key, sk: Key) {
    match pc
    case ReadingSecret(job, _) => job.obj.Id() == k && job.Previous() == sk
    case CreatingSecret(job, _) => job.obj.Id() == k && job.Previous() == sk
    case UpdatingSecret(job, _, _) => job.obj.Id() == k && job.Previous() == sk
    case ReadingPrevious(job) => job.obj.Id() == k && job.Previous() == sk
    case DeletingPrevious(job, _) => job.obj.Id() == k && job.Previous() == sk
    case _ => false
  }

  ghost predicate OwnsOnly(w: State, pc: Pc, k: Key)
    requires k in w.regs
  {
    forall sk | sk in w.secrets && Owns(w.regs[k], w.secrets[sk]) :: sk == Pointed(w.regs[k]) || Pending(pc, k, sk)
  }

  // Every Secret that this registration controls is accounted for.
  ghost predicate AccountedFor(m: Machine, k: Key) {
    k in m.world.regs ==> OwnsOnly(m.world, m.pc, k) && Trimmed(m.world.regs[k].status.resolvedSecretRef)
  }

  // No Secret is controlled by a registration that does not exist yet, and those of registrations have names.
  ghost predicate Bounded(w: State) {
    (forall sk | sk in w.secrets && w.secrets[sk].controller.Some? :: w.secrets[sk].controller.value.uid < w.nextUid) &&
    (forall sk | sk in w.secrets && w.secrets[sk].controller.Some? && w.secrets[sk].controller.value.uid >= 0 ::
      sk.name != "")
  }

  // ---- Leaks ----

  predicate Controls(w: State, k: Key, sk: Key) {
    k in w.regs && sk in w.secrets && Owns(w.regs[k], w.secrets[sk])
  }

  // The Secret that the reconcile at `pc` is about to lose sight of, or has still to clean up.
  function Stake(pc: Pc): Option<Key> {
    match pc
    case Patching(base, _, next) =>
      if next.ClearedRef? then Some(Pointed(base))
      else if next.ResolvedRef? && HasObsolete(next.job) then Some(next.job.Previous())
      else None
    case ReadingSecret(job, _) => if HasObsolete(job) then Some(job.Previous()) else None
    case CreatingSecret(job, _) => if HasObsolete(job) then Some(job.Previous()) else None
    case UpdatingSecret(job, _, _) => if HasObsolete(job) then Some(job.Previous()) else None
    case ReadingPrevious(job) => Some(job.Previous())
    case DeletingPrevious(job, _) => Some(job.Previous())
    case _ => None
  }

  // The step gives it up: status.resolvedSecretRef is cleared because the spec is invalid, or the reconcile ends
  // between moving that pointer and having dealt with the obsolete Secret.
  predicate GivesUp(m: Machine, e: Event) {
    match m.pc
    case Patching(_, _, next) => e.Call? && !e.outcome.Refused? && (next.ClearedRef? || e.outcome.Lost?)
    case ReadingPrevious(_) => e.Crash? || (e.Call? && !e.outcome.Answered?)
    case DeletingPrevious(_, _) => e.Crash? || (e.Call? && e.outcome.Refused?)
    case _ => e.Crash? || (e.Call? && (!e.outcome.Answered? || Refuses(m.world, m.pc)))
  }

  // A Secret step that fails although its call is answered: another controls the generated Secret; a Secret of the name
  // has appeared; it is gone, has changed since it was read, or would change its type.
  predicate Refuses(w: State, pc: Pc) {
    match pc
    case ReadingSecret(job, _) =>
      job.managed && job.Target() in w.secrets && SetControllerReference(job.obj, w.secrets[job.Target()]).Err?
    case CreatingSecret(_, desired) => desired.Id() in w.secrets
    case UpdatingSecret(_, read, merged) =>
      merged.Id() !in w.secrets || w.secrets[merged.Id()] != read || merged.stype != read.stype
    case _ => false
  }

  // The registration controls the Secret at stake, and the step gives it up.
  predicate Leak(m: Machine, e: Event, k: Key) {
    ObjAt(m.pc).Some? && ObjAt(m.pc).value.Id() == k && Stake(m.pc).Some? && Controls(m.world, k, Stake(m.pc).value) &&
    GivesUp(m, e)
  }

  predicate LeakFree(cfg: Config, m: Machine, es: seq<Event>, k: Key)
    decreases |es|
  {
    es == [] || (!Leak(m, es[0], k) && LeakFree(cfg, Step(cfg, m, es[0]), es[1..], k))
  }

  // ---- Others ----

  lemma UserKeepsController(managed: set<string>, w: State, a: UserAct, sk: Key)
    requires LegalUser(managed, w, a) && sk in Apply(w, a).secrets && Apply(w, a).secrets[sk].controller.Some?
    ensures (sk in w.secrets && w.secrets[sk].controller == Apply(w, a).secrets[sk].controller) ||
            Apply(w, a).secrets[sk].controller.value.uid < 0
  {
    hide Valid, ByConsumer;
  }

  lemma UserKeepsUids(w: State, a: UserAct)
    ensures w.nextUid <= Apply(w, a).nextUid
  {
  }

  lemma UserKeepsBounded(managed: set<string>, w: State, a: UserAct)
    requires LegalUser(managed, w, a) && Bounded(w)
    ensures Bounded(Apply(w, a))
  {
    hide Apply, LegalUser;
    var w' := Apply(w, a);
    UserKeepsUids(w, a);
    forall sk | sk in w'.secrets && w'.secrets[sk].controller.Some?
      ensures w'.secrets[sk].controller.value.uid < w'.nextUid &&
              (w'.secrets[sk].controller.value.uid >= 0 ==> sk.name != "")
    {
      UserKeepsController(managed, w, a, sk);
    }
  }

  lemma UserKeepsAccounted(managed: set<string>, m: Machine, a: UserAct, k: Key)
    requires RegsOk(managed, m.world) && Bounded(m.world) && AccountedFor(m, k) && LegalUser(managed, m.world, a)
    ensures AccountedFor(m.(world := Apply(m.world, a)), k)
  {
    hide Apply, LegalUser, ConditionsOk;
    var w, w' := m.world, Apply(m.world, a);
    if k in w'.regs {
      UserKeepsPointer(managed, w, a, k);
      forall sk | sk in w'.secrets && Owns(w'.regs[k], w'.secrets[sk])
        ensures sk == Pointed(w'.regs[k]) || Pending(m.pc, k, sk)
      {
        UserKeepsController(managed, w, a, sk);
      }
    }
  }

  // A registration after somebody else's act is an old one with its pointer, or new.
  lemma UserKeepsPointer(managed: set<string>, w: State, a: UserAct, k: Key)
    requires RegsOk(managed, w) && k in Apply(w, a).regs
    ensures var reg := Apply(w, a).regs[k];
      if k in w.regs then
        reg.uid == w.regs[k].uid && reg.status == w.regs[k].status && reg.namespace == w.regs[k].namespace
      else reg.uid == w.nextUid && reg.status.resolvedSecretRef == ""
  {
    hide RegOk;
  }

  // ---- Calls ----

  // Which Secrets a registration owns after a call.
  lemma OwnedAfterCall(managed: set<string>, m: Machine, o: Outcome, d: Draw, sk: Key)
    requires Inv(managed, m) && !m.pc.Idle?
    ensures var w' := Serve(m.world, RequestAt(m.pc), o, d).0;
      sk in w'.secrets ==>
        (sk in m.world.secrets && w'.secrets[sk].controller == m.world.secrets[sk].controller) ||
        ((m.pc.CreatingSecret? || m.pc.UpdatingSecret?) && sk == m.pc.job.Target() &&
         w'.secrets[sk].controller == Some(OwnerFor(m.pc.job.obj)))
  {
    hide Serve, WorldOk, FindingsOk;
    if sk in m.world.secrets { OwnerAfterCall(managed, m, o, d, sk); SecretAfterCall(managed, m, o, d, sk); }
    else { NewSecretAfterCall(managed, m, o, d, sk); }
  }

  lemma TargetNamed(managed: set<string>, m: Machine)
    requires Inv(managed, m) && (m.pc.CreatingSecret? || m.pc.UpdatingSecret?)
    ensures m.pc.job.name != ""
  {
    hide WorldOk, UpdateOk;
  }

  lemma CallKeepsBounded(managed: set<string>, cfg: Config, m: Machine, o: Outcome, d: Draw)
    requires Inv(managed, m) && !m.pc.Idle? && Bounded(m.world)
    ensures Bounded(Serve(m.world, RequestAt(m.pc), o, d).0)
  {
    hide Serve, Inv, OwnsOnly;
    var w' := Serve(m.world, RequestAt(m.pc), o, d).0;
    ServeFrame(m.world, RequestAt(m.pc), o, d);
    if ObjAt(m.pc).Some? { LiveUid(managed, m); }
    if m.pc.CreatingSecret? || m.pc.UpdatingSecret? { TargetNamed(managed, m); }
    forall sk | sk in w'.secrets && w'.secrets[sk].controller.Some?
      ensures w'.secrets[sk].controller.value.uid < w'.nextUid &&
              (w'.secrets[sk].controller.value.uid >= 0 ==> sk.name != "")
    {
      OwnedAfterCall(managed, m, o, d, sk);
    }
  }

  lemma OtherKeepsOwns(managed: set<string>, cfg: Config, m: Machine, o: Outcome, d: Draw, k: Key, pc': Pc)
    requires Inv(managed, m) && !m.pc.Idle? && Bounded(m.world) && AccountedFor(m, k)
    requires k in Serve(m.world, RequestAt(m.pc), o, d).0.regs && (ObjAt(m.pc).Some? ==> ObjAt(m.pc).value.Id() != k)
    ensures OwnsOnly(Serve(m.world, RequestAt(m.pc), o, d).0, pc', k)
  {
    hide Serve, FindingsOk, ServicesOk, SecretsOk;
    var w' := Serve(m.world, RequestAt(m.pc), o, d).0;
    RegAfterKey(managed, m, o, d, k);
    assert OwnsOnly(m.world, m.pc, k);
    forall sk | sk in w'.secrets && Owns(w'.regs[k], w'.secrets[sk])
      ensures sk == Pointed(w'.regs[k])
    {
      OwnedAfterCall(managed, m, o, d, sk);
    }
  }

  // Calls keep uid, name and namespace, and only a patch moves the pointer.
  lemma RegAfterKey(managed: set<string>, m: Machine, o: Outcome, d: Draw, k: Key)
    requires Inv(managed, m) && !m.pc.Idle? && k in Serve(m.world, RequestAt(m.pc), o, d).0.regs
    ensures k in m.world.regs
    ensures var reg, reg' := m.world.regs[k], Serve(m.world, RequestAt(m.pc), o, d).0.regs[k];
      reg'.uid == reg.uid && reg'.namespace == reg.namespace &&
      (!(m.pc.Patching? && m.pc.base.Id() == k) ==> reg'.status == reg.status)
  {
    hide Serve, Inv;
    NoNewRegs(m, o, d);
    RegAfterInv(managed, m, o, d, k);
  }

  // The run's own registration, away from patches and the Secret steps.
  lemma QuietKeepsOwns(managed: set<string>, m: Machine, o: Outcome, d: Draw, k: Key, pc': Pc)
    requires Inv(managed, m) && !m.pc.Idle? && Bounded(m.world) && AccountedFor(m, k) &&
             k in Serve(m.world, RequestAt(m.pc), o, d).0.regs
    requires !m.pc.Patching? && !m.pc.ReadingSecret? && !m.pc.CreatingSecret? && !m.pc.UpdatingSecret?
          && !m.pc.ReadingPrevious? && !m.pc.DeletingPrevious?
    ensures OwnsOnly(Serve(m.world, RequestAt(m.pc), o, d).0, pc', k)
  {
    hide Serve, Inv;
    var w' := Serve(m.world, RequestAt(m.pc), o, d).0;
    RegAfterKey(managed, m, o, d, k);
    assert OwnsOnly(m.world, m.pc, k);
    forall sk | sk in w'.secrets && Owns(w'.regs[k], w'.secrets[sk])
      ensures sk == Pointed(w'.regs[k])
    {
      OwnedAfterCall(managed, m, o, d, sk);
    }
  }

  lemma PatchKeepsOwns(managed: set<string>, cfg: Config, m: Machine, o: Outcome, d: Draw, k: Key)
    requires RegsOk(managed, m.world) && PcOk(managed, m.world, m.pc) && Bounded(m.world) && AccountedFor(m, k) &&
             m.pc.Patching? && k == m.pc.base.Id()
    requires !Leak(m, Call(o, d), k)
    ensures var m' := After(cfg, m.world, m.pc, o, d);
      k in m'.world.regs && OwnsOnly(m'.world, m'.pc, k) && Trimmed(m'.world.regs[k].status.resolvedSecretRef)
  {
    hide After, Block, InvalidPublishedPc, InvalidCompletedPc, Succeed, ConditionsOk, ResolveSecretName, TrimSpace;
    var m' := After(cfg, m.world, m.pc, o, d);
    AtPatching(cfg, m.world, m.pc, o, d);
    assert OwnsOnly(m.world, m.pc, k);
    assert m.pc.next.ResolvedRef? ==> JobOk(m.pc.next.job);
    TrimTrimmed(m.world.regs[k].status.resolvedSecretRef);
  }

  lemma TrimTrimmed(s: string)
    requires Trimmed(s)
    ensures TrimSpace(s) == s
  {
  }

  // The run's own registration while its Secret is written and the obsolete one removed.
  lemma TargetPointed(managed: set<string>, m: Machine)
    requires Inv(managed, m) && (m.pc.ReadingSecret? || m.pc.CreatingSecret? || m.pc.UpdatingSecret?)
    ensures var k := m.pc.job.obj.Id();
      k in m.world.regs && m.pc.job.Target() == Pointed(m.world.regs[k]) && m.world.regs[k].uid >= 0
  {
    hide ServicesOk, SecretsOk, FindingsOk, UpdateOk, ConditionsOk;
  }

  lemma SecretKeepsOwns(managed: set<string>, cfg: Config, m: Machine, o: Outcome, d: Draw, k: Key)
    requires m.pc.ReadingSecret? || m.pc.CreatingSecret? || m.pc.UpdatingSecret?
    requires k == m.pc.job.obj.Id() && k in After(cfg, m.world, m.pc, o, d).world.regs
    requires Inv(managed, m) && Bounded(m.world) && AccountedFor(m, k)
    requires !Leak(m, Call(o, d), k)
    ensures var m' := After(cfg, m.world, m.pc, o, d); OwnsOnly(m'.world, m'.pc, k)
  {
    hide After, Serve, Inv;
    var m' := After(cfg, m.world, m.pc, o, d);
    WorldAfter(cfg, m.world, m.pc, o, d);
    RegAfterKey(managed, m, o, d, k);
    SecretPcAfter(cfg, m.world, m.pc, o, d);
    if HasObsolete(m.pc.job) { SecretEnds(managed, cfg, m, o, d); }
    TargetPointed(managed, m);
    assert OwnsOnly(m.world, m.pc, k);
    forall sk | sk in m'.world.secrets && Owns(m'.world.regs[k], m'.world.secrets[sk])
      ensures sk == Pointed(m'.world.regs[k]) || Pending(m'.pc, k, sk)
    {
      OwnedAfterCall(managed, m, o, d, sk);
    }
  }

  // The Secret steps go on with the same job or end.
  lemma SecretPcAfter(cfg: Config, w: State, pc: Pc, o: Outcome, d: Draw)
    requires pc.ReadingSecret? || pc.CreatingSecret? || pc.UpdatingSecret?
    ensures var pc' := After(cfg, w, pc, o, d).pc;
      (pc'.CreatingSecret? ==> pc'.job == pc.job) && (pc'.UpdatingSecret? ==> pc'.job == pc.job) &&
        (pc'.ReadingPrevious? ==> pc'.job == pc.job)
  {
    hide After, SecretFailed, CleanUp, GetRegistrationData;
    if pc.ReadingSecret? { AtReadingSecret(cfg, w, pc, o, d); }
    else if pc.CreatingSecret? { AtCreatingSecret(cfg, w, pc, o, d); }
    else { AtUpdatingSecret(cfg, w, pc, o, d); }
  }

  lemma CleanUpKeepsOwns(managed: set<string>, cfg: Config, m: Machine, o: Outcome, d: Draw, k: Key)
    requires m.pc.ReadingPrevious? || m.pc.DeletingPrevious?
    requires RegsOk(managed, m.world) && PcOk(managed, m.world, m.pc) && Bounded(m.world) && AccountedFor(m, k) &&
             k == m.pc.job.obj.Id()
    requires !Leak(m, Call(o, d), k)
    ensures var m' := After(cfg, m.world, m.pc, o, d); k in m'.world.regs && OwnsOnly(m'.world, m'.pc, k)
  {
    hide After, Publish, TrimSpace, ConditionsOk;
    assert OwnsOnly(m.world, m.pc, k);
    if m.pc.ReadingPrevious? {
      AtReadingPrevious(cfg, m.world, m.pc, o, d);
    } else {
      AtDeletingPrevious(cfg, m.world, m.pc, o, d);
    }
  }

  lemma CallKeepsOwns(managed: set<string>, cfg: Config, m: Machine, o: Outcome, d: Draw, k: Key)
    requires !m.pc.Idle? && k in After(cfg, m.world, m.pc, o, d).world.regs
    requires Inv(managed, m) && Bounded(m.world) && AccountedFor(m, k) && !Leak(m, Call(o, d), k)
    ensures var m' := After(cfg, m.world, m.pc, o, d);
      OwnsOnly(m'.world, m'.pc, k) && Trimmed(m'.world.regs[k].status.resolvedSecretRef)
  {
    hide After, Serve, OwnsOnly, Anchored, ServicesOk, SecretsOk, LocalsOk, FindingsOk;
    var m' := After(cfg, m.world, m.pc, o, d);
    WorldAfter(cfg, m.world, m.pc, o, d);
    RegAfterKey(managed, m, o, d, k);
    if ObjAt(m.pc).Some? && ObjAt(m.pc).value.Id() != k {
      OtherKeepsOwns(managed, cfg, m, o, d, k, m'.pc);
    } else if m.pc.Patching? {
      PatchKeepsOwns(managed, cfg, m, o, d, k);
    } else if m.pc.ReadingSecret? || m.pc.CreatingSecret? || m.pc.UpdatingSecret? {
      SecretKeepsOwns(managed, cfg, m, o, d, k);
    } else if m.pc.ReadingPrevious? || m.pc.DeletingPrevious? {
      CleanUpKeepsOwns(managed, cfg, m, o, d, k);
    } else {
      QuietKeepsOwns(managed, m, o, d, k, m'.pc);
    }
  }

  // A crash in the middle is harmless unless something is pending.
  lemma CrashKeepsOwns(managed: set<string>, cfg: Config, m: Machine, k: Key, pc: Pc)
    requires RegsOk(managed, m.world) && PcOk(managed, m.world, m.pc) && Bounded(m.world) && AccountedFor(m, k) &&
             k in m.world.regs
    requires !Leak(m, Crash, k)
    ensures OwnsOnly(m.world, pc, k)
  {
    hide FindingsOk, ResolveSecretName, ConditionsOk, TrimSpace;
    assert OwnsOnly(m.world, m.pc, k) && m.world.regs[k].uid >= 0;
  }

  lemma StepKeepsBounded(managed: set<string>, cfg: Config, m: Machine, e: Event)
    requires Inv(managed, m) && Legal(managed, m, e) && Bounded(m.world)
    ensures Bounded(Step(cfg, m, e).world)
  {
    hide Serve, Resume, Bounded, Apply, Inv, LegalUser;
    match e
    case User(a) => UserKeepsBounded(managed, m.world, a);
    case Call(o, d) =>
      if !m.pc.Idle? { CallKeepsBounded(managed, cfg, m, o, d); }
    case _ =>
  }

  lemma StepKeepsAccounted(managed: set<string>, cfg: Config, m: Machine, e: Event, k: Key)
    requires Inv(managed, m) && Legal(managed, m, e) && Bounded(m.world) && AccountedFor(m, k) && !Leak(m, e, k)
    ensures AccountedFor(Step(cfg, m, e), k)
  {
    hide After, OwnsOnly, PcOk, Apply, RegsOk, ServicesOk, SecretsOk, Leak, Bounded;
    match e
    case User(a) => UserKeepsAccounted(managed, m, a, k);
    case Call(o, d) =>
      if !m.pc.Idle? && k in After(cfg, m.world, m.pc, o, d).world.regs { CallKeepsOwns(managed, cfg, m, o, d, k); }
    case Start(key) =>
      if m.pc.Idle? { IdleAccounted(m, Loading(key), k); }
    case Crash =>
      if k in m.world.regs { CrashKeepsOwns(managed, cfg, m, k, Idle(Some("crashed"))); }
  }

  lemma IdleAccounted(m: Machine, pc: Pc, k: Key)
    requires m.pc.Idle? && AccountedFor(m, k)
    ensures AccountedFor(m.(pc := pc), k)
  {
    hide Trimmed;
    if k in m.world.regs { assert OwnsOnly(m.world, m.pc, k); }
  }

  // ---- A leak does leave a Secret behind ----

  // The registration controls the Secret, but neither its status nor the running reconcile knows of it.
  ghost predicate LeftBehind(m: Machine, k: Key, sk: Key) {
    Controls(m.world, k, sk) && sk != Pointed(m.world.regs[k]) && !Pending(m.pc, k, sk)
  }

  lemma LeftBehindIsNot(m: Machine, k: Key, sk: Key)
    requires LeftBehind(m, k, sk)
    ensures !AccountedFor(m, k)
  {
  }

  lemma PatchLeaks(managed: set<string>, cfg: Config, m: Machine, o: Outcome, d: Draw, k: Key)
    requires Inv(managed, m) && m.pc.Patching? && Bounded(m.world) && AccountedFor(m, k) && Leak(m, Call(o, d), k)
    ensures LeftBehind(After(cfg, m.world, m.pc, o, d), k, Stake(m.pc).value)
  {
    hide After, InvalidPublishedPc, ConditionsOk, ServicesOk, FindingsOk, ResolveSecretName, TrimSpace;
    AtPatching(cfg, m.world, m.pc, o, d);
    var m' := After(cfg, m.world, m.pc, o, d);
    var sk := Stake(m.pc).value;
    assert m.world.regs[k].uid >= 0;
    assert sk in m'.world.secrets && Owns(m'.world.regs[k], m'.world.secrets[sk]);
  }

  lemma SecretLeaks(managed: set<string>, cfg: Config, m: Machine, o: Outcome, d: Draw, k: Key)
    requires Inv(managed, m) && (m.pc.ReadingSecret? || m.pc.CreatingSecret? || m.pc.UpdatingSecret?)
    requires Leak(m, Call(o, d), k)
    ensures LeftBehind(After(cfg, m.world, m.pc, o, d), k, Stake(m.pc).value)
  {
    hide After, Serve, Inv, TrimSpace;
    var m' := After(cfg, m.world, m.pc, o, d);
    var sk := m.pc.job.Previous();
    TargetPointed(managed, m);
    WorldAfter(cfg, m.world, m.pc, o, d);
    RegStays(managed, m, o, d, k);
    SecretAfterCall(managed, m, o, d, sk);
    assert sk in m'.world.secrets && Owns(m'.world.regs[k], m'.world.secrets[sk]);
    SecretEnds(managed, cfg, m, o, d);
  }

  lemma RegStays(managed: set<string>, m: Machine, o: Outcome, d: Draw, k: Key)
    requires Inv(managed, m) && !m.pc.Idle? && !WritesReg(m.pc) && k in m.world.regs
    ensures var w' := Serve(m.world, RequestAt(m.pc), o, d).0; k in w'.regs && w'.regs[k] == m.world.regs[k]
  {
    hide Serve, Inv;
    RegAfterInv(managed, m, o, d, k);
  }

  // A Secret step goes on to the next one, or to the cleanup, unless its call fails or it refuses.
  lemma SecretEnds(managed: set<string>, cfg: Config, m: Machine, o: Outcome, d: Draw)
    requires Inv(managed, m) && (m.pc.ReadingSecret? || m.pc.CreatingSecret? || m.pc.UpdatingSecret?) &&
             HasObsolete(m.pc.job)
    ensures var pc' := After(cfg, m.world, m.pc, o, d).pc;
      !pc'.ReadingSecret? && !pc'.DeletingPrevious? &&
      (GivesUp(m, Call(o, d)) <==> !pc'.CreatingSecret? && !pc'.UpdatingSecret? && !pc'.ReadingPrevious?)
  {
    hide After, SecretFailed, GetRegistrationData, Inv, TrimSpace, Publish;
    if m.pc.ReadingSecret? { AtReadingSecret(cfg, m.world, m.pc, o, d); }
    else if m.pc.CreatingSecret? { AtCreatingSecret(cfg, m.world, m.pc, o, d); }
    else { AtUpdatingSecret(cfg, m.world, m.pc, o, d); }
  }

  lemma CleanUpLeaks(managed: set<string>, cfg: Config, m: Machine, o: Outcome, d: Draw, k: Key)
    requires Inv(managed, m) && (m.pc.ReadingPrevious? || m.pc.DeletingPrevious?) && Leak(m, Call(o, d), k)
    ensures LeftBehind(After(cfg, m.world, m.pc, o, d), k, Stake(m.pc).value)
  {
    hide After, ConditionsOk, ServicesOk, FindingsOk, TrimSpace;
    if m.pc.ReadingPrevious? {
      AtReadingPrevious(cfg, m.world, m.pc, o, d);
    } else {
      AtDeletingPrevious(cfg, m.world, m.pc, o, d);
    }
    var sk := m.pc.job.Previous();
    assert sk in m.world.secrets && Owns(m.world.regs[k], m.world.secrets[sk]);
  }

  lemma CrashLeaks(managed: set<string>, cfg: Config, m: Machine, k: Key)
    requires Inv(managed, m) && Leak(m, Crash, k)
    ensures LeftBehind(Step(cfg, m, Crash), k, Stake(m.pc).value)
  {
    hide After, ConditionsOk, ServicesOk, FindingsOk, TrimSpace, UpdateOk;
    var sk := m.pc.job.Previous();
    assert sk in m.world.secrets && Owns(m.world.regs[k], m.world.secrets[sk]);
  }

  // The Secret at stake is what stays behind.
  lemma StepLeaks(managed: set<string>, cfg: Config, m: Machine, e: Event, k: Key)
    requires Inv(managed, m) && Bounded(m.world) && AccountedFor(m, k) && Leak(m, e, k)
    ensures LeftBehind(Step(cfg, m, e), k, Stake(m.pc).value)
  {
    hide After, OwnsOnly, Inv, Bounded, AccountedFor, Controls, ObjAt, LeftBehind;
    match e
    case Crash => CrashLeaks(managed, cfg, m, k);
    case Call(o, d) =>
      if m.pc.Patching? { PatchLeaks(managed, cfg, m, o, d, k); }
      else if m.pc.ReadingPrevious? || m.pc.DeletingPrevious? { CleanUpLeaks(managed, cfg, m, o, d, k); }
      else { SecretLeaks(managed, cfg, m, o, d, k); }
    case _ =>
  }

  // A step leaves a Secret of a registration behind, one that it controls and neither its status points to nor the
  // running reconcile is about to clean up, if and only if it is a leak of that registration.
  lemma LeftBehindIffLeak(managed: set<string>, cfg: Config, m: Machine, e: Event, k: Key)
    requires Inv(managed, m) && Legal(managed, m, e) && Bounded(m.world) && AccountedFor(m, k)
    ensures Bounded(Step(cfg, m, e).world) && (AccountedFor(Step(cfg, m, e), k) <==> !Leak(m, e, k))
  {
    hide Inv, Legal, Bounded, AccountedFor, Controls, GivesUp, Step, LeftBehind;
    StepKeepsBounded(managed, cfg, m, e);
    if Leak(m, e, k) {
      StepLeaks(managed, cfg, m, e, k);
      LeftBehindIsNot(Step(cfg, m, e), k, Stake(m.pc).value);
    } else { StepKeepsAccounted(managed, cfg, m, e, k); }
  }

  // In a run without a leak of a registration, whatever happens to others, every Secret it controls is the one its
  // status points to, or one that the running reconcile is about to clean up.
  lemma {:induction false} OwnedSecretsAccounted(managed: set<string>, cfg: Config, m: Machine, es: seq<Event>, k: Key)
    requires Inv(managed, m) && LegalRun(cfg, managed, m, es) && Bounded(m.world) && AccountedFor(m, k) &&
             LeakFree(cfg, m, es, k)
    ensures Bounded(Run(cfg, m, es).world) && AccountedFor(Run(cfg, m, es), k)
    decreases |es|
  {
    hide Inv, Bounded, AccountedFor, Step, Leak, Legal;
    if es != [] {
      StepKeepsInv(managed, cfg, m, es[0]);
      LeftBehindIffLeak(managed, cfg, m, es[0], k);
      OwnedSecretsAccounted(managed, cfg, Step(cfg, m, es[0]), es[1..], k);
    }
  }

  // Between reconciles, that is at most one Secret per registration.
  lemma BetweenReconciles(managed: set<string>, cfg: Config, m: Machine, es: seq<Event>, k: Key, sk: Key)
    requires Inv(managed, m) && LegalRun(cfg, managed, m, es) && Bounded(m.world) && AccountedFor(m, k) &&
             LeakFree(cfg, m, es, k)
    requires var m' := Run(cfg, m, es); m'.pc.Idle? && Controls(m'.world, k, sk)
    ensures sk == Pointed(Run(cfg, m, es).world.regs[k])
  {
    hide Inv, LegalRun, LeakFree, Run, Owns, Bounded;
    OwnedSecretsAccounted(managed, cfg, m, es, k);
    assert OwnsOnly(Run(cfg, m, es).world, Run(cfg, m, es).pc, k);
  }
}
