// Whether the Secret that a reconcile deletes as obsolete is still obsolete when the call is made. Users may edit the
// registration while its reconcile is under way.
module Obsolete {
  import opened Wrappers
  import opened GoStrings
  import opened Base64
  import opened Domain
  import opened Mapper
  import opened Registry
  import opened Cluster
  import opened World
  import opened Worker
  import opened Steps
  import opened Invariant
  import opened SecretSafety

  predicate JobOf(job: Job, k: Key, name: string, prev: string) {
    job.obj.Id() == k && job.name == name && job.prev == prev
  }

  // A reconcile of `k` that resolved the registration to `name` and found `prev` in its status, or none.
  predicate Follows(pc: Pc, k: Key, name: string, prev: string) {
    match pc
    case Idle(_) => true
    case ReadingData(job) => JobOf(job, k, name, prev)
    case Listing(job, _) => JobOf(job, k, name, prev)
    case Generating(job, _) => JobOf(job, k, name, prev)
    case ReadingFqdn(job, _, _) => JobOf(job, k, name, prev)
    case Writing(job, _, _, _) => JobOf(job, k, name, prev)
    case ReadingFqdnAgain(job, _, _) => JobOf(job, k, name, prev)
    case Patching(base, _, next) => base.Id() == k && (next.ResolvedRef? ==> JobOf(next.job, k, name, prev))
    case ReadingSecret(job, _) => JobOf(job, k, name, prev)
    case CreatingSecret(job, _) => JobOf(job, k, name, prev)
    case UpdatingSecret(job, _, _) => JobOf(job, k, name, prev)
    case ReadingPrevious(job) => JobOf(job, k, name, prev)
    case DeletingPrevious(job, _) => JobOf(job, k, name, prev)
    case _ => false
  }

  lemma ServiceFollows(cfg: Config, w: State, pc: Pc, o: Outcome, d: Draw, k: Key, name: string, prev: string)
    requires pc.ReadingData? || pc.Listing? || pc.Generating? || pc.ReadingFqdn? || pc.Writing? || pc.ReadingFqdnAgain?
    requires Follows(pc, k, name, prev)
    ensures Follows(After(cfg, w, pc, o, d).pc, k, name, prev)
  {
    hide After, RegistrationFailed, BuildServicePayload, BuildRegistrationResult, ClientSecret, ValidateRegistration,
         FindServiceByConsumer, Encode;
    if pc.ReadingData? { AtReadingData(cfg, w, pc, o, d); }
    else if pc.Listing? { AtListing(cfg, w, pc, o, d); }
    else if pc.Generating? { AtGenerating(cfg, w, pc, o, d); }
    else if pc.ReadingFqdn? { AtReadingFqdn(cfg, w, pc, o, d); }
    else if pc.Writing? { AtWriting(cfg, w, pc, o, d); }
    else { AtReadingFqdnAgain(cfg, w, pc, o, d); }
  }

  lemma PatchFollows(managed: set<string>, cfg: Config, w: State, pc: Pc, o: Outcome, d: Draw, k: Key, name: string,
      prev: string)
    requires pc.Patching? && RegsOk(managed, w) && PcOk(managed, w, pc) && Follows(pc, k, name, prev)
    ensures Follows(After(cfg, w, pc, o, d).pc, k, name, prev)
  {
    hide After, Succeed, Block, InvalidPublishedPc, InvalidCompletedPc, ConditionsOk;
    AtPatching(cfg, w, pc, o, d);
  }

  lemma SecretFollows(cfg: Config, w: State, pc: Pc, o: Outcome, d: Draw, k: Key, name: string, prev: string)
    requires (pc.ReadingSecret? || pc.CreatingSecret? || pc.UpdatingSecret?) && Follows(pc, k, name, prev)
    ensures Follows(After(cfg, w, pc, o, d).pc, k, name, prev)
  {
    hide After, SecretFailed, CleanUp, GetRegistrationData, SetControllerReference, Merge;
    if pc.ReadingSecret? { AtReadingSecret(cfg, w, pc, o, d); }
    else if pc.CreatingSecret? { AtCreatingSecret(cfg, w, pc, o, d); }
    else { AtUpdatingSecret(cfg, w, pc, o, d); }
  }

  lemma CleanUpFollows(cfg: Config, w: State, pc: Pc, o: Outcome, d: Draw, k: Key, name: string, prev: string)
    requires (pc.ReadingPrevious? || pc.DeletingPrevious?) && Follows(pc, k, name, prev)
    ensures Follows(After(cfg, w, pc, o, d).pc, k, name, prev)
  {
    hide After, Publish;
    if pc.ReadingPrevious? { AtReadingPrevious(cfg, w, pc, o, d); } else { AtDeletingPrevious(cfg, w, pc, o, d); }
  }

  lemma CallFollows(managed: set<string>, cfg: Config, m: Machine, o: Outcome, d: Draw, k: Key, name: string,
      prev: string)
    requires Inv(managed, m) && !m.pc.Idle? && Follows(m.pc, k, name, prev)
    ensures Follows(After(cfg, m.world, m.pc, o, d).pc, k, name, prev)
  {
    hide After, PcOk, SecretsOk, ServicesOk;
    var w, pc := m.world, m.pc;
    if pc.Patching? { PatchFollows(managed, cfg, w, pc, o, d, k, name, prev); }
    else if pc.ReadingSecret? || pc.CreatingSecret? || pc.UpdatingSecret? {
      SecretFollows(cfg, w, pc, o, d, k, name, prev);
    }
    else if pc.ReadingPrevious? || pc.DeletingPrevious? { CleanUpFollows(cfg, w, pc, o, d, k, name, prev); }
    else { ServiceFollows(cfg, w, pc, o, d, k, name, prev); }
  }

  // ---- What users asked for meanwhile ----

  // The spec of the last edit of the registration, if there is one.
  function LastEdit(es: seq<Event>, k: Key): Option<Spec> {
    if es == [] then None
    else
      var later := LastEdit(es[1..], k);
      if later.Some? then later
      else if es[0].User? && es[0].act.EditReg? && es[0].act.reg.Id() == k then Some(es[0].act.reg.spec)
      else None
  }

  // A registration of this name and spec resolves to this Secret.
  predicate AsksFor(name: string, spec: Spec, secret: string) {
    match spec.secretRef
    case None => name + GENERATED_SUFFIX == secret
    case Some(ref) => !Blank(ref) && TrimSpace(ref) == secret
  }

  ghost predicate SpecIs(w: State, k: Key, spec: Spec) {
    k in w.regs && w.regs[k].Id() == k && HasFinalizer(w.regs[k]) && w.regs[k].spec == spec
  }

  lemma UserKeepsSpec(managed: set<string>, w: State, a: UserAct, k: Key, spec: Spec)
    requires LegalUser(managed, w, a) && SpecIs(w, k, spec)
    ensures SpecIs(Apply(w, a), k, if a.EditReg? && a.reg.Id() == k then a.reg.spec else spec)
  {
  }

  lemma CallKeepsSpec(managed: set<string>, m: Machine, o: Outcome, d: Draw, k: Key, spec: Spec)
    requires Inv(managed, m) && !m.pc.Idle? && !m.pc.Unfinalizing? && SpecIs(m.world, k, spec)
    ensures SpecIs(Serve(m.world, RequestAt(m.pc), o, d).0, k, spec)
  {
    hide Serve, Inv;
    RegAfterInv(managed, m, o, d, k);
  }

  // However its calls turn out, the stored spec is the one of the last edit.
  lemma {:induction false} EditsDecide(managed: set<string>, cfg: Config, m: Machine, es: seq<Event>, k: Key,
                                       name: string, prev: string, spec: Spec)
    requires Inv(managed, m) && LegalRun(cfg, managed, m, es) && forall e | e in es :: e.User? || e.Call?
    requires Follows(m.pc, k, name, prev) && SpecIs(m.world, k, spec)
    ensures var m' := Run(cfg, m, es); var last := LastEdit(es, k);
      Follows(m'.pc, k, name, prev) && SpecIs(m'.world, k, if last.Some? then last.value else spec)
    decreases |es|
  {
    hide Inv, Follows, SpecIs, Serve, Resume, Apply, LegalUser, LegalDraw;
    if es != [] {
      assert es[0] in es;
      StepKeepsInv(managed, cfg, m, es[0]);
      var now := spec;
      match es[0] {
        case User(a) =>
          UserKeepsSpec(managed, m.world, a, k, spec);
          now := if a.EditReg? && a.reg.Id() == k then a.reg.spec else spec;
        case Call(o, d) =>
          if !m.pc.Idle? {
            CallFollows(managed, cfg, m, o, d, k, name, prev);
            FollowsNoDeletion(m.pc, k, name, prev);
            CallKeepsSpec(managed, m, o, d, k, spec);
          }
      }
      EditsDecide(managed, cfg, Step(cfg, m, es[0]), es[1..], k, name, prev, now);
    }
  }

  lemma FollowsNoDeletion(pc: Pc, k: Key, name: string, prev: string)
    requires Follows(pc, k, name, prev)
    ensures !pc.Unfinalizing?
  {
  }

  lemma ResolvesIff(reg: Reg, sk: Key)
    requires sk.namespace == reg.namespace && sk.name != ""
    ensures ResolvedKey(reg) == Some(sk) <==> AsksFor(reg.name, reg.spec, sk.name)
  {
  }

  lemma DeleteFacts(managed: set<string>, m: Machine)
    requires Inv(managed, m) && m.pc.DeletingPrevious?
    ensures TrimSpace(m.pc.job.prev) != "" && TrimSpace(m.pc.job.prev) != m.pc.job.name
  {
    hide WorldOk, Anchored;
  }

  // A reconcile that has just loaded the registration, any edits and other acts meanwhile, and any outcomes of its
  // calls: when it comes to delete the obsolete Secret, that is the Secret the stored registration now resolves to if
  // and only if the last edit asks for it.
  lemma DeletesWantedIffAskedBack(managed: set<string>, cfg: Config, m: Machine, es: seq<Event>)
    requires Inv(managed, m) && m.pc.ReadingData? && LegalRun(cfg, managed, m, es) &&
             forall e | e in es :: e.User? || e.Call?
    requires SpecIs(m.world, m.pc.job.obj.Id(), m.pc.job.obj.spec) && Run(cfg, m, es).pc.DeletingPrevious?
    ensures var m' := Run(cfg, m, es); var k := m.pc.job.obj.Id(); var last := LastEdit(es, k);
      m'.pc.job.Previous() == m.pc.job.Previous() && k in m'.world.regs &&
      (ResolvedKey(m'.world.regs[k]) == Some(m'.pc.job.Previous()) <==>
        last.Some? && AsksFor(m.pc.job.obj.name, last.value, TrimSpace(m.pc.job.prev)))
  {
    hide Inv, Run, LegalRun, TrimSpace, LastEdit;
    var job := m.pc.job;
    var k := job.obj.Id();
    EditsDecide(managed, cfg, m, es, k, job.name, job.prev, job.obj.spec);
    RunKeepsInv(managed, cfg, m, es);
    var m' := Run(cfg, m, es);
    DeleteFacts(managed, m');
    ResolvesIff(m'.world.regs[k], m'.pc.job.Previous());
    LoadedResolves(managed, m);
  }

  lemma LoadedResolves(managed: set<string>, m: Machine)
    requires Inv(managed, m) && m.pc.ReadingData?
    ensures forall s :: s != "" ==> (AsksFor(m.pc.job.obj.name, m.pc.job.obj.spec, s) <==> s == m.pc.job.name)
  {
    hide WorldOk, Anchored;
  }

  // So it goes wrong: a user takes the new reference back while the reconcile that follows it is about to delete. The
  // Secret is gone though the registration asks for it, and with it the client secret.
  lemma AskedBackIsDeleted(managed: set<string>, cfg: Config, m: Machine, d: Draw)
    requires Inv(managed, m) && m.pc.DeletingPrevious? && OwnStored(m) && m.pc.job.Previous() in m.world.secrets
    ensures var k, sk := m.pc.job.obj.Id(), m.pc.job.Previous();
      k in m.world.regs &&
      var back := User(EditReg(m.world.regs[k].(spec :=
        m.world.regs[k].spec.(secretRef := Some(TrimSpace(m.pc.job.prev))))));
      var asked := Step(cfg, m, back);
      Legal(managed, m, back) && !Races(m, back) && k in asked.world.regs &&
      ResolvedKey(asked.world.regs[k]) == Some(sk) &&
      sk in asked.world.secrets &&
      var deleted := Step(cfg, asked, Call(Answered, d)).world;
      sk !in deleted.secrets && k in deleted.regs && ResolvedKey(deleted.regs[k]) == Some(sk)
  {
    hide After, ConditionsOk, ServicesOk, SecretsOk, FindingsOk, IsControlledBy, Publish;
    var k := m.pc.job.obj.Id();
    var back := User(EditReg(m.world.regs[k].(spec :=
      m.world.regs[k].spec.(secretRef := Some(TrimSpace(m.pc.job.prev))))));
    var asked := Step(cfg, m, back);
    AtDeletingPrevious(cfg, asked.world, asked.pc, Answered, d);
  }
}
