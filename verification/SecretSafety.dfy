// What calls of the operator do to the Secrets of a namespace, its own and those of others.
module SecretSafety {
  import opened Wrappers
  import opened GoStrings
  import opened Domain
  import opened Base64
  import opened Mapper
  import opened Cluster
  import opened World
  import opened Worker
  import opened Invariant
  import opened Steps
  import opened Registry

  // A call leaves a Secret alone, updates the one the reconcile writes, or deletes the one it had before.
  ghost predicate SecretAfter(pc: Pc, w: State, w': State, sk: Key)
    requires sk in w.secrets
  {
    (sk in w'.secrets && w'.secrets[sk] == w.secrets[sk]) ||
    (pc.UpdatingSecret? && sk == pc.job.Target() && w.secrets[sk] == pc.read && sk in w'.secrets &&
      w'.secrets[sk] == pc.merged) ||
    (pc.DeletingPrevious? && sk == pc.job.Previous() && sk !in w'.secrets)
  }

  lemma SecretAfterCall(managed: set<string>, m: Machine, o: Outcome, d: Draw, sk: Key)
    requires Inv(managed, m) && !m.pc.Idle? && sk in m.world.secrets
    ensures SecretAfter(m.pc, m.world, Serve(m.world, RequestAt(m.pc), o, d).0, sk)
  {
    hide WorldOk, Anchored, FindingsOk;
    ServeFrame(m.world, RequestAt(m.pc), o, d);
  }

  lemma NewSecretAfterCall(managed: set<string>, m: Machine, o: Outcome, d: Draw, sk: Key)
    requires Inv(managed, m) && !m.pc.Idle? && sk !in m.world.secrets
    ensures var w' := Serve(m.world, RequestAt(m.pc), o, d).0;
      sk in w'.secrets ==> m.pc.CreatingSecret? && sk == m.pc.job.Target() && w'.secrets[sk] == m.pc.desired
  {
    hide WorldOk, Anchored, FindingsOk, UpdateOk;
    ServeFrame(m.world, RequestAt(m.pc), o, d);
  }

  // ---- Ownership ----

  // The operator becomes the controller of an existing Secret only when that Secret bears the name it generates for
  // the registration, the registration asks for no other, and no object of another kind or name controls it.
  // A Secret that a call creates is of the type the operator writes, and the registration under reconcile controls it.
  lemma CreatedIsOwned(managed: set<string>, m: Machine, o: Outcome, d: Draw, sk: Key)
    requires Inv(managed, m) && !m.pc.Idle? && sk !in m.world.secrets
    requires sk in Serve(m.world, RequestAt(m.pc), o, d).0.secrets
    ensures m.pc.CreatingSecret?
    ensures var secret := Serve(m.world, RequestAt(m.pc), o, d).0.secrets[sk]; var reg := m.pc.job.obj;
      sk.namespace == reg.namespace && secret.stype == "Opaque" &&
      secret.controller == Some(Owner("AuthRegistration", reg.name, reg.uid))
  {
    hide Serve, WorldOk, Anchored, FindingsOk, UpdateOk;
    NewSecretAfterCall(managed, m, o, d, sk);
  }


  lemma OwnerAfterCall(managed: set<string>, m: Machine, o: Outcome, d: Draw, sk: Key)
    requires Inv(managed, m) && !m.pc.Idle? && sk in m.world.secrets
    ensures var w, w' := m.world, Serve(m.world, RequestAt(m.pc), o, d).0;
      sk in w'.secrets && w'.secrets[sk].controller != w.secrets[sk].controller ==>
        m.pc.UpdatingSecret? && m.pc.job.managed &&
        sk == Key(m.pc.job.obj.namespace, m.pc.job.obj.name + GENERATED_SUFFIX) &&
        w'.secrets[sk].controller == Some(OwnerFor(m.pc.job.obj)) &&
        (w.secrets[sk].controller.Some? ==>
          w.secrets[sk].controller.value.kind == REG_KIND && w.secrets[sk].controller.value.name == m.pc.job.obj.name)
  {
    SecretAfterCall(managed, m, o, d, sk);
    hide Serve;
  }

  // No registration without a spec.secretRef generates this name.
  predicate Unclaimed(w: State, sk: Key) {
    forall k | k in w.regs && w.regs[k].spec.secretRef.None? ::
      Key(w.regs[k].namespace, w.regs[k].name + GENERATED_SUFFIX) != sk
  }

  // The running reconcile manages this Secret itself.
  predicate Claims(pc: Pc, sk: Key) {
    match pc
    case ReadingData(job) => job.managed && job.Target() == sk
    case Listing(job, _) => job.managed && job.Target() == sk
    case Generating(job, _) => job.managed && job.Target() == sk
    case ReadingFqdn(job, _, _) => job.managed && job.Target() == sk
    case Writing(job, _, _, _) => job.managed && job.Target() == sk
    case ReadingFqdnAgain(job, _, _) => job.managed && job.Target() == sk
    case Patching(_, _, next) => next.ResolvedRef? && next.job.managed && next.job.Target() == sk
    case ReadingSecret(job, _) => job.managed && job.Target() == sk
    case CreatingSecret(job, _) => job.managed && job.Target() == sk
    case UpdatingSecret(job, _, _) => job.managed && job.Target() == sk
    case _ => false
  }

  lemma BeginClaims(obj: Reg, sk: Key)
    requires Claims(Begin(obj), sk)
    ensures obj.spec.secretRef.None? && Key(obj.namespace, obj.name + GENERATED_SUFFIX) == sk
  {
    hide InvalidSpec;
  }

  lemma StartClaims(cfg: Config, w: State, pc: Pc, o: Outcome, d: Draw, sk: Key)
    requires (pc.Loading? || pc.Finalizing?) && Unclaimed(w, sk) && forall k | k in w.regs :: w.regs[k].Id() == k
    ensures !Claims(After(cfg, w, pc, o, d).pc, sk)
  {
    hide After, Begin, BeginDeletion;
    var pc' := After(cfg, w, pc, o, d).pc;
    if pc.Loading? { AtLoading(cfg, w, pc, o, d); } else { AtFinalizing(cfg, w, pc, o, d); }
    if pc.Loading? && pc.key in w.regs && pc' == Begin(w.regs[pc.key]) && Claims(pc', sk) {
      BeginClaims(w.regs[pc.key], sk);
    }
    if pc.Finalizing? && pc' == Begin(AddFinalizer(pc.obj)) && Claims(pc', sk) {
      BeginClaims(AddFinalizer(pc.obj), sk);
    }
  }

  lemma ServiceClaims(cfg: Config, w: State, pc: Pc, o: Outcome, d: Draw, sk: Key)
    requires pc.ReadingData? || pc.Listing? || pc.Generating? || pc.ReadingFqdn? || pc.Writing? || pc.ReadingFqdnAgain?
    requires !Claims(pc, sk)
    ensures !Claims(After(cfg, w, pc, o, d).pc, sk)
  {
    hide After, RegistrationFailed, BuildServicePayload, BuildRegistrationResult, ClientSecret, ValidateRegistration,
         FindServiceByConsumer, Encode;
    if pc.ReadingData? { AtReadingData(cfg, w, pc, o, d); }
    else if pc.Listing? { AtListing(cfg, w, pc, o, d); }
    else if pc.Generating? { AtGenerating(cfg, w, pc, o, d); }
    else if pc.ReadingFqdn? { AtReadingFqdn(cfg, w, pc, o, d); }
    else if pc.Writing? { AtWriting(cfg, w, pc, o, d); }
    else { AtReadingFqdnAgain(cfg, w, pc, o, d); }
  }

  lemma PatchClaims(managed: set<string>, cfg: Config, w: State, pc: Pc, o: Outcome, d: Draw, sk: Key)
    requires pc.Patching? && PcOk(managed, w, pc) && RegsOk(managed, w) && !Claims(pc, sk)
    ensures !Claims(After(cfg, w, pc, o, d).pc, sk)
  {
    hide After, Succeed, Block, InvalidPublishedPc, InvalidCompletedPc, ConditionsOk;
    AtPatching(cfg, w, pc, o, d);
  }

  lemma SecretClaims(cfg: Config, w: State, pc: Pc, o: Outcome, d: Draw, sk: Key)
    requires pc.ReadingSecret? && !Claims(pc, sk)
    ensures !Claims(After(cfg, w, pc, o, d).pc, sk)
  {
    hide After, SecretFailed, CleanUp, GetRegistrationData, SetControllerReference, Merge;
    AtReadingSecret(cfg, w, pc, o, d);
  }

  lemma QuietClaims(pc: Pc, sk: Key)
    requires Quiet(pc) && !pc.ReadingData?
    ensures !Claims(pc, sk)
  {
  }

  // A reconcile claims no Secret that no registration claims.
  lemma CallClaims(managed: set<string>, cfg: Config, m: Machine, o: Outcome, d: Draw, sk: Key)
    requires Inv(managed, m) && !m.pc.Idle? && Unclaimed(m.world, sk) && !Claims(m.pc, sk)
    ensures !Claims(After(cfg, m.world, m.pc, o, d).pc, sk)
  {
    hide After, Claims, Unclaimed, PcOk, SecretsOk, ServicesOk;
    var w, pc := m.world, m.pc;
    if pc.Loading? || pc.Finalizing? { StartClaims(cfg, w, pc, o, d, sk); }
    else if pc.Patching? { PatchClaims(managed, cfg, w, pc, o, d, sk); }
    else if pc.ReadingSecret? { SecretClaims(cfg, w, pc, o, d, sk); }
    else if pc.CreatingSecret? || pc.UpdatingSecret? || pc.ReadingPrevious? || pc.DeletingPrevious? ||
      pc.ListingForDelete? || pc.DeletingService? || pc.Unfinalizing? {
      OthersAreQuiet(cfg, w, pc, o, d);
      OnlyStartReads(cfg, w, pc, o, d);
      QuietClaims(After(cfg, w, pc, o, d).pc, sk);
    }
    else { ServiceClaims(cfg, w, pc, o, d, sk); }
  }

  lemma OnlyStartReads(cfg: Config, w: State, pc: Pc, o: Outcome, d: Draw)
    requires !pc.Idle? && !pc.Loading? && !pc.Finalizing?
    ensures !After(cfg, w, pc, o, d).pc.ReadingData?
  {
    hide BeginUpsert, Listed, Upserted, SecretRead, CleanUp, ListedForDelete, RegistrationFailed, SecretFailed, Publish,
         Succeed, Block,
         InvalidPublishedPc, InvalidCompletedPc, BuildServicePayload, BuildRegistrationResult, Encode, Serve;
  }

  // A Secret that is none of the operator's business is controlled by an object of another kind, or by nothing and
  // claimed by no registration.
  predicate Foreign(m: Machine, sk: Key, controller: Option<Owner>) {
    match controller
    case Some(owner) => owner.kind != REG_KIND && owner.uid < 0
    case None => Unclaimed(m.world, sk) && !Claims(m.pc, sk)
  }

  ghost predicate ForeignKept(m: Machine, sk: Key, controller: Option<Owner>) {
    Foreign(m, sk, controller) && sk in m.world.secrets && m.world.secrets[sk].controller == controller &&
    !(m.pc.DeletingPrevious? && m.pc.job.Previous() == sk)
  }

  // Others do not remove the Secret or change its controller (they may well edit it), and claim it for no registration.
  predicate LeavesSecret(m: Machine, e: Event, sk: Key) {
    e.User? ==>
      var w' := Apply(m.world, e.act);
      (sk in m.world.secrets ==> sk in w'.secrets && w'.secrets[sk].controller == m.world.secrets[sk].controller) &&
      (Unclaimed(m.world, sk) ==> Unclaimed(w', sk))
  }

  predicate LeaveSecret(cfg: Config, m: Machine, es: seq<Event>, sk: Key)
    decreases |es|
  {
    es == [] || (LeavesSecret(m, es[0], sk) && LeaveSecret(cfg, Step(cfg, m, es[0]), es[1..], sk))
  }

  // The only way to the delete call is a read that found the Secret controlled by the registration.
  lemma DeletingComesFromRead(managed: set<string>, cfg: Config, m: Machine, o: Outcome, d: Draw)
    requires Inv(managed, m) && !m.pc.Idle?
    ensures var m' := After(cfg, m.world, m.pc, o, d);
      m'.pc.DeletingPrevious? ==>
        m.pc.ReadingPrevious? && m'.pc.job == m.pc.job && m.pc.job.Previous() in m.world.secrets &&
        m'.pc.seen == m.world.secrets[m.pc.job.Previous()] && IsControlledBy(m'.pc.seen, m.pc.job.obj) &&
        m'.world == m.world
  {
    hide Begin, BeginUpsert, Listed, CleanUp, BeginDeletion, ListedForDelete, Loaded, SecretFailed, RegistrationFailed,
         Publish, Succeed, Block, InvalidPublishedPc, InvalidCompletedPc, BuildServicePayload, BuildRegistrationResult,
         Encode, WorldOk, PcOk;
  }

  lemma CallKeepsUnclaimed(managed: set<string>, m: Machine, o: Outcome, d: Draw, sk: Key)
    requires Inv(managed, m) && !m.pc.Idle? && Unclaimed(m.world, sk)
    ensures Unclaimed(Serve(m.world, RequestAt(m.pc), o, d).0, sk)
  {
    hide Serve, Inv;
    var w' := Serve(m.world, RequestAt(m.pc), o, d).0;
    forall k | k in w'.regs
      ensures k in m.world.regs && w'.regs[k].spec == m.world.regs[k].spec && w'.regs[k].Id() == m.world.regs[k].Id()
    {
      SpecKept(managed, m, o, d, k);
    }
  }

  lemma LiveUid(managed: set<string>, m: Machine)
    requires Inv(managed, m) && ObjAt(m.pc).Some?
    ensures 0 <= ObjAt(m.pc).value.uid < m.world.nextUid
  {
    hide ServicesOk, SecretsOk, LocalsOk, FindingsOk, ConditionsOk;
    assert RegOk(managed, m.world.nextUid, m.world.regs[ObjAt(m.pc).value.Id()]);
  }

  lemma CallKeepsForeign(managed: set<string>, cfg: Config, m: Machine, o: Outcome, d: Draw, sk: Key,
      controller: Option<Owner>)
    requires Inv(managed, m) && !m.pc.Idle? && ForeignKept(m, sk, controller)
    ensures ForeignKept(After(cfg, m.world, m.pc, o, d), sk, controller)
  {
    hide Serve, Resume, WorldOk, FindingsOk, DataWritten, Unclaimed;
    SecretAfterCall(managed, m, o, d, sk);
    OwnerAfterCall(managed, m, o, d, sk);
    DeletingComesFromRead(managed, cfg, m, o, d);
    if controller.None? {
      CallClaims(managed, cfg, m, o, d, sk);
      CallKeepsUnclaimed(managed, m, o, d, sk);
    }
    if ObjAt(m.pc).Some? { LiveUid(managed, m); }
  }

  lemma StepKeepsForeign(managed: set<string>, cfg: Config, m: Machine, e: Event, sk: Key, controller: Option<Owner>)
    requires Inv(managed, m) && Legal(managed, m, e) && LeavesSecret(m, e, sk) && ForeignKept(m, sk, controller)
    ensures ForeignKept(Step(cfg, m, e), sk, controller)
  {
    match e
    case Call(o, d) =>
      if !m.pc.Idle? { CallKeepsForeign(managed, cfg, m, o, d, sk, controller); }
      hide After, Inv, Unclaimed, Claims;
    case _ =>
  }

  // Such a Secret, used through spec.secretRef or not at all, is never deleted by the operator and never gets another
  // controller, in any run.
  lemma {:induction false} ForeignSecretSafe(managed: set<string>, cfg: Config, m: Machine, es: seq<Event>, sk: Key,
          controller: Option<Owner>)
    requires Inv(managed, m) && LegalRun(cfg, managed, m, es) && LeaveSecret(cfg, m, es, sk)
    requires ForeignKept(m, sk, controller)
    ensures ForeignKept(Run(cfg, m, es), sk, controller)
    decreases |es|
  {
    if es != [] {
      StepKeepsInv(managed, cfg, m, es[0]);
      StepKeepsForeign(managed, cfg, m, es[0], sk, controller);
      ForeignSecretSafe(managed, cfg, Step(cfg, m, es[0]), es[1..], sk, controller);
    }
  }

  // ---- Deletion ----

  // What is stored under the name that the delete call is about to remove is controlled by the registration.
  predicate OwnStored(m: Machine) {
    m.pc.DeletingPrevious? && m.pc.job.Previous() in m.world.secrets ==>
      IsControlledBy(m.world.secrets[m.pc.job.Previous()], m.pc.job.obj)
  }

  // Somebody puts a Secret there that the registration does not control: a new one in the place of the old one, or the
  // old one with its owner reference taken off or replaced.
  predicate Races(m: Machine, e: Event) {
    m.pc.DeletingPrevious? && e.User? && e.act.PutSecret? &&
    e.act.secret.Id() == m.pc.job.Previous() && !IsControlledBy(e.act.secret, m.pc.job.obj)
  }

  predicate RaceFree(cfg: Config, m: Machine, es: seq<Event>)
    decreases |es|
  {
    es == [] || (!Races(m, es[0]) && RaceFree(cfg, Step(cfg, m, es[0]), es[1..]))
  }

  lemma UserKeepsOwn(managed: set<string>, m: Machine, a: UserAct)
    requires Inv(managed, m) && LegalUser(managed, m.world, a) && OwnStored(m)
    ensures OwnStored(m.(world := Apply(m.world, a))) <==> !Races(m, User(a))
  {
    hide WorldOk, PcOk;
    if m.pc.DeletingPrevious? { LiveUid(managed, m); }
  }

  lemma CallKeepsOwn(managed: set<string>, cfg: Config, m: Machine, o: Outcome, d: Draw)
    requires Inv(managed, m) && !m.pc.Idle?
    ensures OwnStored(After(cfg, m.world, m.pc, o, d))
  {
    hide After, Inv;
    DeletingComesFromRead(managed, cfg, m, o, d);
  }

  // The one step that puts another's Secret in the place of the registration's, or makes the registration's another's,
  // is such a race. Edits that leave the owner reference, even under the operator's nose, are none.
  lemma OwnStoredIffNoRace(managed: set<string>, cfg: Config, m: Machine, e: Event)
    requires Inv(managed, m) && Legal(managed, m, e) && OwnStored(m)
    ensures OwnStored(Step(cfg, m, e)) <==> !Races(m, e)
  {
    hide After, Inv, LegalUser, Apply;
    match e
    case User(a) => UserKeepsOwn(managed, m, a);
    case Call(o, d) => if !m.pc.Idle? { CallKeepsOwn(managed, cfg, m, o, d); }
    case _ =>
  }

  lemma {:induction false} RunKeepsOwn(managed: set<string>, cfg: Config, m: Machine, es: seq<Event>)
    requires Inv(managed, m) && LegalRun(cfg, managed, m, es) && RaceFree(cfg, m, es) && OwnStored(m)
    ensures OwnStored(Run(cfg, m, es))
    decreases |es|
  {
    hide Inv, Step, Legal, OwnStored, Races;
    if es != [] {
      StepKeepsInv(managed, cfg, m, es[0]);
      OwnStoredIffNoRace(managed, cfg, m, es[0]);
      RunKeepsOwn(managed, cfg, Step(cfg, m, es[0]), es[1..]);
    }
  }

  lemma CallDeletes(managed: set<string>, cfg: Config, m: Machine, o: Outcome, d: Draw, sk: Key)
    requires Inv(managed, m) && OwnStored(m) && sk in m.world.secrets && sk !in Step(cfg, m, Call(o, d)).world.secrets
    ensures m.pc.DeletingPrevious? && sk == m.pc.job.Previous() && IsControlledBy(m.world.secrets[sk], m.pc.job.obj) &&
      sk != m.pc.job.Target()
  {
    hide Serve, Resume, WorldOk, Anchored, FindingsOk, TrimSpace;
    SecretAfterCall(managed, m, o, d, sk);
  }

  // In a run without such a race, a Secret that a call makes disappear is controlled by the registration under
  // reconcile, and is not the one that reconcile resolved the registration to.
  lemma DeletesOnlyOwnObsolete(managed: set<string>, cfg: Config, start: Machine, es: seq<Event>, o: Outcome, d: Draw,
      sk: Key)
    requires Inv(managed, start) && LegalRun(cfg, managed, start, es) && RaceFree(cfg, start, es) && OwnStored(start)
    requires var m := Run(cfg, start, es); sk in m.world.secrets && sk !in Step(cfg, m, Call(o, d)).world.secrets
    ensures var m := Run(cfg, start, es);
      m.pc.DeletingPrevious? && sk == m.pc.job.Previous() && IsControlledBy(m.world.secrets[sk], m.pc.job.obj) &&
      sk != m.pc.job.Target()
  {
    hide Inv, Run, Step, LegalRun, RaceFree, OwnStored;
    RunKeepsInv(managed, cfg, start, es);
    RunKeepsOwn(managed, cfg, start, es);
    CallDeletes(managed, cfg, Run(cfg, start, es), o, d, sk);
  }

  // Another's Secret, or none, under that name.
  predicate NotOwn(m: Machine) {
    m.pc.DeletingPrevious? &&
    (m.pc.job.Previous() in m.world.secrets ==> !IsControlledBy(m.world.secrets[m.pc.job.Previous()], m.pc.job.obj))
  }

  lemma UserKeepsNotOwn(managed: set<string>, m: Machine, a: UserAct)
    requires Inv(managed, m) && LegalUser(managed, m.world, a) && NotOwn(m)
    ensures NotOwn(m.(world := Apply(m.world, a)))
  {
    hide WorldOk, PcOk;
    LiveUid(managed, m);
  }

  lemma {:induction false} StaysNotOwn(managed: set<string>, cfg: Config, m: Machine, es: seq<Event>)
    requires Inv(managed, m) && LegalRun(cfg, managed, m, es) && NotOwn(m) && forall e | e in es :: e.User?
    ensures NotOwn(Run(cfg, m, es))
    decreases |es|
  {
    hide Inv, LegalUser, Apply, NotOwn;
    if es != [] {
      assert es[0] in es;
      StepKeepsInv(managed, cfg, m, es[0]);
      UserKeepsNotOwn(managed, m, es[0].act);
      StaysNotOwn(managed, cfg, Step(cfg, m, es[0]), es[1..]);
    }
  }

  lemma RaceIsNotOwn(managed: set<string>, m: Machine, a: UserAct)
    requires Inv(managed, m) && LegalUser(managed, m.world, a) && Races(m, User(a))
    ensures NotOwn(m.(world := Apply(m.world, a)))
  {
    hide WorldOk, PcOk;
    LiveUid(managed, m);
  }

  // Between the read that found the Secret and the delete call: what the call is about to delete is the registration's
  // if and only if nobody raced.
  lemma {:induction false} DeletedIsOwnIffNoRace(managed: set<string>, cfg: Config, m: Machine, es: seq<Event>)
    requires Inv(managed, m) && LegalRun(cfg, managed, m, es) && forall e | e in es :: e.User?
    requires m.pc.DeletingPrevious? && OwnStored(m) && m.pc.job.Previous() in Run(cfg, m, es).world.secrets
    ensures Run(cfg, m, es).pc == m.pc
    ensures IsControlledBy(Run(cfg, m, es).world.secrets[m.pc.job.Previous()], m.pc.job.obj) <==> RaceFree(cfg, m, es)
    decreases |es|
  {
    hide Inv, LegalUser, Apply, IsControlledBy, Races;
    if es != [] {
      assert es[0] in es;
      var next := Step(cfg, m, es[0]);
      StepKeepsInv(managed, cfg, m, es[0]);
      UsersKeepPc(cfg, m, es);
      if Races(m, es[0]) {
        RaceIsNotOwn(managed, m, es[0].act);
        StaysNotOwn(managed, cfg, next, es[1..]);
      } else {
        OwnStoredIffNoRace(managed, cfg, m, es[0]);
        DeletedIsOwnIffNoRace(managed, cfg, next, es[1..]);
      }
    }
  }

  lemma {:induction false} UsersKeepPc(cfg: Config, m: Machine, es: seq<Event>)
    requires forall e | e in es :: e.User?
    ensures Run(cfg, m, es).pc == m.pc
    decreases |es|
  {
    hide Apply;
    if es != [] {
      assert es[0] in es;
      UsersKeepPc(cfg, Step(cfg, m, es[0]), es[1..]);
    }
  }

  // With the race it is different: the delete call carries no precondition, so a Secret that a user puts in the
  // place of the old one between the two calls, or takes the owner reference off to keep it, is deleted, though nothing
  // controls it.
  lemma DeleteRace(managed: set<string>, cfg: Config, m: Machine, mine: Secret, d: Draw)
    requires m.pc.DeletingPrevious? && mine.Id() == m.pc.job.Previous() && mine.controller == None
    ensures var removed := Step(cfg, m, User(RemoveSecret(mine.Id())));
      var put := Step(cfg, removed, User(PutSecret(mine)));
      Legal(managed, m, User(RemoveSecret(mine.Id()))) && Legal(managed, removed, User(PutSecret(mine))) &&
      Races(removed, User(PutSecret(mine))) &&
      mine.Id() in put.world.secrets && put.world.secrets[mine.Id()] == mine &&
      mine.Id() !in Step(cfg, put, Call(Answered, d)).world.secrets
  {
    hide Resume;
  }

  lemma StripRace(managed: set<string>, cfg: Config, m: Machine, d: Draw)
    requires m.pc.DeletingPrevious? && m.pc.job.Previous() in m.world.secrets
    requires var sk := m.pc.job.Previous(); m.world.secrets[sk].Id() == sk
    ensures var sk := m.pc.job.Previous();
      var freed := m.world.secrets[sk].(controller := None);
      var stripped := Step(cfg, m, User(PutSecret(freed)));
      Legal(managed, m, User(PutSecret(freed))) && Races(m, User(PutSecret(freed))) &&
      sk in stripped.world.secrets && stripped.world.secrets[sk] == freed &&
      sk !in Step(cfg, stripped, Call(Answered, d)).world.secrets
  {
    hide Resume;
  }
}
