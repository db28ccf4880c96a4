// Deletion comes to its end: the service goes first, then the finalizer, and repeating it does no harm.
module Deletion {
  import opened Wrappers
  import opened GoStrings
  import opened CasTypes
  import opened Registry
  import opened Mapper
  import opened Cluster
  import opened World
  import opened Worker
  import opened Invariant
  import opened Steps
  import opened Attempts
  import opened Finalizers

  // A registration that is being deleted and still holds the finalizer, with a consumer that can be looked up.
  predicate Deleting(managed: set<string>, w: State, k: Key) {
    k in w.regs && w.regs[k].deletedAt.Some? && HasFinalizer(w.regs[k]) && NamesService(managed, w.regs[k])
  }

  // What is left to do: the services of the consumer, and the finalizer.
  function Left(w: State, k: Key, c: string): (nat, nat) {
    (|ByConsumer(w.services, c)|, if k in w.regs && HasFinalizer(w.regs[k]) then 1 else 0)
  }

  lemma AttemptUnfinalizes(managed: set<string>, cfg: Config, w: State, k: Key, d: Draw)
    requires WorldOk(managed, w) && Deleting(managed, w, k)
    ensures var m' := Attempt(cfg, w, k, d); var c := w.regs[k].spec.consumer;
      m'.pc == Idle(None) && Left(m'.world, k, c) == (0, 0) &&
      m'.world.regs ==
        (if RemoveFinalizer(w.regs[k]).finalizers == [] then w.regs - {k}
         else w.regs[k := RemoveFinalizer(w.regs[k])]) &&
      m'.world.secrets == w.secrets && m'.world.fqdn == w.fqdn && m'.world.nextUid == w.nextUid &&
      Valid(m'.world.services) &&
      forall c' | c' != c :: ByConsumer(m'.world.services, c') == ByConsumer(w.services, c')
  {
    hide After, ByConsumer, FindServiceByConsumer, Registry.Remove, Finish, Calls, Woken;
    var reg := w.regs[k];
    var c := reg.spec.consumer;
    var found := ByConsumer(w.services, c);
    ToListing(cfg, w, k, d);
    AtListingForDelete(cfg, w, ListingForDelete(reg), Answered, d);
    if |found| == 0 {
      FoundNone(w.services, c);
      FinishStep(cfg, w, ListingForDelete(reg), d, Machine(w, Unfinalizing(reg)));
      LastCall(cfg, w, reg, d);
    } else {
      FoundOne(managed, w, c);
      var w1 := w.(services := Registry.Remove(w.services, found[0].id));
      FinishStep(cfg, w, ListingForDelete(reg), d, Machine(w, DeletingService(reg, found[0].id)));
      AtDeletingService(cfg, w, DeletingService(reg, found[0].id), Answered, d);
      FinishStep(cfg, w, DeletingService(reg, found[0].id), d, Machine(w1, Unfinalizing(reg)));
      LastCall(cfg, w1, reg, d);
      forall c': string
        ensures ByConsumer(w1.services, c') == if c' == c then [] else ByConsumer(w.services, c')
      {
        DeleteEffect(w.services, c, found[0].id, c');
      }
      DeleteEffect(w.services, c, found[0].id, c);
    }
  }

  // One reconcile in which every call is answered finishes the deletion: no service of the consumer, the operator's
  // finalizer gone, and nothing else changed. The object stays, with the finalizers of others as they were, exactly if
  // there are any.
  lemma AttemptDeletes(managed: set<string>, cfg: Config, w: State, k: Key, d: Draw)
    requires WorldOk(managed, w) && Deleting(managed, w, k)
    ensures var m' := Attempt(cfg, w, k, d); var w' := m'.world; var reg := w.regs[k];
      m'.pc == Idle(None) && ByConsumer(w'.services, reg.spec.consumer) == [] &&
      (forall c | c != reg.spec.consumer :: ByConsumer(w'.services, c) == ByConsumer(w.services, c)) &&
      w'.secrets == w.secrets && w'.fqdn == w.fqdn && w'.regs - {k} == w.regs - {k} &&
      (k in w'.regs <==> exists f :: f in reg.finalizers && f != FINALIZER) &&
      (k in w'.regs ==>
         w'.regs[k] == reg.(finalizers := w'.regs[k].finalizers) && Others(reg.finalizers, w'.regs[k].finalizers))
  {
    hide Attempt, ByConsumer, Others, Without, WorldOk, NamesService, Valid;
    AttemptUnfinalizes(managed, cfg, w, k, d);
    RemovingLeavesOthers(w.regs[k].finalizers);
    NoOthers(w.regs[k].finalizers);
    if Others(w.regs[k].finalizers, []) {
      OthersUnique(w.regs[k].finalizers, [], RemoveFinalizer(w.regs[k]).finalizers);
    }
  }

  lemma ToListing(cfg: Config, w: State, k: Key, d: Draw)
    requires k in w.regs && w.regs[k].deletedAt.Some? && HasFinalizer(w.regs[k]) && !Blank(w.regs[k].spec.consumer)
    ensures Attempt(cfg, w, k, d) == Finish(cfg, Machine(w, ListingForDelete(w.regs[k])), d)
  {
    hide After, Finish, Calls, Woken;
    AtLoading(cfg, w, Loading(k), Answered, d);
    FinishStep(cfg, w, Loading(k), d, Machine(w, ListingForDelete(w.regs[k])));
  }

  lemma FoundNone(services: seq<Service>, c: string)
    requires |ByConsumer(services, c)| == 0
    ensures FindServiceByConsumer(services, c) == Ok(None)
  {
  }

  lemma FoundOne(managed: set<string>, w: State, c: string)
    requires ServicesOk(managed, w.services) && c in managed && ByConsumer(w.services, c) != []
    ensures |ByConsumer(w.services, c)| == 1 && ByConsumer(w.services, c)[0].id != 0
    ensures FindServiceByConsumer(w.services, c) == Ok(Some(ByConsumer(w.services, c)[0]))
  {
    ByConsumerIn(w.services, c);
    assert ByConsumer(w.services, c)[0] in ByConsumer(w.services, c);
  }

  lemma LastCall(cfg: Config, w: State, reg: Reg, d: Draw)
    requires reg.Id() in w.regs && w.regs[reg.Id()] == reg
    ensures Finish(cfg, Machine(w, Unfinalizing(reg)), d) == Machine(StoreReg(w, RemoveFinalizer(reg)), Idle(None))
  {
    hide After, Finish, Calls, Woken;
    AtUnfinalizing(cfg, w, Unfinalizing(reg), Answered, d);
    var last := Machine(StoreReg(w, RemoveFinalizer(reg)), Idle(None));
    FinishStep(cfg, w, Unfinalizing(reg), d, last);
    FinishIdle(cfg, last, d);
  }

  // Whatever happens to the calls of a deletion, it never gets further from its end; a repeated delete, or one whose
  // answer was lost, is harmless.
  lemma DeletionNeverBack(managed: set<string>, cfg: Config, m: Machine, o: Outcome, d: Draw, k: Key)
    requires Inv(managed, m) && !m.pc.Idle? && LegalDraw(m.world, RequestAt(m.pc), o, d) && k in m.world.regs
    requires (m.pc == Loading(k) && m.world.regs[k].deletedAt.Some?) ||
             ((m.pc.ListingForDelete? || m.pc.DeletingService? || m.pc.Unfinalizing?) && m.pc.obj.Id() == k)
    ensures var c := m.world.regs[k].spec.consumer; var m' := Step(cfg, m, Call(o, d));
      Left(m'.world, k, c).0 <= Left(m.world, k, c).0 && Left(m'.world, k, c).1 <= Left(m.world, k, c).1 &&
      (k in m'.world.regs ==>
         m'.world.regs[k].deletedAt == m.world.regs[k].deletedAt && m'.world.regs[k].spec == m.world.regs[k].spec) &&
      (m'.pc.Idle? || m'.pc == ListingForDelete(m.world.regs[k]) ||
       ((m.pc.ListingForDelete? || m.pc.DeletingService?) && (m'.pc.DeletingService? || m'.pc.Unfinalizing?) &&
        m'.pc.obj == m.pc.obj))
  {
    hide After, ByConsumer, Serve, ServicesOk, RegsOk, SecretsOk, Anchored, LocalsOk, FindingsOk;
    ServicesAfter(managed, m, o, d, m.world.regs[k].spec.consumer);
    RegAfterInv(managed, m, o, d, k);
    WorldAfter(cfg, m.world, m.pc, o, d);
    DeletionPcAfter(cfg, m.world, m.pc, o, d);
  }

  lemma DeletionPcAfter(cfg: Config, w: State, pc: Pc, o: Outcome, d: Draw)
    requires pc.ListingForDelete? || pc.DeletingService? || pc.Unfinalizing? ||
             (pc.Loading? && pc.key in w.regs && w.regs[pc.key].deletedAt.Some?)
    ensures var pc' := After(cfg, w, pc, o, d).pc;
      pc'.Idle? || (pc.Loading? && pc' == ListingForDelete(w.regs[pc.key])) ||
      ((pc.ListingForDelete? || pc.DeletingService?) && (pc'.DeletingService? || pc'.Unfinalizing?) &&
        pc'.obj == pc.obj)
  {
    hide After, BeginDeletion, ListedForDelete;
    if pc.Loading? { AtLoading(cfg, w, pc, o, d); }
    else if pc.ListingForDelete? { AtListingForDelete(cfg, w, pc, o, d); }
    else if pc.DeletingService? { AtDeletingService(cfg, w, pc, o, d); }
    else { AtUnfinalizing(cfg, w, pc, o, d); }
  }

  // So from every reachable state in which the registration is being deleted and no reconcile runs, the next reconcile
  // whose calls are answered completes the deletion, whatever went wrong before.
  lemma DeletionConverges(managed: set<string>, cfg: Config, m: Machine, es: seq<Event>, k: Key, d: Draw)
    requires Inv(managed, m) && LegalRun(cfg, managed, m, es)
    requires var m' := Run(cfg, m, es); m'.pc.Idle? && Deleting(managed, m'.world, k)
    ensures var w := Run(cfg, m, es).world; var done := Attempt(cfg, w, k, d);
      done.pc == Idle(None) && Left(done.world, k, w.regs[k].spec.consumer) == (0, 0)
  {
    hide Run, Attempt, Deleting, LegalRun, Left;
    RunKeepsInv(managed, cfg, m, es);
    AttemptUnfinalizes(managed, cfg, Run(cfg, m, es).world, k, d);
  }

  // A registration whose consumer is blank cannot be looked up: it keeps its finalizer, reconcile after reconcile.
  lemma BlankConsumerStuck(cfg: Config, w: State, k: Key, d: Draw)
    requires k in w.regs && w.regs[k].deletedAt.Some? && HasFinalizer(w.regs[k]) && Blank(w.regs[k].spec.consumer)
    ensures Attempt(cfg, w, k, d).world == w && Attempt(cfg, w, k, d).pc == Idle(Some("consumer must not be empty"))
  {
    hide After, Finish, Calls, Woken;
    AtLoading(cfg, w, Loading(k), Answered, d);
    var stuck := Machine(w, Idle(Some("consumer must not be empty")));
    FinishStep(cfg, w, Loading(k), d, stuck);
    FinishIdle(cfg, stuck, d);
  }

  // A registration that is gone, or that is being deleted without the operator's finalizer, is left alone.
  lemma NothingToDelete(cfg: Config, w: State, k: Key, d: Draw)
    requires k in w.regs ==> w.regs[k].deletedAt.Some? && FINALIZER !in w.regs[k].finalizers
    ensures Attempt(cfg, w, k, d) == Machine(w, Idle(None)) && Calls(cfg, Machine(w, Loading(k)), d) == [GetReg(k)]
  {
    hide After, Finish, Calls, Woken;
    AtLoading(cfg, w, Loading(k), Answered, d);
    var done := Machine(w, Idle(None));
    FinishStep(cfg, w, Loading(k), d, done);
    FinishIdle(cfg, done, d);
  }

  // With several services of its consumer, nothing says which is the registration's: none is deleted and it stays.
  lemma SeveralStuck(cfg: Config, w: State, k: Key, d: Draw)
    requires k in w.regs && w.regs[k].deletedAt.Some? && HasFinalizer(w.regs[k]) && w.regs[k].Id() == k
    requires !Blank(w.regs[k].spec.consumer) && |ByConsumer(w.services, w.regs[k].spec.consumer)| > 1
    ensures Attempt(cfg, w, k, d).world == w && Attempt(cfg, w, k, d).pc.Idle? &&
            Attempt(cfg, w, k, d).pc.returned.Some?
  {
    hide After, Finish, Calls, Woken, ByConsumer;
    var reg := w.regs[k];
    ToListing(cfg, w, k, d);
    AtListingForDelete(cfg, w, ListingForDelete(reg), Answered, d);
    var stuck := Machine(w, ListedForDelete(reg, w.services));
    FinishStep(cfg, w, ListingForDelete(reg), d, stuck);
    FinishIdle(cfg, stuck, d);
  }
}
