// The work queue runs empty: reconciles write Secrets, Secret events wake registrations, and yet this comes to an end.
module Quiescence {
  import opened Wrappers
  import opened GoStrings
  import opened Domain
  import opened Registry
  import opened Mapper
  import opened Cluster
  import opened World
  import opened Worker
  import opened Invariant
  import opened Steps
  import opened FixedPoint
  import opened Attempts
  import opened Deletion
  import opened Watch
  import opened Health
  import opened Footprint

  // The stores and the queue of reconcile requests.
  datatype Loop = Loop(world: State, queue: set<Key>)

  // With nobody interfering, the worker takes a request from the queue, or the garbage collector removes a Secret whose
  // controlling registration is gone.
  datatype Move = Work(key: Key, draw: Draw) | Collect(secret: Key)

  predicate Live(w: State, k: Key) {
    k in w.regs && w.regs[k].deletedAt.None?
  }

  predicate Dies(w: State, k: Key) {
    k in w.regs && w.regs[k].deletedAt.Some? && HasFinalizer(w.regs[k])
  }

  predicate IsOrphan(w: State, secret: Secret) {
    secret.controller.Some? && secret.controller.value.kind == REG_KIND &&
    forall k | k in w.regs :: w.regs[k].uid != secret.controller.value.uid
  }

  // ---- The measure ----

  function Dying(w: State): set<Key> {
    set k | k in w.regs && Dies(w, k)
  }

  function Orphans(w: State): set<Key> {
    set sk | sk in w.secrets && IsOrphan(w, w.secrets[sk])
  }

  // Registrations whose status does not point to the Secret they resolve to.
  function Moving(w: State): set<Key> {
    set k | k in w.regs && Live(w, k) && ResolvedKey(w.regs[k]) !=
      Some(Key(w.regs[k].namespace, w.regs[k].status.resolvedSecretRef))
  }

  ghost function Unsettled(cfg: Config, w: State): set<Key> {
    set k | k in w.regs && Live(w, k) && !Settled(cfg, w, k)
  }

  // ---- Moves ----

  predicate Possible(s: Loop, move: Move) {
    match move
    case Work(k, d) => k in s.queue && Fresh(s.world, Loading(k), d)
    case Collect(sk) => sk in Orphans(s.world)
  }

  // A request is taken from the queue; it comes back if its reconcile returns an error.
  function Next(cfg: Config, s: Loop, move: Move): Loop {
    match move
    case Work(k, d) =>
      var m' := Attempt(cfg, s.world, k, d);
      var again := if m'.pc == Idle(None) then {} else {k};
      Loop(m'.world, s.queue - {k} + again + Woken(cfg, Machine(s.world, Loading(k)), d))
    case Collect(sk) =>
      var w' := s.world.(secrets := s.world.secrets - {sk});
      Loop(w', s.queue + Wakes(s.world, w'))
  }

  // Valid specs, consumers and Secret names that are not shared, and nothing else in the way of any reconcile.
  predicate Sound(managed: set<string>, w: State) {
    WorldOk(managed, w) &&
    (forall k | k in w.regs :: if Live(w, k) then Healthy(w, w.regs[k]) else !Blank(w.regs[k].spec.consumer)) &&
    (forall j, k | j in w.regs && k in w.regs && j != k ::
      w.regs[j].spec.consumer != w.regs[k].spec.consumer &&
      (Live(w, j) && Live(w, k) ==> ResolvedKey(w.regs[j]) != ResolvedKey(w.regs[k])))
  }

  // Whatever has to be worked on is in the queue.
  ghost predicate Covered(cfg: Config, s: Loop) {
    Unsettled(cfg, s.world) + Dying(s.world) <= s.queue
  }

  predicate Busy(s: Loop) {
    s.queue != {} || Orphans(s.world) != {}
  }

  // ---- Settled registrations stay settled ----

  lemma StoresStay(cfg: Config, w: State, w': State, reg: Reg)
    requires StoresSettled(cfg, w, reg) && w'.fqdn == w.fqdn
    requires ByConsumer(w'.services, reg.spec.consumer) == ByConsumer(w.services, reg.spec.consumer)
    requires ResolvedKey(reg).Some? ==> !SecretChanged(w, w', ResolvedKey(reg).value)
    ensures StoresSettled(cfg, w', reg)
  {
    hide BuildServicePayload, BuildRegistrationResult, GetRegistrationData, ByConsumer, SecretHolds, Reuses;
    var (name, managed) := ResolveSecretName(reg).value;
    var s :| ServiceSettled(cfg, w, reg, s) && SecretSettled(cfg, w, reg, name, managed, s);
    assert ServiceSettled(cfg, w', reg, s) && SecretSettled(cfg, w', reg, name, managed, s);
  }

  lemma SettledStays(cfg: Config, w: State, w': State, k: Key)
    requires Settled(cfg, w, k) && k in w'.regs && w'.regs[k] == w.regs[k] && w'.fqdn == w.fqdn
    requires ByConsumer(w'.services, w.regs[k].spec.consumer) == ByConsumer(w.services, w.regs[k].spec.consumer)
    ensures Settled(cfg, w', k) || WokenBySecret(w, w', k)
  {
    hide StoresSettled, ByConsumer, SecretChanged, SaysPublished, SaysCompleted, Ready, ResolvedKey;
    if !WokenBySecret(w, w', k) { StoresStay(cfg, w, w', w.regs[k]); }
  }

  // ---- Work on a live registration ----

  lemma LiveEnds(managed: set<string>, cfg: Config, w: State, k: Key, d: Draw)
    requires Sound(managed, w) && Live(w, k) && Fresh(w, Loading(k), d)
    ensures ResolvedKey(w.regs[k]).Some?
    ensures var m' := Attempt(cfg, w, k, d); var woken := Woken(cfg, Machine(w, Loading(k)), d);
      m'.pc == Idle(None) && WorldOk(managed, m'.world) && Settled(cfg, m'.world, k) && Within(w, m'.world, k) &&
      forall j | j in w.regs && j != k :: j in m'.world.regs && (WokenBySecret(w, m'.world, j) ==> j in woken)
  {
    hide Underway, Finish, Woken, Settled, WorldOk, Healthy, Fresh;
    StartsUnderway(managed, cfg, w, k, d);
    AttemptSettles(managed, cfg, w, Machine(w, Loading(k)), k, d);
  }

  // After it, the world is still sound; nobody begins to die, no orphan appears, and the pointer is right.
  lemma LiveKeepsSound(managed: set<string>, w: State, w': State, k: Key)
    requires Sound(managed, w) && Live(w, k) && ResolvedKey(w.regs[k]).Some?
    requires Within(w, w', k) && WorldOk(managed, w')
    ensures Sound(managed, w')
  {
    hide ByConsumer, WorldOk, Healthy, SecretWithin, ResolveSecretName;
    forall j | j in w'.regs
      ensures if Live(w', j) then Healthy(w', w'.regs[j]) else !Blank(w'.regs[j].spec.consumer)
    {
      LiveKeepsHealthy(managed, w, w', k, j);
    }
    SameResolved(w.regs[k], w'.regs[k]);
  }

  lemma SameResolved(a: Reg, b: Reg)
    requires SameSpec(a, b)
    ensures ResolvedKey(b) == ResolvedKey(a)
  {
  }

  lemma LiveKeepsOrder(cfg: Config, w: State, w': State, k: Key)
    requires Live(w, k) && ResolvedKey(w.regs[k]).Some? && Within(w, w', k) && Settled(cfg, w', k)
    ensures Dying(w') == Dying(w) && Orphans(w') <= Orphans(w) && Moving(w') == Moving(w) - {k}
  {
    hide ByConsumer, StoresSettled, SecretWithin, SaysPublished, SaysCompleted, IsOrphan;
    forall sk | sk in Orphans(w')
      ensures sk in Orphans(w)
    {
      OrphanBefore(w, w', k, sk);
    }
  }

  lemma LiveKeepsHealthy(managed: set<string>, w: State, w': State, k: Key, j: Key)
    requires Sound(managed, w) && Live(w, k) && ResolvedKey(w.regs[k]).Some? && Within(w, w', k) && j in w'.regs
    ensures if Live(w', j) then Healthy(w', w'.regs[j]) else !Blank(w'.regs[j].spec.consumer)
  {
    hide ByConsumer, ValidateRegistration, WorldOk;
    if j == k {
      HealthyWithin(w, w', k);
    } else if Live(w', j) {
      var (name, _) := ResolveSecretName(w.regs[j]).value;
      assert SecretWithin(w, w', w.regs[k], ResolvedKey(w.regs[k]).value, Key(w.regs[j].namespace, name));
    }
  }

  lemma OrphanBefore(w: State, w': State, k: Key, sk: Key)
    requires k in w.regs && ResolvedKey(w.regs[k]).Some? && Within(w, w', k) && sk in Orphans(w')
    ensures sk in Orphans(w)
  {
    hide ByConsumer, ResolvedKey;
    assert SecretWithin(w, w', w.regs[k], ResolvedKey(w.regs[k]).value, sk);
    forall j | j in w.regs
      ensures w.regs[j].uid == w'.regs[j].uid
    {
    }
  }

  // If the pointer was right before, no other registration loses its Secret.
  lemma LiveSettles(managed: set<string>, cfg: Config, w: State, w': State, k: Key)
    requires Sound(managed, w) && Live(w, k) && ResolvedKey(w.regs[k]).Some? && k !in Moving(w)
    requires Within(w, w', k) && Settled(cfg, w', k)
    ensures Unsettled(cfg, w') <= Unsettled(cfg, w) - {k}
  {
    hide ByConsumer, WorldOk, Settled, ResolveSecretName, Healthy;
    forall j | j in Unsettled(cfg, w')
      ensures j in Unsettled(cfg, w) - {k}
    {
      if Settled(cfg, w, j) {
        SettledStays(cfg, w, w', j);
        SettledResolves(cfg, w, j);
        assert SecretWithin(w, w', w.regs[k], ResolvedKey(w.regs[k]).value, ResolvedKey(w.regs[j]).value);
      }
    }
  }

  lemma SettledResolves(cfg: Config, w: State, k: Key)
    requires Settled(cfg, w, k)
    ensures ResolvedKey(w.regs[k]).Some?
  {
    hide StoresSettled;
  }

  ghost predicate Smaller(cfg: Config, s: Loop, s': Loop) {
    var w, w' := s.world, s'.world;
    Dying(w') < Dying(w) || (Dying(w') == Dying(w) &&
    (Orphans(w') < Orphans(w) || (Orphans(w') == Orphans(w) &&
    (Moving(w') < Moving(w) || (Moving(w') == Moving(w) &&
    (Unsettled(cfg, w') < Unsettled(cfg, w) || (Unsettled(cfg, w') == Unsettled(cfg, w) && s'.queue < s.queue)))))))
  }

  lemma UnsettledMove(managed: set<string>, cfg: Config, s: Loop, k: Key, d: Draw)
    requires Sound(managed, s.world) && Covered(cfg, s) && Possible(s, Work(k, d)) && Live(s.world, k) &&
      !Settled(cfg, s.world, k)
    ensures var s' := Next(cfg, s, Work(k, d)); Sound(managed, s'.world) && Covered(cfg, s') && Smaller(cfg, s, s')
  {
    hide Within, Settled, ByConsumer, Attempt, Woken, Sound, Fresh, Orphans, Moving, Dying, Covered;
    var w := s.world;
    var s' := Next(cfg, s, Work(k, d));
    LiveEnds(managed, cfg, w, k, d);
    LiveKeepsSound(managed, w, s'.world, k);
    LiveKeepsOrder(cfg, w, s'.world, k);
    LiveCovered(managed, cfg, s, k, d);
    if k !in Moving(w) { LiveSettles(managed, cfg, w, s'.world, k); }
  }

  lemma IdleMove(managed: set<string>, cfg: Config, s: Loop, k: Key, d: Draw)
    requires Sound(managed, s.world) && Covered(cfg, s) && Possible(s, Work(k, d))
    requires k !in Unsettled(cfg, s.world) + Dying(s.world)
    requires Attempt(cfg, s.world, k, d) == Machine(s.world, Idle(None)) &&
             Woken(cfg, Machine(s.world, Loading(k)), d) == {}
    ensures var s' := Next(cfg, s, Work(k, d)); Sound(managed, s'.world) && Covered(cfg, s') && Smaller(cfg, s, s')
  {
    hide Attempt, Woken, Sound, Orphans, Moving, Dying, Unsettled, Fresh;
    assert Next(cfg, s, Work(k, d)) == Loop(s.world, s.queue - {k});
  }

  lemma NothingToDo(managed: set<string>, cfg: Config, w: State, k: Key, d: Draw)
    requires Sound(managed, w) && Settled(cfg, w, k)
    ensures Attempt(cfg, w, k, d) == Machine(w, Idle(None)) && Woken(cfg, Machine(w, Loading(k)), d) == {}
  {
    hide Settled, Finish, Woken, Calls, RegsOk, SecretsOk;
    SettledIsFixedPoint(cfg, w, k, d);
  }

  // A registration that a reconcile of another one has unsettled was woken by it.
  lemma LiveCovered(managed: set<string>, cfg: Config, s: Loop, k: Key, d: Draw)
    requires Sound(managed, s.world) && Covered(cfg, s) && Possible(s, Work(k, d)) && Live(s.world, k)
    ensures Covered(cfg, Next(cfg, s, Work(k, d)))
  {
    hide ByConsumer, Settled, Attempt, Woken, WorldOk, Healthy, Fresh, WokenBySecret, SecretWithin, ResolvedKey;
    var s' := Next(cfg, s, Work(k, d));
    var w, w' := s.world, s'.world;
    LiveEnds(managed, cfg, w, k, d);
    forall j | j in Unsettled(cfg, w') + Dying(w')
      ensures j in s'.queue
    {
      if j in Unsettled(cfg, w') && Settled(cfg, w, j) { SettledStays(cfg, w, w', j); }
    }
  }

  // ---- Work on a registration that is being deleted, or gone ----

  lemma GoneEnds(cfg: Config, w: State, k: Key, d: Draw)
    requires !Live(w, k) && !Dies(w, k)
    ensures Attempt(cfg, w, k, d) == Machine(w, Idle(None)) && Woken(cfg, Machine(w, Loading(k)), d) == {}
  {
    hide After, Finish, Calls, Woken, Wakes;
    AtLoading(cfg, w, Loading(k), Answered, d);
    FinishStep(cfg, w, Loading(k), d, Machine(w, Idle(None)));
    FinishIdle(cfg, Machine(w, Idle(None)), d);
  }

  lemma DyingMove(managed: set<string>, cfg: Config, s: Loop, k: Key, d: Draw)
    requires Sound(managed, s.world) && Covered(cfg, s) && Possible(s, Work(k, d)) && Dies(s.world, k)
    ensures var s' := Next(cfg, s, Work(k, d)); Sound(managed, s'.world) && Covered(cfg, s') && Smaller(cfg, s, s')
  {
    hide Attempt, Woken, Fresh, Orphans, Moving, Settled, Sound, Unsettled, ByConsumer, Dying, Deleting;
    var w := s.world;
    DyingDeletes(managed, w, k);
    AttemptUnfinalizes(managed, cfg, w, k, d);
    var s' := Next(cfg, s, Work(k, d));
    DyingKeepsSound(managed, w, s'.world, k);
    DyingFalls(w, s'.world, k);
    DyingKeepsSettled(managed, cfg, w, s'.world, k);
  }

  lemma DyingDeletes(managed: set<string>, w: State, k: Key)
    requires Sound(managed, w) && Dies(w, k)
    ensures WorldOk(managed, w) && Deleting(managed, w, k)
  {
    hide ByConsumer, Healthy;
  }

  ghost predicate Deleted(w: State, w': State, k: Key)
    requires k in w.regs
  {
    w'.regs ==
      (if RemoveFinalizer(w.regs[k]).finalizers == [] then w.regs - {k} else w.regs[k := RemoveFinalizer(w.regs[k])]) &&
    w'.secrets == w.secrets && w'.fqdn == w.fqdn && w'.nextUid == w.nextUid && Valid(w'.services) &&
    ByConsumer(w'.services, w.regs[k].spec.consumer) == [] &&
    forall c | c != w.regs[k].spec.consumer :: ByConsumer(w'.services, c) == ByConsumer(w.services, c)
  }

  lemma HealthyFrame(w: State, w': State, reg: Reg)
    requires Healthy(w, reg) && w'.fqdn == w.fqdn && w'.secrets == w.secrets
    ensures Healthy(w', reg)
  {
    hide ValidateRegistration, ResolveSecretName;
  }

  lemma DyingKeepsSound(managed: set<string>, w: State, w': State, k: Key)
    requires Sound(managed, w) && Dies(w, k) && Deleted(w, w', k)
    ensures Sound(managed, w')
  {
    hide ByConsumer, RegsOk, Valid, ResolvedKey, Healthy;
    DyingKeepsRegs(managed, w, w', k);
    forall j | j in w'.regs && Live(w', j)
      ensures Healthy(w', w'.regs[j])
    {
      HealthyFrame(w, w', w.regs[j]);
    }
  }

  lemma DyingKeepsRegs(managed: set<string>, w: State, w': State, k: Key)
    requires RegsOk(managed, w) && Dies(w, k) && Deleted(w, w', k)
    ensures RegsOk(managed, w')
  {
    hide ByConsumer, ConditionsOk, Valid;
  }

  lemma DyingFalls(w: State, w': State, k: Key)
    requires Dies(w, k) && Deleted(w, w', k)
    ensures Dying(w') == Dying(w) - {k} && Dying(w') < Dying(w)
  {
    hide ByConsumer, Valid;
    assert k in Dying(w) && k !in Dying(w');
  }

  lemma DyingKeepsSettled(managed: set<string>, cfg: Config, w: State, w': State, k: Key)
    requires Sound(managed, w) && Dies(w, k) && Deleted(w, w', k)
    ensures Unsettled(cfg, w') <= Unsettled(cfg, w) - {k}
  {
    hide ByConsumer, Settled, Valid, WorldOk, Healthy, ResolvedKey;
    forall j | j in Unsettled(cfg, w')
      ensures j in Unsettled(cfg, w) - {k}
    {
      if Settled(cfg, w, j) { SettledStays(cfg, w, w', j); }
    }
  }

  // ---- Garbage collection ----

  lemma CollectMove(managed: set<string>, cfg: Config, s: Loop, sk: Key)
    requires Sound(managed, s.world) && Covered(cfg, s) && Possible(s, Collect(sk))
    ensures var s' := Next(cfg, s, Collect(sk)); Sound(managed, s'.world) && Covered(cfg, s') && Smaller(cfg, s, s')
  {
    hide Settled, ByConsumer, IsOrphan, Sound;
    var s' := Next(cfg, s, Collect(sk));
    var w, w' := s.world, s'.world;
    CollectKeepsSound(managed, w, w', sk);
    assert Dying(w') == Dying(w);
    assert Orphans(w') == Orphans(w) - {sk} by { SameOrphans(w, w', sk); }
    forall j | j in Unsettled(cfg, w') && Settled(cfg, w, j)
      ensures j in s'.queue
    {
      SettledStays(cfg, w, w', j);
    }
  }

  lemma SameOrphans(w: State, w': State, sk: Key)
    requires w' == w.(secrets := w.secrets - {sk})
    ensures Orphans(w') == Orphans(w) - {sk}
  {
  }

  lemma CollectKeepsSound(managed: set<string>, w: State, w': State, sk: Key)
    requires Sound(managed, w) && w' == w.(secrets := w.secrets - {sk})
    ensures Sound(managed, w')
  {
    hide ByConsumer, ValidateRegistration, ResolveSecretName, ConditionsOk;
  }

  // ---- Every move makes the measure smaller ----

  lemma MoveFalls(managed: set<string>, cfg: Config, s: Loop, move: Move)
    requires Sound(managed, s.world) && Covered(cfg, s) && Possible(s, move)
    ensures var s' := Next(cfg, s, move); Sound(managed, s'.world) && Covered(cfg, s') && Smaller(cfg, s, s')
  {
    hide Sound, Settled, Next, Smaller, Attempt, Woken;
    match move
    case Collect(sk) => CollectMove(managed, cfg, s, sk);
    case Work(k, d) =>
      if Dies(s.world, k) {
        DyingMove(managed, cfg, s, k, d);
      } else if !Live(s.world, k) {
        GoneEnds(cfg, s.world, k, d);
        IdleMove(managed, cfg, s, k, d);
      } else if Settled(cfg, s.world, k) {
        NothingToDo(managed, cfg, s.world, k, d);
        IdleMove(managed, cfg, s, k, d);
      } else {
        UnsettledMove(managed, cfg, s, k, d);
      }
  }

  // ---- It ends ----

  // The loop after `n` moves of a schedule.
  ghost function At(cfg: Config, s: Loop, moves: nat -> Move, n: nat): Loop {
    if n == 0 then s else Next(cfg, At(cfg, s, moves, n - 1), moves(n - 1))
  }

  // From any sound state in which all that needs work is queued, no schedule of moves, whatever its order and draws,
  // goes on for ever.
  lemma {:induction false} NoEndlessSchedule(managed: set<string>, cfg: Config, s: Loop, moves: nat -> Move,
          n: nat) returns (end: nat)
    requires Sound(managed, At(cfg, s, moves, n).world) && Covered(cfg, At(cfg, s, moves, n))
    ensures n <= end && !Possible(At(cfg, s, moves, end), moves(end))
    ensures Sound(managed, At(cfg, s, moves, end).world) && Covered(cfg, At(cfg, s, moves, end))
    decreases Dying(At(cfg, s, moves, n).world), Orphans(At(cfg, s, moves, n).world),
      Moving(At(cfg, s, moves, n).world), Unsettled(cfg, At(cfg, s, moves, n).world), At(cfg, s, moves, n).queue
  {
    hide Sound, Covered, Possible, Next, Dying, Orphans, Moving, Unsettled;
    var here := At(cfg, s, moves, n);
    if Possible(here, moves(n)) {
      MoveFalls(managed, cfg, here, moves(n));
      end := NoEndlessSchedule(managed, cfg, s, moves, n + 1);
    } else {
      end := n;
    }
  }

  // A schedule that moves as long as there is something to do comes to a state in which the queue is empty, no orphaned
  // Secret is left, no deletion is waiting for the operator, and every live registration is settled.
  lemma Quiesces(managed: set<string>, cfg: Config, s: Loop, moves: nat -> Move) returns (end: nat)
    requires Sound(managed, s.world) && Covered(cfg, s)
    requires forall n: nat :: Busy(At(cfg, s, moves, n)) ==> Possible(At(cfg, s, moves, n), moves(n))
    ensures var rest := At(cfg, s, moves, end);
      rest.queue == {} && Orphans(rest.world) == {} && Dying(rest.world) == {} &&
      forall k | Live(rest.world, k) :: Settled(cfg, rest.world, k)
  {
    hide Sound, Possible, Next, Orphans, Settled, Moving;
    end := NoEndlessSchedule(managed, cfg, s, moves, 0);
    var rest := At(cfg, s, moves, end);
    forall k | Live(rest.world, k)
      ensures Settled(cfg, rest.world, k)
    {
      assert k in Unsettled(cfg, rest.world) <==> !Settled(cfg, rest.world, k);
    }
  }

  // When the operator starts, its informers report every registration there is as created, and these events pass the
  // filter.
  lemma StartIsCovered(cfg: Config, w: State)
    ensures Covered(cfg, Loop(w, Wakes(w.(regs := map[]), w)))
  {
    hide Settled, WokenBySecret, UpdatePasses;
  }
}
