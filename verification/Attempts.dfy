// A whole reconcile, and how many calls it can take.
module Attempts {
  import opened Wrappers
  import opened Base64
  import opened Mapper
  import opened Cluster
  import opened World
  import opened Worker
  import opened Watch

  // How many more calls a reconcile can make.
  function Rank(pc: Pc): nat {
    match pc
    case Idle(_) => 0
    case Loading(_) => 17
    case Finalizing(_) => 16
    case ReadingData(_) => 15
    case Listing(_, _) => 14
    case Generating(_, _) => 13
    case ReadingFqdn(_, _, _) => 12
    case Writing(_, _, _, _) => 11
    case ReadingFqdnAgain(_, _, _) => 10
    case Patching(_, _, next) =>
      (match next
       case ResolvedRef(_, _) => 9
       case ClearedRef(_) => 3
       case InvalidPublished(_) => 2
       case SecretUnpublished(_) => 2
       case Published => 2
       case _ => 1)
    case ReadingSecret(_, _) => 6
    case CreatingSecret(_, _) => 5
    case UpdatingSecret(_, _, _) => 5
    case ReadingPrevious(_) => 4
    case DeletingPrevious(_, _) => 3
    case ListingForDelete(_) => 3
    case DeletingService(_, _) => 2
    case Unfinalizing(_) => 1
  }

  // Every call brings the reconcile nearer to its end, however it turns out.
  lemma RankFalls(cfg: Config, w: State, pc: Pc, o: Outcome, d: Draw)
    requires !pc.Idle?
    ensures Rank(After(cfg, w, pc, o, d).pc) < Rank(pc)
  {
    hide Serve, Succeed, Publish, RegistrationFailed, Block, SecretFailed, InvalidCompletedPc, InvalidPublishedPc,
         InvalidSpec, Begin, BeginUpsert, Listed, Upserted, SecretRead, CleanUp, BeginDeletion, ListedForDelete, Loaded,
         BuildServicePayload, BuildRegistrationResult, Encode;
  }

  // The reconcile from here on when every call is answered, nobody interferes and each choice of the outside is as in
  // `d`.
  function Finish(cfg: Config, m: Machine, d: Draw): Machine
    decreases Rank(m.pc)
  {
    if m.pc.Idle? then m
    else
      RankFalls(cfg, m.world, m.pc, Answered, d);
      Finish(cfg, After(cfg, m.world, m.pc, Answered, d), d)
  }

  // The calls it makes.
  function Calls(cfg: Config, m: Machine, d: Draw): seq<Request>
    decreases Rank(m.pc)
  {
    if m.pc.Idle? then []
    else
      RankFalls(cfg, m.world, m.pc, Answered, d);
      [RequestAt(m.pc)] + Calls(cfg, After(cfg, m.world, m.pc, Answered, d), d)
  }

  // The reconcile requests that the changes it makes put into the queue.
  function Woken(cfg: Config, m: Machine, d: Draw): set<Key>
    decreases Rank(m.pc)
  {
    if m.pc.Idle? then {}
    else
      RankFalls(cfg, m.world, m.pc, Answered, d);
      var next := After(cfg, m.world, m.pc, Answered, d);
      Wakes(m.world, next.world) + Woken(cfg, next, d)
  }

  lemma FinishStep(cfg: Config, w: State, pc: Pc, d: Draw, next: Machine)
    requires !pc.Idle? && After(cfg, w, pc, Answered, d) == next
    ensures Finish(cfg, Machine(w, pc), d) == Finish(cfg, next, d)
    ensures Calls(cfg, Machine(w, pc), d) == [RequestAt(pc)] + Calls(cfg, next, d)
    ensures Woken(cfg, Machine(w, pc), d) == Wakes(w, next.world) + Woken(cfg, next, d)
    ensures next.world == w ==> Woken(cfg, Machine(w, pc), d) == Woken(cfg, next, d)
  {
    hide After;
    assert Wakes(w, w) == {};
  }

  lemma FinishIdle(cfg: Config, m: Machine, d: Draw)
    requires m.pc.Idle?
    ensures Finish(cfg, m, d) == m && Calls(cfg, m, d) == [] && Woken(cfg, m, d) == {}
  {
  }

  function Attempt(cfg: Config, w: State, k: Key, d: Draw): Machine {
    Finish(cfg, Machine(w, Loading(k)), d)
  }

  function CountCalls(es: seq<Event>): nat {
    if es == [] then 0 else (if es[0].Call? then 1 else 0) + CountCalls(es[1..])
  }

  // From here on the reconcile makes these calls, ends without error, and leaves the stores and the queue as they are.
  predicate Rests(cfg: Config, w: State, pc: Pc, d: Draw, calls: seq<Request>) {
    Finish(cfg, Machine(w, pc), d) == Machine(w, Idle(None)) && Calls(cfg, Machine(w, pc), d) == calls &&
    Woken(cfg, Machine(w, pc), d) == {}
  }

  lemma RestsBefore(cfg: Config, w: State, pc: Pc, next: Pc, d: Draw, calls: seq<Request>, rest: seq<Request>)
    requires !pc.Idle? && After(cfg, w, pc, Answered, d) == Machine(w, next) && Rests(cfg, w, next, d, rest) &&
      calls == [RequestAt(pc)] + rest
    ensures Rests(cfg, w, pc, d, calls)
  {
    hide After, Finish, Calls, Woken;
    FinishStep(cfg, w, pc, d, Machine(w, next));
  }

  // A reconcile is over after at most 17 calls, whatever happens to them and whatever others do in between.
  lemma {:induction false} CallsBounded(cfg: Config, m: Machine, es: seq<Event>)
    requires forall e | e in es :: e.Call? || e.User?
    requires CountCalls(es) >= Rank(m.pc)
    ensures Run(cfg, m, es).pc.Idle? && Rank(m.pc) <= 17
    decreases |es|
  {
    if es != [] {
      assert es[0] in es;
      if es[0].Call? && !m.pc.Idle? {
        RankFalls(cfg, m.world, m.pc, es[0].outcome, es[0].draw);
      }
      CallsBounded(cfg, Step(cfg, m, es[0]), es[1..]);
    }
  }
}
