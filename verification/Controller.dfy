// The controller's entry point, and a worker that takes requests one after the other.
module Controller {
  import opened Wrappers
  import opened Registry
  import opened Mapper
  import opened Cluster
  import opened World
  import opened Worker
  import opened Invariant
  import opened Safety
  import opened Client
  import opened Objects
  import opened Reconciler

  lemma AfterLoading(cfg: Config, key: Key, r: Response)
    ensures Resume(cfg, Loading(key), r) ==
      if r.RegAnswer? then Loaded(r.reg) else Idle(if r.NotFound? then None else Some(Error(r)))
  {
    hide Loaded;
  }

  lemma AfterFinalizing(cfg: Config, obj: Reg, r: Response)
    ensures Resume(cfg, Finalizing(obj), r) == if r.RegAnswer? then Begin(r.reg) else Idle(Some(Error(r)))
  {
    hide Begin;
  }

  // What the theorems about runs say of the stores behind a client that started with sound ones.
  lemma ClientIsSafe(client: Client, pc: Pc)
    requires client.At(pc) && WorldOk(client.managed, client.start.world) && client.start.pc.Idle?
    ensures WorldOk(client.managed, client.world)
    ensures forall c | c in client.managed :: |ByConsumer(client.world.services, c)| <= 1
    ensures Guarded(client.managed, client.start.world) ==> Guarded(client.managed, client.world)
  {
    hide LegalRun, Run, RegsOk, SecretsOk, Guarded, ByConsumer;
    RunKeepsInv(client.managed, client.cfg, client.start, client.past);
    if Guarded(client.managed, client.start.world) {
      FinalizerGuardsService(client.managed, client.cfg, client.start, client.past);
    }
  }

  class Controller {
    const client: Client
    const reconciler: Reconciler

    constructor (client: Client)
      ensures this.client == client && Wired()
    {
      this.client := client;
      reconciler := new Reconciler(client);
    }

    predicate Wired() {
      reconciler.client == client && reconciler.Wired()
    }

    // Every execution is a run of the machine, from the first call of a reconcile to its end. It returns the error the
    // machine ends with.
    method Reconcile(key: Key) returns (error: Option<string>)
      requires Wired() && client.At(Loading(key))
      modifies client
      ensures client.At(Idle(error))
    {
      hide LegalRun, Run, Resume, Begin, BeginDeletion;
      var r := client.Call(GetReg(key), Loading(key));
      AfterLoading(client.cfg, key, r);
      if !r.RegAnswer? {
        return if r.NotFound? then None else Some(Error(r));
      }
      var reg := new AuthRegistration(r.reg);
      if reg.deletedAt.Some? {
        error := reconciler.HandleDeletion(reg);
        return;
      }
      var base := reg.Value();
      var changed := reg.AddFinalizer();
      if changed {
        r := client.Call(UpdateReg(base, reg.Value()), Finalizing(base));
        AfterFinalizing(client.cfg, base, r);
        if !r.RegAnswer? {
          return Some(Error(r));
        }
        reg.Load(r.reg);
      }
      error := reconciler.HandleReconcile(reg);
    }

    // The one worker: request after request, each reconciled to its end. Stores that were sound at the start are sound
    // after it, with one service at most for each consumer and a finalizer behind each.
    method Process(queue: seq<Key>)
      requires Wired() && client.At(Idle(None))
      requires WorldOk(client.managed, client.start.world) && Guarded(client.managed, client.start.world) &&
               client.start.pc.Idle?
      modifies client
      ensures exists error :: client.At(Idle(error))
      ensures WorldOk(client.managed, client.world) && Guarded(client.managed, client.world)
      ensures forall c | c in client.managed :: |ByConsumer(client.world.services, c)| <= 1
    {
      hide LegalRun, Run, WorldOk, Guarded, ByConsumer;
      var error: Option<string> := None;
      for i := 0 to |queue|
        invariant client.At(Idle(error))
      {
        client.Begin(queue[i], error);
        error := Reconcile(queue[i]);
      }
      ClientIsSafe(client, Idle(error));
    }
  }
}
