// The clients of the two APIs as the code sees them, over stores that others change between any two calls.
module Client {
  import opened Wrappers
  import opened Mapper
  import opened Cluster
  import opened World
  import opened Worker

  class Client {
    const cfg: Config
    const managed: set<string>
    ghost const start: Machine
    ghost var past: seq<Event>
    var world: State

    constructor (cfg: Config, managed: set<string>, world: State)
      ensures this.cfg == cfg && this.managed == managed && this.world == world
      ensures start == Machine(world, Idle(None)) && past == [] && At(Idle(None))
    {
      this.cfg := cfg;
      this.managed := managed;
      this.world := world;
      this.start := Machine(world, Idle(None));
      this.past := [];
    }

    // What has happened since the start is a legal run of the machine, and the machine is now at `pc`.
    ghost predicate At(pc: Pc)
      reads this
    {
      LegalRun(cfg, managed, start, past) && Run(cfg, start, past) == Machine(world, pc)
    }

    // Any number of acts of others.
    method Others(ghost pc: Pc)
      requires At(pc)
      modifies this
      ensures At(pc)
    {
      var acts: seq<UserAct> := *;
      for i := 0 to |acts|
        invariant At(pc)
      {
        if LegalUser(managed, world, acts[i]) {
          LegalRunThen(cfg, managed, start, past, User(acts[i]));
          world := Apply(world, acts[i]);
          past := past + [User(acts[i])];
        }
      }
    }

    // One call. Whether it is answered, fails or loses its answer is not the caller's choice.
    method Call(request: Request, ghost pc: Pc) returns (r: Response)
      requires At(pc) && !pc.Idle? && RequestAt(pc) == request
      modifies this
      ensures At(Resume(cfg, pc, r))
      ensures r.BytesAnswer? ==> |r.bytes| == 32
    {
      hide Resume, RequestAt, LegalUser;
      Others(pc);
      var o: Outcome := *;
      var d: Draw := *;
      if !LegalDraw(world, request, o, d) {
        o := Refused("unavailable");
      }
      LegalRunThen(cfg, managed, start, past, Worker.Call(o, d));
      past := past + [Worker.Call(o, d)];
      var answer := Serve(world, request, o, d);
      world := answer.0;
      r := answer.1;
    }

    // A reconcile request is taken from the queue.
    method Begin(key: Key, ghost returned: Option<string>)
      requires At(Idle(returned))
      modifies this
      ensures At(Loading(key))
    {
      Others(Idle(returned));
      LegalRunThen(cfg, managed, start, past, Start(key));
      past := past + [Start(key)];
    }
  }
}
