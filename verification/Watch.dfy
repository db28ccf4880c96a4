// Which reconcile requests the events of the API server put into the work queue.
module Watch {
  import opened Wrappers
  import opened Mapper
  import opened Cluster
  import opened World
  import opened Worker
  import opened Invariant

  // deletionTimestampChangedPredicate.Update
  predicate DeletionTimestampChanged(before: Option<int>, after: Option<int>) {
    if before.None? && after.None? then false
    else if before.None? || after.None? then true
    else before.value != after.value
  }

  // The event filter on updates of registrations: spec changes (a new generation), annotations, labels, deletion.
  predicate UpdatePasses(before: Reg, after: Reg) {
    before.generation != after.generation || before.annotations != after.annotations || before.labels != after.labels ||
    DeletionTimestampChanged(before.deletedAt, after.deletedAt)
  }

  predicate SecretChanged(w: State, w': State, sk: Key) {
    if sk in w.secrets && sk in w'.secrets then w.secrets[sk] != w'.secrets[sk]
    else (sk in w.secrets) != (sk in w'.secrets)
  }

  // A registration is woken by a change of the Secret it resolves to.
  predicate WokenBySecret(w: State, w': State, k: Key)
    requires k in w'.regs
  {
    ResolvedKey(w'.regs[k]).Some? && SecretChanged(w, w', ResolvedKey(w'.regs[k]).value)
  }

  // The requests that follow from a change of the stores.
  function Wakes(w: State, w': State): set<Key> {
    (set k | k in w'.regs && WokenBySecret(w, w', k)) +
    (set k | k in w.regs && k in w'.regs && UpdatePasses(w.regs[k], w'.regs[k])) +
    (set k | k in w.regs && k !in w'.regs) +
    (set k | k in w'.regs && k !in w.regs)
  }

  // What the operator itself writes to a registration, status patches and its finalizer, never passes the filter. So a
  // reconcile is woken by its own work through Secrets only.
  lemma OwnUpdatesFiltered(managed: set<string>, cfg: Config, m: Machine, o: Outcome, d: Draw, k: Key)
    requires Inv(managed, m) && k in m.world.regs && k in Step(cfg, m, Call(o, d)).world.regs
    ensures !UpdatePasses(m.world.regs[k], Step(cfg, m, Call(o, d)).world.regs[k])
  {
    hide Serve, Resume, Inv;
    if !m.pc.Idle? {
      RegAfterInv(managed, m, o, d, k);
    }
  }

  // Of what users change, the spec, labels and annotations pass, and so does the wish to delete a registration that a
  // finalizer holds. A change of finalizers, or none, does not.
  lemma UserChangesPass(managed: set<string>, w: State, reg: Reg, key: Key, now: int)
    requires reg.Id() in w.regs && key in w.regs && RegsOk(managed, w)
    ensures reg.Id() in Apply(w, EditReg(reg)).regs ==>
            var before := w.regs[reg.Id()];
            (UpdatePasses(before, Apply(w, EditReg(reg)).regs[reg.Id()]) <==>
             reg.spec != before.spec || reg.labels != before.labels || reg.annotations != before.annotations)
    ensures w.regs[key].deletedAt.None? && key in Apply(w, DeleteReg(key, now)).regs ==>
            UpdatePasses(w.regs[key], Apply(w, DeleteReg(key, now)).regs[key])
  {
  }
}
