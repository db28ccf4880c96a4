// The finalizers of others stay on a registration, in their order, whatever the operator does with its own.
module Finalizers {
  import opened Cluster
  import opened World
  import opened Worker
  import opened Invariant

  // Read from the back, `rest` is `all` but for the operator's finalizer: every other one is there as often as in
  // `all`, in the same order.
  predicate Others(all: seq<string>, rest: seq<string>) {
    if all == [] then rest == []
    else
      var last, before := all[|all| - 1], all[..|all| - 1];
      if last == FINALIZER then Others(before, rest)
      else rest != [] && rest[|rest| - 1] == last && Others(before, rest[..|rest| - 1])
  }

  lemma {:induction false} OthersCount(all: seq<string>, rest: seq<string>, f: string)
    requires Others(all, rest) && f != FINALIZER
    ensures multiset(rest)[f] == multiset(all)[f] && FINALIZER !in rest
  {
    if all != [] {
      var last, before := all[|all| - 1], all[..|all| - 1];
      assert all == before + [last];
      if last == FINALIZER {
        OthersCount(before, rest, f);
      } else {
        OthersCount(before, rest[..|rest| - 1], f);
        assert rest == rest[..|rest| - 1] + [last];
      }
    }
  }

  lemma {:induction false} WithoutAppend(a: seq<string>, b: seq<string>)
    ensures Without(a + b, FINALIZER) == Without(a, FINALIZER) + Without(b, FINALIZER)
  {
    if a == [] {
      assert a + b == b;
    } else {
      WithoutAppend(a[1..], b);
      assert (a + b)[1..] == a[1..] + b;
    }
  }

  lemma {:induction false} RemovingLeavesOthers(all: seq<string>)
    ensures Others(all, Without(all, FINALIZER))
  {
    if all != [] {
      var last, before := all[|all| - 1], all[..|all| - 1];
      var rest := Without(before, FINALIZER);
      assert all == before + [last];
      WithoutAppend(before, [last]);
      RemovingLeavesOthers(before);
      if last == FINALIZER {
        assert Without(all, FINALIZER) == rest + [] == rest;
      } else {
        assert Without(all, FINALIZER) == rest + [last];
        assert (rest + [last])[..|rest|] == rest;
      }
    }
  }

  lemma {:induction false} OthersOfOthers(rest: seq<string>)
    requires FINALIZER !in rest
    ensures Others(rest, rest)
  {
    if rest != [] { OthersOfOthers(rest[..|rest| - 1]); }
  }

  lemma AddingLeavesOthers(reg: Reg, rest: seq<string>)
    requires Others(reg.finalizers, rest)
    ensures Others(AddFinalizer(reg).finalizers, rest)
  {
    if !HasFinalizer(reg) {
      var all := AddFinalizer(reg).finalizers;
      assert all[..|all| - 1] == reg.finalizers;
    }
  }

  lemma {:induction false} NoOthers(all: seq<string>)
    ensures Others(all, []) <==> forall f | f in all :: f == FINALIZER
  {
    if all == [] {
      assert Others(all, []);
    } else {
      var last, before := all[|all| - 1], all[..|all| - 1];
      NoOthers(before);
      assert all == before + [last];
      if last == FINALIZER {
        assert Others(all, []) == Others(before, []);
        assert forall f :: f in all <==> f in before || f == last;
      } else {
        assert last in all && !Others(all, []);
      }
    }
  }

  lemma {:induction false} OthersUnique(all: seq<string>, a: seq<string>, b: seq<string>)
    requires Others(all, a) && Others(all, b)
    ensures a == b
  {
    if all != [] {
      var last, before := all[|all| - 1], all[..|all| - 1];
      if last == FINALIZER { OthersUnique(before, a, b); }
      else { OthersUnique(before, a[..|a| - 1], b[..|b| - 1]); }
    }
  }

  // Whatever the outcome of a call, the registration keeps the finalizers of others, and it is gone only if it was
  // being deleted and no finalizer of others held it. The operator's own comes at the end.
  lemma CallKeepsOthers(managed: set<string>, m: Machine, o: Outcome, d: Draw, k: Key, rest: seq<string>)
    requires Inv(managed, m) && !m.pc.Idle? && k in m.world.regs && Others(m.world.regs[k].finalizers, rest)
    ensures var w' := Serve(m.world, RequestAt(m.pc), o, d).0;
      if k in w'.regs then Others(w'.regs[k].finalizers, rest)
      else m.world.regs[k].deletedAt.Some? && rest == []
    ensures var w' := Serve(m.world, RequestAt(m.pc), o, d).0;
      k in w'.regs && FINALIZER in w'.regs[k].finalizers && FINALIZER !in m.world.regs[k].finalizers ==>
        w'.regs[k].finalizers == m.world.regs[k].finalizers + ["k8s.cloudogu.com/auth-registration-finalizer"]
  {
    hide Serve, Inv;
    var reg := m.world.regs[k];
    RegAfterInv(managed, m, o, d, k);
    RemovingLeavesOthers(reg.finalizers);
    OthersUnique(reg.finalizers, rest, Without(reg.finalizers, FINALIZER));
    OthersCount(reg.finalizers, rest, "");
    OthersOfOthers(rest);
    AddingLeavesOthers(reg, rest);
    if k !in Serve(m.world, RequestAt(m.pc), o, d).0.regs { Unfinalized(managed, m, o, d); }
  }

  lemma Unfinalized(managed: set<string>, m: Machine, o: Outcome, d: Draw)
    requires Inv(managed, m) && m.pc.Unfinalizing? && m.pc.obj.Id() in m.world.regs
    requires m.pc.obj.Id() !in Serve(m.world, RequestAt(m.pc), o, d).0.regs
    ensures m.world.regs[m.pc.obj.Id()] == m.pc.obj && m.pc.obj.deletedAt.Some? &&
            Without(m.pc.obj.finalizers, FINALIZER) == []
  {
    hide Inv;
  }
}
