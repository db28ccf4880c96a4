// The index that leads from a Secret to the registrations resolving to it.
module SecretIndex {
  import opened Wrappers
  import opened Cluster
  import opened World
  import opened Watch

  // The cache: the registrations, and for each namespace and indexed value those filed under it.
  datatype Cache = Cache(objects: map<Key, Reg>, index: map<Key, set<Key>>)

  // A create or an edit, and a delete.
  datatype Change = Put(reg: Reg) | Drop(key: Key)

  // indexAuthRegistrationBySecretName
  function IndexedNames(reg: Reg): seq<string> {
    match ResolveSecretName(reg)
    case Err(_) => []
    case Ok((name, _)) => [name]
  }

  function Entries(reg: Reg): set<Key> {
    set name | name in IndexedNames(reg) :: Key(reg.namespace, name)
  }

  function Unfile(index: map<Key, set<Key>>, entries: set<Key>, k: Key): map<Key, set<Key>> {
    map e | e in index :: if e in entries then index[e] - {k} else index[e]
  }

  function File(index: map<Key, set<Key>>, entries: set<Key>, k: Key): map<Key, set<Key>> {
    map e | e in index.Keys + entries :: (if e in index then index[e] else {}) + (if e in entries then {k} else {})
  }

  // A change takes the old version out of its entries and files the new one, and touches no others.
  function Update(c: Cache, change: Change): Cache {
    match change
    case Put(reg) =>
      var k := reg.Id();
      var rest := if k in c.objects then Unfile(c.index, Entries(c.objects[k]), k) else c.index;
      Cache(c.objects[k := reg], File(rest, Entries(reg), k))
    case Drop(k) =>
      if k in c.objects then Cache(c.objects - {k}, Unfile(c.index, Entries(c.objects[k]), k)) else c
  }

  function Replay(history: seq<Change>): Cache {
    if history == [] then Cache(map[], map[]) else Update(Replay(history[..|history| - 1]), history[|history| - 1])
  }

  // The list call with a namespace and an indexed value.
  function Lookup(c: Cache, sk: Key): set<Key> {
    if sk in c.index then c.index[sk] else {}
  }

  function Scan(objects: map<Key, Reg>, sk: Key): set<Key> {
    set k | k in objects && ResolvedKey(objects[k]) == Some(sk)
  }

  lemma EntriesAreResolved(reg: Reg, sk: Key)
    ensures sk in Entries(reg) <==> ResolvedKey(reg) == Some(sk)
  {
    if ResolveSecretName(reg).Ok? {
      assert ResolveSecretName(reg).value.0 in IndexedNames(reg);
    }
  }

  lemma UpdateKeeps(c: Cache, change: Change, sk: Key)
    requires Lookup(c, sk) == Scan(c.objects, sk)
    ensures Lookup(Update(c, change), sk) == Scan(Update(c, change).objects, sk)
  {
    hide Entries, ResolvedKey;
    var k := if change.Put? then change.reg.Id() else change.key;
    if change.Put? { EntriesAreResolved(change.reg, sk); }
    if k in c.objects { EntriesAreResolved(c.objects[k], sk); }
  }

  // Over any history of creates, edits and deletes, the indexed lookup finds exactly the registrations that a scan of
  // all of them finds: those in the Secret's namespace whose resolved name is the Secret's.
  lemma {:induction false} LookupIsScan(history: seq<Change>, sk: Key)
    ensures Lookup(Replay(history), sk) == Scan(Replay(history).objects, sk)
  {
    if history != [] {
      LookupIsScan(history[..|history| - 1], sk);
      UpdateKeeps(Replay(history[..|history| - 1]), history[|history| - 1], sk);
    }
  }

  // A registration is woken by a change of a Secret exactly when the lookup for that Secret finds it.
  lemma WokenIsIndexed(history: seq<Change>, w: State, w': State, sk: Key, k: Key)
    requires Replay(history).objects == w'.regs && SecretChanged(w, w', sk)
    ensures k in Lookup(Replay(history), sk) ==> k in w'.regs && WokenBySecret(w, w', k) && k in Wakes(w, w')
    ensures k in w'.regs && ResolvedKey(w'.regs[k]) == Some(sk) ==> k in Lookup(Replay(history), sk)
  {
    hide ResolvedKey, Replay, SecretChanged, UpdatePasses;
    LookupIsScan(history, sk);
  }

  // mapSecretToAuthRegistrations. The list call looks up the index, in no particular order; when it fails, there are no
  // requests. Otherwise every registration that resolves to the Secret is requested, once.
  method MapSecretToAuthRegistrations(cache: Cache, ghost history: seq<Change>, secret: Secret,
          listFails: bool) returns (requests: seq<Key>)
    requires cache == Replay(history)
    ensures listFails ==> requests == []
    ensures !listFails ==> forall k :: k in requests <==> k in Scan(cache.objects, secret.Id())
    ensures forall i, j | 0 <= i < j < |requests| :: requests[i] != requests[j]
  {
    requests := [];
    if listFails {
      return;
    }
    LookupIsScan(history, secret.Id());
    var items := Lookup(cache, secret.Id());
    while items != {}
      invariant items <= Scan(cache.objects, secret.Id())
      invariant forall k :: k in Scan(cache.objects, secret.Id()) <==> k in items || k in requests
      invariant forall k | k in items :: k !in requests
      invariant forall i, j | 0 <= i < j < |requests| :: requests[i] != requests[j]
      decreases items
    {
      var k :| k in items;
      items := items - {k};
      requests := requests + [k];
    }
  }
}
