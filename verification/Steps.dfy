// The machine's call steps spelled out, one program point at a time.
module Steps {
  import opened Wrappers
  import opened Base64
  import opened CasTypes
  import opened Registry
  import opened Mapper
  import opened Cluster
  import opened World
  import opened Worker

  lemma WorldAfter(cfg: Config, w: State, pc: Pc, o: Outcome, d: Draw)
    requires !pc.Idle?
    ensures After(cfg, w, pc, o, d).world == Serve(w, RequestAt(pc), o, d).0
  {
    hide Serve, Resume;
  }

  lemma AtLoading(cfg: Config, w: State, pc: Pc, o: Outcome, d: Draw)
    requires pc.Loading?
    ensures After(cfg, w, pc, o, d) == Machine(w,
      if !o.Answered? then Idle(Some(o.error)) else if pc.key in w.regs then Loaded(w.regs[pc.key]) else Idle(None))
  {
    hide Loaded;
  }

  lemma AtFinalizing(cfg: Config, w: State, pc: Pc, o: Outcome, d: Draw)
    requires pc.Finalizing?
    ensures var reg := AddFinalizer(pc.obj); var m' := After(cfg, w, pc, o, d);
      if o.Refused? || reg.Id() !in w.regs || w.regs[reg.Id()] != pc.obj then
        m'.world == w && m'.pc.Idle? && m'.pc.returned.Some?
      else
        m'.world == w.(regs := w.regs[reg.Id() := reg]) &&
        m'.pc == if o.Answered? then Begin(reg) else Idle(Some(o.error))
  {
    hide Begin;
  }

  lemma AtReadingData(cfg: Config, w: State, pc: Pc, o: Outcome, d: Draw)
    requires pc.ReadingData?
    ensures After(cfg, w, pc, o, d) == Machine(w,
      if !o.Answered? then Idle(Some(o.error))
      else BeginUpsert(pc.job, if pc.job.Target() in w.secrets then w.secrets[pc.job.Target()].data else map[]))
  {
    hide BeginUpsert;
  }

  lemma AtListing(cfg: Config, w: State, pc: Pc, o: Outcome, d: Draw)
    requires pc.Listing?
    ensures After(cfg, w, pc, o, d) == Machine(w,
      if o.Answered? then Listed(pc.job, pc.data, w.services) else RegistrationFailed(pc.job.obj, o.error))
  {
    hide Listed, RegistrationFailed;
  }

  lemma AtGenerating(cfg: Config, w: State, pc: Pc, o: Outcome, d: Draw)
    requires pc.Generating?
    ensures After(cfg, w, pc, o, d) == Machine(w,
      if o.Answered? then ReadingFqdn(pc.job, pc.existing, Encode(d.bytes))
      else RegistrationFailed(pc.job.obj, o.error))
  {
    hide RegistrationFailed, Encode;
  }

  function FqdnError(o: Outcome): string {
    if o.Answered? then NO_FQDN else o.error
  }

  lemma AtReadingFqdn(cfg: Config, w: State, pc: Pc, o: Outcome, d: Draw)
    requires pc.ReadingFqdn?
    ensures After(cfg, w, pc, o, d) == Machine(w,
      if o.Answered? && w.fqdn.Some? then
        Writing(pc.job, BuildServicePayload(cfg, w.fqdn.value, pc.job.Wanted(), pc.existing, pc.secret),
          pc.existing.None?, pc.secret)
      else RegistrationFailed(pc.job.obj, FqdnError(o)))
  {
    hide RegistrationFailed, BuildServicePayload;
  }

  // The list after the payload is stored, and the record the client returns.
  function Written(services: seq<Service>, pc: Pc, id: int): seq<Service>
    requires pc.Writing?
  {
    if pc.create then services + [pc.payload.(id := id)] else Replace(services, pc.payload)
  }

  function Echo(pc: Pc, d: Draw): Service
    requires pc.Writing?
  {
    if pc.create && d.echo then pc.payload.(id := d.id) else pc.payload
  }

  lemma AtWriting(cfg: Config, w: State, pc: Pc, o: Outcome, d: Draw)
    requires pc.Writing?
    ensures After(cfg, w, pc, o, d) == Machine(
      if o.Refused? then w else w.(services := Written(w.services, pc, d.id)),
      if o.Answered? then ReadingFqdnAgain(pc.job, Echo(pc, d), pc.secret) else RegistrationFailed(pc.job.obj, o.error))
  {
    hide RegistrationFailed, Replace;
  }

  lemma AtReadingFqdnAgain(cfg: Config, w: State, pc: Pc, o: Outcome, d: Draw)
    requires pc.ReadingFqdnAgain?
    ensures After(cfg, w, pc, o, d) == Machine(w,
      if o.Answered? && w.fqdn.Some? then
        Upserted(pc.job, BuildRegistrationResult(cfg, w.fqdn.value, pc.job.Wanted(), pc.persisted, pc.secret))
      else RegistrationFailed(pc.job.obj, FqdnError(o)))
  {
    hide RegistrationFailed, BuildRegistrationResult, Upserted;
  }

  lemma AtPatching(cfg: Config, w: State, pc: Pc, o: Outcome, d: Draw)
    requires pc.Patching? && pc.base.Id() in w.regs && w.regs[pc.base.Id()].status == pc.base.status
    requires pc.patched == pc.base.(status := pc.patched.status)
    ensures var reg := w.regs[pc.base.Id()].(status := pc.patched.status);
      After(cfg, w, pc, o, d) == Machine(
        if o.Refused? then w else w.(regs := w.regs[pc.base.Id() := reg]),
        if o.Answered? then AfterPatch(reg, pc.next) else AfterFailedPatch(pc.next, o.error))
  {
    hide AfterPatch;
  }

  lemma AtReadingSecret(cfg: Config, w: State, pc: Pc, o: Outcome, d: Draw)
    requires pc.ReadingSecret?
    ensures After(cfg, w, pc, o, d) == Machine(w,
      if !o.Answered? then SecretFailed(pc.job.obj, o.error)
      else if pc.job.Target() in w.secrets then SecretRead(pc.job, pc.result, w.secrets[pc.job.Target()])
      else CreatingSecret(pc.job,
        BuildDesiredSecret(pc.result, pc.job.obj, pc.job.name).(controller := Some(OwnerFor(pc.job.obj)))))
  {
    hide SecretFailed, SecretRead, BuildDesiredSecret;
  }

  lemma AtCreatingSecret(cfg: Config, w: State, pc: Pc, o: Outcome, d: Draw)
    requires pc.CreatingSecret?
    ensures var fits := pc.desired.Id() !in w.secrets;
      After(cfg, w, pc, o, d) == Machine(
        if o.Refused? || !fits then w else w.(secrets := w.secrets[pc.desired.Id() := pc.desired]),
        if o.Answered? && fits then CleanUp(pc.job)
        else SecretFailed(pc.job.obj, if o.Answered? then "already exists" else o.error))
  {
    hide SecretFailed, CleanUp;
  }

  lemma AtUpdatingSecret(cfg: Config, w: State, pc: Pc, o: Outcome, d: Draw)
    requires pc.UpdatingSecret?
    ensures var fits := pc.merged.Id() in w.secrets && w.secrets[pc.merged.Id()] == pc.read &&
            pc.merged.stype == pc.read.stype;
      var m' := After(cfg, w, pc, o, d);
      m'.world == (if o.Refused? || !fits then w else w.(secrets := w.secrets[pc.merged.Id() := pc.merged])) &&
      if o.Answered? && fits then m'.pc == CleanUp(pc.job) else exists error :: m'.pc == SecretFailed(pc.job.obj, error)
  {
    hide SecretFailed, CleanUp;
    var r := Serve(w, RequestAt(pc), o, d).1;
    assert r.Done? || After(cfg, w, pc, o, d).pc == SecretFailed(pc.job.obj, Error(r));
  }

  lemma AtReadingPrevious(cfg: Config, w: State, pc: Pc, o: Outcome, d: Draw)
    requires pc.ReadingPrevious?
    ensures var prev := pc.job.Previous();
      After(cfg, w, pc, o, d) == Machine(w,
        if !o.Answered? then Idle(Some(o.error))
        else if prev in w.secrets && IsControlledBy(w.secrets[prev], pc.job.obj) then
          DeletingPrevious(pc.job, w.secrets[prev])
        else Publish(pc.job.obj))
  {
    hide Publish;
  }

  lemma AtDeletingPrevious(cfg: Config, w: State, pc: Pc, o: Outcome, d: Draw)
    requires pc.DeletingPrevious?
    ensures After(cfg, w, pc, o, d) == Machine(
      if o.Refused? then w else w.(secrets := w.secrets - {pc.job.Previous()}),
      if o.Answered? then Publish(pc.job.obj) else Idle(Some(o.error)))
  {
    hide Publish;
    assert pc.job.Previous() !in w.secrets ==> w.secrets - {pc.job.Previous()} == w.secrets;
  }

  lemma AtListingForDelete(cfg: Config, w: State, pc: Pc, o: Outcome, d: Draw)
    requires pc.ListingForDelete?
    ensures After(cfg, w, pc, o, d) == Machine(w,
            if o.Answered? then ListedForDelete(pc.obj, w.services) else Idle(Some(o.error)))
  {
    hide ListedForDelete;
  }

  lemma AtDeletingService(cfg: Config, w: State, pc: Pc, o: Outcome, d: Draw)
    requires pc.DeletingService?
    ensures After(cfg, w, pc, o, d) == Machine(
      if o.Refused? then w else w.(services := Registry.Remove(w.services, pc.id)),
      if o.Answered? then Unfinalizing(pc.obj) else Idle(Some(o.error)))
  {
    hide Registry.Remove;
  }

  lemma AtUnfinalizing(cfg: Config, w: State, pc: Pc, o: Outcome, d: Draw)
    requires pc.Unfinalizing?
    ensures var reg := RemoveFinalizer(pc.obj); var m' := After(cfg, w, pc, o, d);
      if o.Refused? || reg.Id() !in w.regs || w.regs[reg.Id()] != pc.obj then
        m'.world == w && m'.pc.Idle? && m'.pc.returned.Some?
      else m'.world == StoreReg(w, reg) && m'.pc == if o.Answered? then Idle(None) else Idle(Some(o.error))
  {
  }

  // Points that hold nothing of the credentials.
  predicate Quiet(pc: Pc) {
    match pc
    case Idle(_) => true
    case Patching(_, _, next) => !next.ResolvedRef?
    case ReadingData(_) => true
    case Finalizing(_) => true
    case ReadingPrevious(_) => true
    case DeletingPrevious(_, _) => true
    case ListingForDelete(_) => true
    case DeletingService(_, _) => true
    case Unfinalizing(_) => true
    case _ => false
  }

  lemma StartIsQuiet(cfg: Config, w: State, pc: Pc, o: Outcome, d: Draw)
    requires pc.Loading? || pc.Finalizing?
    ensures Quiet(After(cfg, w, pc, o, d).pc)
  {
    hide After, Loaded, Begin;
    if pc.Loading? { AtLoading(cfg, w, pc, o, d); } else { AtFinalizing(cfg, w, pc, o, d); }
  }

  lemma SecretWriteIsQuiet(cfg: Config, w: State, pc: Pc, o: Outcome, d: Draw)
    requires pc.CreatingSecret? || pc.UpdatingSecret?
    ensures Quiet(After(cfg, w, pc, o, d).pc)
  {
    hide After, SecretFailed, CleanUp;
    if pc.CreatingSecret? { AtCreatingSecret(cfg, w, pc, o, d); } else { AtUpdatingSecret(cfg, w, pc, o, d); }
  }

  lemma CleanUpIsQuiet(cfg: Config, w: State, pc: Pc, o: Outcome, d: Draw)
    requires pc.ReadingPrevious? || pc.DeletingPrevious?
    ensures Quiet(After(cfg, w, pc, o, d).pc)
  {
    hide After, Publish;
    if pc.ReadingPrevious? { AtReadingPrevious(cfg, w, pc, o, d); } else { AtDeletingPrevious(cfg, w, pc, o, d); }
  }

  lemma DeletionIsQuiet(cfg: Config, w: State, pc: Pc, o: Outcome, d: Draw)
    requires pc.ListingForDelete? || pc.DeletingService? || pc.Unfinalizing?
    ensures Quiet(After(cfg, w, pc, o, d).pc)
  {
    hide After, ListedForDelete;
    if pc.ListingForDelete? { AtListingForDelete(cfg, w, pc, o, d); }
    else if pc.DeletingService? { AtDeletingService(cfg, w, pc, o, d); }
    else { AtUnfinalizing(cfg, w, pc, o, d); }
  }

  predicate Carrier(pc: Pc) {
    pc.ReadingData? || pc.Listing? || pc.Generating? || pc.ReadingFqdn? || pc.Writing? || pc.ReadingFqdnAgain? ||
    pc.Patching? || pc.ReadingSecret?
  }

  lemma OthersAreQuiet(cfg: Config, w: State, pc: Pc, o: Outcome, d: Draw)
    requires !pc.Idle? && !Carrier(pc)
    ensures Quiet(After(cfg, w, pc, o, d).pc)
  {
    hide After, Quiet;
    if pc.Loading? || pc.Finalizing? { StartIsQuiet(cfg, w, pc, o, d); }
    else if pc.CreatingSecret? || pc.UpdatingSecret? { SecretWriteIsQuiet(cfg, w, pc, o, d); }
    else if pc.ReadingPrevious? || pc.DeletingPrevious? { CleanUpIsQuiet(cfg, w, pc, o, d); }
    else { DeletionIsQuiet(cfg, w, pc, o, d); }
  }

  // The write call comes after the first read of the fqdn only.
  lemma OnlyFqdnWrites(cfg: Config, w: State, pc: Pc, o: Outcome, d: Draw)
    requires !pc.Idle? && !pc.ReadingFqdn?
    ensures !After(cfg, w, pc, o, d).pc.Writing?
  {
    hide Loaded, Begin, BeginUpsert, Listed, Upserted, SecretRead, CleanUp, BeginDeletion, ListedForDelete,
         RegistrationFailed, SecretFailed, Publish, Succeed, Block, InvalidPublishedPc, InvalidCompletedPc,
         BuildRegistrationResult, Encode, Serve;
  }
}
