// The registration backend on CAS: list, then create or update; list, then delete.
module CasBackend {
  import opened Wrappers
  import opened GoStrings
  import opened Base64
  import opened CasTypes
  import opened Domain
  import opened Registry
  import opened Mapper
  import opened Cluster
  import opened World
  import opened Worker
  import opened Client
  import opened ServiceMapper

  // The one service of a consumer, if there is one.
  method FindService(services: seq<Service>, consumer: string) returns (found: Result<Option<Service>>)
    ensures found == FindServiceByConsumer(services, consumer)
  {
    var matched: Option<Service> := None;
    assert services[..|services|] == services;
    for i := 0 to |services|
      invariant ByConsumer(services[..i], consumer) == if matched.None? then [] else [matched.value]
    {
      ByConsumerSplit(services, i, consumer);
      if ConsumerOf(services[i]) == consumer {
        if matched.Some? {
          return Err("multiple Cas services found");
        }
        matched := Some(services[i]);
      }
    }
    found := Ok(matched);
  }

  lemma ByConsumerSplit(services: seq<Service>, i: nat, consumer: string)
    requires i < |services|
    ensures ByConsumer(services[..i + 1], consumer) ==
            ByConsumer(services[..i], consumer) + if ConsumerOf(services[i]) == consumer then [services[i]] else []
    ensures |ByConsumer(services, consumer)| >= |ByConsumer(services[..i + 1], consumer)|
  {
    assert services[..i + 1] == services[..i] + [services[i]];
    ByConsumerAppend(services[..i], [services[i]], consumer);
    assert services == services[..i + 1] + services[i + 1..];
    ByConsumerAppend(services[..i + 1], services[i + 1..], consumer);
  }

  // Where the backend is once it has looked for the consumer's service.
  function Found(job: Job, data: RegistrationData, existing: Option<Service>): Pc {
    match ClientSecret(data, job.obj.spec.protocol)
    case None => ReadingFqdn(job, existing, "")
    case Some(secret) => if secret != "" then ReadingFqdn(job, existing, secret) else Generating(job, existing)
  }

  lemma ListedIsFound(job: Job, data: RegistrationData, services: seq<Service>)
    ensures Listed(job, data, services) ==
      match FindServiceByConsumer(services, job.obj.spec.consumer)
      case Err(e) => RegistrationFailed(job.obj, e)
      case Ok(existing) => Found(job, data, existing)
  {
    hide RegistrationFailed, FindServiceByConsumer, ClientSecret;
  }

  lemma AfterGenerating(cfg: Config, job: Job, existing: Option<Service>, r: Response)
    ensures Resume(cfg, Generating(job, existing), r) ==
      if r.BytesAnswer? then ReadingFqdn(job, existing, Encode(r.bytes)) else RegistrationFailed(job.obj, Error(r))
  {
    hide RegistrationFailed, Encode;
  }

  lemma AfterListing(cfg: Config, job: Job, data: RegistrationData, r: Response)
    ensures Resume(cfg, Listing(job, data), r) ==
      if r.ServicesAnswer? then Listed(job, data, r.services) else RegistrationFailed(job.obj, Error(r))
  {
    hide RegistrationFailed, Listed;
  }

  lemma AfterStoring(cfg: Config, pc: Pc, r: Response)
    requires pc.Writing?
    ensures Resume(cfg, pc, r) ==
      if r.ServiceAnswer? then ReadingFqdnAgain(pc.job, r.service, pc.secret)
      else RegistrationFailed(pc.job.obj, Error(r))
  {
    hide RegistrationFailed;
  }

  lemma AfterListingForDelete(cfg: Config, obj: Reg, r: Response)
    ensures Resume(cfg, ListingForDelete(obj), r) ==
            if r.ServicesAnswer? then ListedForDelete(obj, r.services) else Idle(Some(Error(r)))
  {
    hide ListedForDelete;
  }

  lemma AfterDeleting(cfg: Config, pc: Pc, r: Response)
    requires pc.DeletingService?
    ensures Resume(cfg, pc, r) == if r.Done? then Unfinalizing(pc.obj) else Idle(Some(Error(r)))
  {
  }

  class CasBackend {
    const client: Client
    const mapper: ServiceMapper

    constructor (client: Client)
      ensures this.client == client && mapper.client == client
    {
      this.client := client;
      this.mapper := new ServiceMapper(client);
    }

    method Upsert(reg: Registration, data: RegistrationData, ghost job: Job)
        returns (result: Result<RegistrationResult>)
      requires mapper.client == client && job.Wanted() == reg && client.At(BeginUpsert(job, data))
      modifies client
      ensures client.At(if result.Ok? then Upserted(job, result.value) else RegistrationFailed(job.obj, result.error))
    {
      hide Resume, RegistrationFailed, LegalRun, Run, Upserted, Listed, FindServiceByConsumer;
      var invalid := ValidateRegistration(reg);
      if invalid.Some? {
        return Err(invalid.value);
      }
      var r := client.Call(Request.ListServices, Listing(job, data));
      AfterListing(client.cfg, job, data, r);
      if !r.ServicesAnswer? {
        return Err(Error(r));
      }
      ListedIsFound(job, data, r.services);
      var existing := FindService(r.services, reg.consumer);
      if existing.Err? {
        return Err(existing.error);
      }
      result := Store(reg, data, existing.value, job);
    }

    // Create or update, with the client secret that is reused or made.
    method Store(reg: Registration, data: RegistrationData, existing: Option<Service>, ghost job: Job)
      returns (result: Result<RegistrationResult>)
      requires mapper.client == client && job.Wanted() == reg && !reg.protocol.Unsupported? &&
        client.At(Found(job, data, existing))
      modifies client
      ensures client.At(if result.Ok? then Upserted(job, result.value) else RegistrationFailed(job.obj, result.error))
    {
      hide Resume, RegistrationFailed, LegalRun, Run, Upserted, Found;
      var secret := ResolveClientSecret(reg, data, existing, job);
      if secret.Err? {
        return Err(secret.error);
      }
      var payload := mapper.BuildServicePayload(reg, existing, secret.value, job);
      if payload.Err? {
        return Err(payload.error);
      }
      ghost var pc := Writing(job, payload.value, existing.None?, secret.value);
      var r;
      if existing.None? {
        r := client.Call(Request.CreateService(payload.value), pc);
      } else {
        r := client.Call(Request.UpdateService(payload.value), pc);
      }
      AfterStoring(client.cfg, pc, r);
      if !r.ServiceAnswer? {
        return Err(Error(r));
      }
      result := mapper.BuildRegistrationResult(reg, r.service, secret.value, job);
    }

    method ResolveClientSecret(reg: Registration, data: RegistrationData, existing: Option<Service>, ghost job: Job)
      returns (secret: Result<string>)
      requires job.Wanted() == reg && (!reg.protocol.Unsupported? ==> client.At(Found(job, data, existing)))
      modifies client
      ensures reg.protocol.Unsupported? ==> secret == Err("unsupported protocol") && client.world == old(client.world)
      ensures !reg.protocol.Unsupported? ==>
        client.At(if secret.Ok? then ReadingFqdn(job, existing, secret.value)
          else RegistrationFailed(job.obj, secret.error))
    {
      hide Resume, RegistrationFailed, LegalRun, Run;
      if reg.protocol == CAS {
        return Ok("");
      }
      var stored := ClientSecret(data, reg.protocol);
      if stored.None? {
        return Err("unsupported protocol");
      }
      if stored.value != "" {
        return Ok(stored.value);
      }
      secret := GenerateClientSecret(existing, job);
    }

    // Fills a buffer with random bytes and writes it in base64url without padding.
    method GenerateClientSecret(ghost existing: Option<Service>, ghost job: Job) returns (secret: Result<string>)
      requires client.At(Generating(job, existing))
      modifies client
      ensures client.At(if secret.Ok? then ReadingFqdn(job, existing, secret.value)
              else RegistrationFailed(job.obj, secret.error))
      ensures secret.Ok? ==> |secret.value| == 43 && TrimSpace(secret.value) == secret.value
    {
      hide Resume, RegistrationFailed, LegalRun, Run, Encode;
      var bytes := new Byte[32];
      var error := RandomRead(bytes, existing, job);
      if error.Some? {
        return Err(error.value);
      }
      GeneratedSecretSurvives(bytes[..]);
      secret := Ok(Encode(bytes[..]));
    }

    method RandomRead(bytes: array<Byte>, ghost existing: Option<Service>, ghost job: Job)
        returns (error: Option<string>)
      requires bytes.Length == 32 && client.At(Generating(job, existing))
      modifies client, bytes
      ensures client.At(if error.None? then ReadingFqdn(job, existing, Encode(bytes[..]))
              else RegistrationFailed(job.obj, error.value))
    {
      hide Resume, RegistrationFailed, LegalRun, Run, Encode;
      var r := client.Call(Request.RandomBytes, Generating(job, existing));
      AfterGenerating(client.cfg, job, existing, r);
      if !r.BytesAnswer? {
        return Some(Error(r));
      }
      for i := 0 to 32
        invariant bytes[..i] == r.bytes[..i] && client.At(ReadingFqdn(job, existing, Encode(r.bytes)))
      {
        bytes[i] := r.bytes[i];
      }
      assert bytes[..] == r.bytes;
      error := None;
    }

    method Delete(reg: Registration, ghost obj: Reg) returns (error: Option<string>)
      requires FromAuthRegistration(obj) == reg && HasFinalizer(obj) && client.At(BeginDeletion(obj))
      modifies client
      ensures client.At(if error.None? then Unfinalizing(obj) else Idle(error))
    {
      hide Resume, LegalRun, Run, FindServiceByConsumer;
      if TrimSpace(reg.consumer) == "" {
        return Some("consumer must not be empty");
      }
      var r := client.Call(Request.ListServices, ListingForDelete(obj));
      AfterListingForDelete(client.cfg, obj, r);
      if !r.ServicesAnswer? {
        return Some(Error(r));
      }
      var existing := FindService(r.services, reg.consumer);
      if existing.Err? {
        return Some(existing.error);
      }
      if existing.value.None? {
        return None;
      }
      if existing.value.value.id == 0 {
        return Some("no numeric id");
      }
      ghost var pc := DeletingService(obj, existing.value.value.id);
      r := client.Call(Request.DeleteService(existing.value.value.id), pc);
      AfterDeleting(client.cfg, pc, r);
      error := if r.Done? then None else Some(Error(r));
    }
  }
}
