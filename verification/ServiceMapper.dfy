// Builds the CAS record of a registration, and the credentials from the record that CAS stored.
module ServiceMapper {
  import opened Wrappers
  import opened GoStrings
  import opened CasTypes
  import opened ServicePattern
  import opened Domain
  import opened Mapper
  import opened World
  import opened Worker
  import opened Client

  // A service record under construction.
  class RegisteredService {
    var cls: string
    var id: int
    var templateName: string
    var name: string
    var serviceId: string
    var properties: map<string, Property>
    var clientId: string
    var clientSecret: string
    var scopes: Option<StringCollection>
    var grantTypes: Option<StringCollection>
    var responseTypes: Option<StringCollection>
    var audience: Option<StringCollection>

    constructor (cls: string, id: int, templateName: string, name: string, serviceId: string)
      ensures Value() == Service(cls, id, templateName, name, serviceId, "", Some(Properties(HASH_MAP_CLASS, map[])),
              "", "", None, None, None, None)
    {
      this.cls, this.id, this.templateName, this.name, this.serviceId := cls, id, templateName, name, serviceId;
      properties, clientId, clientSecret := map[], "", "";
      scopes, grantTypes, responseTypes, audience := None, None, None, None;
    }

    function Value(): Service
      reads this
    {
      Service(cls, id, templateName, name, serviceId, "", Some(Properties(HASH_MAP_CLASS, properties)), clientId,
        clientSecret, scopes, grantTypes, responseTypes, audience)
    }

    method AddOidcFields(cfg: Config, reg: Registration, existing: Option<Service>, secret: string)
      modifies `clientId, `clientSecret, `scopes, `grantTypes, `responseTypes
      ensures Value() == old(Value()).(clientId := ResolveClientId(reg, existing), clientSecret := cfg.hash(secret),
        scopes := SetParam(reg.params, "scopes"), grantTypes := SetParam(reg.params, "supportedGrantTypes"),
        responseTypes := SetParam(reg.params, "supportedResponseTypes"))
    {
      hide ResolveClientId, SetParam;
      clientId := ResolveClientId(reg, existing);
      clientSecret := cfg.hash(secret);
      scopes := NewSetParam(reg.params, "scopes");
      grantTypes := NewSetParam(reg.params, "supportedGrantTypes");
      responseTypes := NewSetParam(reg.params, "supportedResponseTypes");
    }

    method AddOAuthFields(cfg: Config, reg: Registration, existing: Option<Service>, secret: string)
      modifies `clientId, `clientSecret, `scopes, `grantTypes, `responseTypes, `audience
      ensures Value() == old(Value()).(clientId := ResolveClientId(reg, existing), clientSecret := cfg.hash(secret),
        scopes := SetParam(reg.params, "scopes"), grantTypes := SetParam(reg.params, "supportedGrantTypes"),
        responseTypes := SetParam(reg.params, "supportedResponseTypes"), audience := SetParam(reg.params, "audience"))
    {
      hide ResolveClientId, SetParam;
      AddOidcFields(cfg, reg, existing, secret);
      audience := NewSetParam(reg.params, "audience");
    }
  }

  method NewTemplateName(protocol: Protocol, hasLogoutUrl: bool) returns (name: string)
    ensures name == TemplateName(protocol, hasLogoutUrl)
  {
    var templates := ["BaseService", "DefaultAttributeReleasePolicy"];
    assert templates + [] == templates;
    match protocol {
      case CAS =>
        templates := templates + ["AllowProxyPolicy"];
      case OIDC | OAUTH =>
        if hasLogoutUrl {
          templates := templates + ["WithLogoutURI"];
        }
        templates := templates + ["DefaultOAuthService"];
      case Unsupported(_) =>
    }
    name := Join(templates);
  }

  // The reconcile that reads the fqdn at this point.
  function ReadsFqdnFor(pc: Pc): Job
    requires pc.ReadingFqdn? || pc.ReadingFqdnAgain?
  {
    match pc
    case ReadingFqdn(job, _, _) => job
    case ReadingFqdnAgain(job, _, _) => job
  }

  lemma AfterFqdn(cfg: Config, pc: Pc, r: Response)
    requires pc.ReadingFqdn? || pc.ReadingFqdnAgain?
    ensures !(r.FqdnAnswer? && r.fqdn.Some?) ==>
            Resume(cfg, pc, r) == RegistrationFailed(ReadsFqdnFor(pc).obj, Error(r))
  {
    hide RegistrationFailed, BuildServicePayload, BuildRegistrationResult, Upserted;
  }

  class ServiceMapper {
    const client: Client

    constructor (client: Client)
      ensures this.client == client
    {
      this.client := client;
    }

    method GetFqdn(ghost pc: Pc) returns (fqdn: Result<string>)
      requires (pc.ReadingFqdn? || pc.ReadingFqdnAgain?) && client.At(pc)
      modifies client
      ensures client.At(if fqdn.Ok? then Resume(client.cfg, pc, FqdnAnswer(Some(fqdn.value)))
                        else RegistrationFailed(ReadsFqdnFor(pc).obj, fqdn.error))
    {
      hide Resume, RegistrationFailed, LegalRun, Run;
      var r := client.Call(Request.GetFqdn, pc);
      AfterFqdn(client.cfg, pc, r);
      if !r.FqdnAnswer? {
        return Err(Error(r));
      }
      if r.fqdn.None? {
        return Err(NO_FQDN);
      }
      fqdn := Ok(r.fqdn.value);
    }

    method BuildServicePayload(reg: Registration, existing: Option<Service>, secret: string,
            ghost job: Job) returns (payload: Result<Service>)
      requires job.Wanted() == reg && client.At(ReadingFqdn(job, existing, secret))
      modifies client
      ensures client.At(if payload.Ok? then Writing(job, payload.value, existing.None?, secret)
              else RegistrationFailed(job.obj, payload.error))
    {
      hide RegistrationFailed, LegalRun, Run;
      var fqdn := GetFqdn(ReadingFqdn(job, existing, secret));
      if fqdn.Err? {
        return Err(fqdn.error);
      }
      var service := Assemble(reg, fqdn.value, existing, secret);
      payload := Ok(service);
    }

    // The record itself, field by field.
    method Assemble(reg: Registration, fqdn: string, existing: Option<Service>, secret: string)
        returns (payload: Service)
      ensures payload == Mapper.BuildServicePayload(client.cfg, fqdn, reg, existing, secret)
    {
      hide ResolveClientId, SetParam, RegistrationServiceId, EscapeDots, LogoutUrl, TemplateName;
      var template := NewTemplateName(reg.protocol, reg.logoutUrl != "");
      var service := new RegisteredService(ServiceClass(reg.protocol),
        if existing.None? then 0 else existing.value.id, template,
                                           reg.consumer, RegistrationServiceId(fqdn, reg.consumer));
      service.properties := service.properties["ServiceClass" := NewProperty(service.cls)];
      service.properties := service.properties["Fqdn" := NewProperty(EscapeDots(fqdn))];
      service.properties := service.properties["ServiceName" := NewProperty(reg.consumer)];
      service.properties := service.properties["LogoutUrl" := NewProperty(LogoutUrl(client.cfg, reg, fqdn))];
      match reg.protocol {
        case OIDC => service.AddOidcFields(client.cfg, reg, existing, secret);
        case OAUTH => service.AddOAuthFields(client.cfg, reg, existing, secret);
        case _ =>
      }
      payload := service.Value();
    }

    method BuildRegistrationResult(reg: Registration, service: Service, secret: string,
            ghost job: Job) returns (result: Result<RegistrationResult>)
      requires job.Wanted() == reg && client.At(ReadingFqdnAgain(job, service, secret))
      modifies client
      ensures client.At(if result.Ok? then Upserted(job, result.value) else RegistrationFailed(job.obj, result.error))
    {
      hide RegistrationFailed, LegalRun, Run, Upserted;
      var fqdn := GetFqdn(ReadingFqdnAgain(job, service, secret));
      if fqdn.Err? {
        return Err(fqdn.error);
      }
      result := Ok(Mapper.BuildRegistrationResult(client.cfg, fqdn.value, reg, service, secret));
    }
  }
}
