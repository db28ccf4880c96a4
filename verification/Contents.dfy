// What CAS and the credentials Secret hold for a registration that is settled, said of the registration itself.
module Contents {
  import opened Wrappers
  import opened GoStrings
  import opened Domain
  import opened CasTypes
  import opened Registry
  import opened ServicePattern
  import opened Mapper
  import opened Cluster
  import opened World
  import opened FixedPoint

  function Param(reg: Reg, key: string): string {
    if key in reg.spec.params then reg.spec.params[key] else ""
  }

  // The items of the comma list, as a hash set; nothing if there are none.
  predicate HoldsItems(c: Option<StringCollection>, list: string) {
    var parts := Split(TrimSpace(list));
    match c
    case None => ItemsOf(parts, [])
    case Some(items) =>
      items.cls == "java.util.HashSet" && items.values.Some? && items.values.value != [] &&
      ItemsOf(parts, items.values.value)
  }

  predicate IsSingle(p: Property, value: string) {
    p.cls == "org.apereo.cas.services.DefaultRegisteredServiceProperty" &&
    p.values == StringCollection("java.util.LinkedHashSet", Some([value]))
  }

  function ClassOf(protocol: Protocol): string {
    match protocol
    case CAS => "org.apereo.cas.services.CasRegisteredService"
    case OIDC => "org.apereo.cas.services.OidcRegisteredService"
    case OAUTH => "org.apereo.cas.support.oauth.services.OAuthRegisteredService"
    case Unsupported(_) => ""
  }

  function LogoutPath(reg: Reg): string {
    if reg.spec.logoutUrl.None? then "" else reg.spec.logoutUrl.value
  }

  ghost predicate HoldsProperties(cfg: Config, fqdn: string, reg: Reg, s: Service) {
    s.properties.Some? && s.properties.value.cls == "java.util.HashMap" &&
    var entries := s.properties.value.entries;
    entries.Keys == {"ServiceClass", "Fqdn", "ServiceName", "LogoutUrl"} &&
    IsSingle(entries["ServiceClass"], s.cls) && IsSingle(entries["ServiceName"], reg.spec.consumer) &&
    (exists host :: IsSingle(entries["Fqdn"], host) && UnescapeDots(host) == fqdn) &&
    IsSingle(entries["LogoutUrl"],
      "https://" + fqdn + "/" + cfg.joinPath(TrimSpace(reg.spec.consumer), TrimSpace(LogoutPath(reg))))
  }

  predicate HoldsTemplates(reg: Reg, s: Service) {
    var templates := Split(s.templateName); var protocol := reg.spec.protocol;
    ["BaseService", "DefaultAttributeReleasePolicy"] <= templates &&
    ("AllowProxyPolicy" in templates <==> protocol == CAS) &&
    ("WithLogoutURI" in templates <==> LogoutPath(reg) != "" && (protocol == OIDC || protocol == OAUTH)) &&
    ("DefaultOAuthService" in templates <==> protocol == OIDC || protocol == OAUTH)
  }

  // Client id and parameters. A client id among the parameters is taken before all others.
  predicate HoldsClient(reg: Reg, s: Service) {
    if reg.spec.protocol == OIDC || reg.spec.protocol == OAUTH then
      !AllSpace(s.clientId) &&
      (!AllSpace(Param(reg, "clientId")) ==> s.clientId == TrimSpace(Param(reg, "clientId"))) &&
      HoldsItems(s.scopes, Param(reg, "scopes")) && HoldsItems(s.grantTypes, Param(reg, "supportedGrantTypes")) &&
      HoldsItems(s.responseTypes, Param(reg, "supportedResponseTypes")) &&
      if reg.spec.protocol == OAUTH then HoldsItems(s.audience, Param(reg, "audience")) else s.audience.None?
    else
      s.clientId == "" && s.clientSecret == "" &&
      s.scopes.None? && s.grantTypes.None? && s.responseTypes.None? && s.audience.None?
  }

  // The record of this registration.
  ghost predicate IsRecordOf(cfg: Config, fqdn: string, reg: Reg, s: Service) {
    s.cls == ClassOf(reg.spec.protocol) && s.name == reg.spec.consumer && s.logoutUrl == "" &&
    (Word(fqdn) && Word(reg.spec.consumer) ==>
       forall url :: AcceptedBy(s.serviceId, url) <==> Accepts(fqdn, reg.spec.consumer, url, false)) &&
    HoldsTemplates(reg, s) && HoldsProperties(cfg, fqdn, reg, s) && HoldsClient(reg, s)
  }

  lemma ItemsHeld(params: map<string, string>, key: string)
    ensures HoldsItems(SetParam(params, key), if key in params then params[key] else "")
  {
    hide ItemsOf, Split, TrimSpace, KeepItems;
    ItemsOfParts(if key in params then params[key] else "");
  }

  lemma ClientHeld(cfg: Config, fqdn: string, reg: Reg, existing: Option<Service>, secret: string)
    requires !AllSpace(reg.spec.consumer)
    ensures HoldsClient(reg, BuildServicePayload(cfg, fqdn, FromAuthRegistration(reg), existing, secret))
  {
    hide RegistrationServiceId, PayloadProperties, SetParam, TemplateName, HoldsItems;
    ItemsHeld(reg.spec.params, "scopes");
    ItemsHeld(reg.spec.params, "supportedGrantTypes");
    ItemsHeld(reg.spec.params, "supportedResponseTypes");
    ItemsHeld(reg.spec.params, "audience");
    TrimmedIsText(Param(reg, "clientId"));
  }

  lemma TrimmedIsText(s: string)
    ensures !AllSpace(s) ==> !AllSpace(TrimSpace(s))
  {
    if !AllSpace(s) { assert !IsSpace(TrimSpace(s)[0]); }
  }

  lemma PropertiesSent(cfg: Config, fqdn: string, reg: Registration, existing: Option<Service>, secret: string)
    ensures var s := BuildServicePayload(cfg, fqdn, reg, existing, secret);
      s.properties == Some(PayloadProperties(cfg, fqdn, reg)) && s.cls == ServiceClass(reg.protocol)
  {
    hide RegistrationServiceId, SetParam, TemplateName, PayloadProperties, ResolveClientId, ServiceClass;
  }

  lemma PropertiesHeld(cfg: Config, fqdn: string, reg: Reg, existing: Option<Service>, secret: string)
    ensures HoldsProperties(cfg, fqdn, reg, BuildServicePayload(cfg, fqdn, FromAuthRegistration(reg), existing, secret))
  {
    hide BuildServicePayload, EscapeDots, UnescapeDots, TrimSpace, ServiceClass;
    PropertiesSent(cfg, fqdn, FromAuthRegistration(reg), existing, secret);
    UnescapeEscape(fqdn);
    var entries := PayloadProperties(cfg, fqdn, FromAuthRegistration(reg)).entries;
    assert |"ServiceClass"| == 12 && |"Fqdn"| == 4 && |"ServiceName"| == 11 && |"LogoutUrl"| == 9;
    assert IsSingle(entries["Fqdn"], EscapeDots(fqdn)) && UnescapeDots(EscapeDots(fqdn)) == fqdn;
  }

  lemma TemplatesHeld(cfg: Config, fqdn: string, reg: Reg, existing: Option<Service>, secret: string)
    ensures HoldsTemplates(reg, BuildServicePayload(cfg, fqdn, FromAuthRegistration(reg), existing, secret))
  {
    hide RegistrationServiceId, SetParam, TemplateName, PayloadProperties, ResolveClientId, Split;
    TemplatesSay(reg.spec.protocol, LogoutPath(reg) != "");
  }

  lemma AddressesHeld(cfg: Config, fqdn: string, reg: Reg, existing: Option<Service>, secret: string)
    requires Word(fqdn) && Word(reg.spec.consumer)
    ensures var s := BuildServicePayload(cfg, fqdn, FromAuthRegistration(reg), existing, secret);
      forall url :: AcceptedBy(s.serviceId, url) <==> Accepts(fqdn, reg.spec.consumer, url, false)
  {
    hide RegistrationServiceId, SetParam, TemplateName, PayloadProperties, ResolveClientId, AcceptedBy, Accepts;
    forall url
      ensures AcceptedBy(RegistrationServiceId(fqdn, reg.spec.consumer), url) <==>
              Accepts(fqdn, reg.spec.consumer, url, false)
    {
      PatternAccepts(fqdn, reg.spec.consumer, url);
    }
  }

  // What is sent to CAS is the record of the registration, whatever record was there before.
  lemma PayloadIsRecord(cfg: Config, fqdn: string, reg: Reg, existing: Option<Service>, secret: string)
    requires !AllSpace(reg.spec.consumer)
    ensures BuildServicePayload(cfg, fqdn, FromAuthRegistration(reg), existing, secret).id ==
            if existing.None? then 0 else existing.value.id
    ensures IsRecordOf(cfg, fqdn, reg, BuildServicePayload(cfg, fqdn, FromAuthRegistration(reg), existing, secret))
  {
    hide RegistrationServiceId, SetParam, TemplateName, PayloadProperties, ResolveClientId, AcceptedBy, Accepts, Word,
         HoldsTemplates, HoldsProperties, HoldsClient;
    TemplatesHeld(cfg, fqdn, reg, existing, secret);
    PropertiesHeld(cfg, fqdn, reg, existing, secret);
    ClientHeld(cfg, fqdn, reg, existing, secret);
    if Word(fqdn) && Word(reg.spec.consumer) { AddressesHeld(cfg, fqdn, reg, existing, secret); }
  }

  // ---- The settled registration ----

  predicate HasClient(cfg: Config, s: Service, data: RegistrationData, id: string, secret: string) {
    id in data && secret in data && data[id] == s.clientId && !AllSpace(data[secret]) &&
    s.clientSecret == cfg.hash(data[secret])
  }

  // The credentials that belong to the record: the pattern of the addresses for CAS; else the client id, the client
  // secret whose hash CAS has, and the endpoints.
  ghost predicate HoldsCredentials(cfg: Config, fqdn: string, reg: Reg, s: Service, data: RegistrationData) {
    match reg.spec.protocol
    case CAS => "cas_client_id" in data && data["cas_client_id"] == s.serviceId
    case OIDC =>
      HasClient(cfg, s, data, "oidc_client_id", "oidc_client_secret") && "oidc_issuer_url" in data &&
      exists base :: data["oidc_issuer_url"] == base + "/oidc" && CutAtEnd(cfg.casBasePath, base)
    case OAUTH =>
      HasClient(cfg, s, data, "oauth", "oauth_client_secret") && "oauth_auth_url" in data &&
      "oauth_token_url" in data &&
      exists base :: BelowHost(cfg, fqdn, base) && data["oauth_auth_url"] == base + "/oauth2.0/authorize" &&
        data["oauth_token_url"] == base + "/oauth2.0/accessToken"
    case Unsupported(_) => false
  }

  lemma CredentialsHeld(cfg: Config, fqdn: string, reg: Reg, s: Service, secret: string, data: RegistrationData)
    requires reg.spec.protocol in {CAS, OIDC, OAUTH}
    requires reg.spec.protocol != CAS ==> !AllSpace(secret) && s.clientSecret == cfg.hash(secret)
    requires var held := GetRegistrationData(BuildRegistrationResult(cfg, fqdn, FromAuthRegistration(reg), s, secret));
      forall key | key in held :: key in data && data[key] == held[key]
    ensures HoldsCredentials(cfg, fqdn, reg, s, data)
  {
    hide GetRegistrationData, BuildRegistrationResult, BelowHost, CutAtEnd, AllSpace;
    CredentialsSay(cfg, fqdn, FromAuthRegistration(reg), s, secret);
  }

  lemma SecretIsText(data: RegistrationData, protocol: Protocol, s: string)
    requires Reuses(data, protocol, s)
    ensures protocol in {OIDC, OAUTH} ==> !AllSpace(s)
  {
    if protocol in {OIDC, OAUTH} { TrimmedText(s); }
  }

  lemma TrimmedText(s: string)
    requires Trimmed(s) && s != ""
    ensures !AllSpace(s)
  {
  }

  // A settled registration: CAS holds its record and no other of its consumer, and the Secret its status names holds
  // the credentials that belong to that record.
  lemma SettledHolds(cfg: Config, w: State, k: Key)
    requires Settled(cfg, w, k)
    ensures var reg := w.regs[k]; var found := ByConsumer(w.services, reg.spec.consumer);
      var sk := Key(reg.namespace, reg.status.resolvedSecretRef);
      w.fqdn.Some? && |found| == 1 && IsRecordOf(cfg, w.fqdn.value, reg, found[0]) && sk in w.secrets &&
      HoldsCredentials(cfg, w.fqdn.value, reg, found[0], w.secrets[sk].data)
  {
    hide ByConsumer, BuildServicePayload, SaysPublished, SaysCompleted, IsRecordOf, HoldsCredentials, ResolveSecretName,
         GetRegistrationData, BuildRegistrationResult, AllSpace, Reuses, ValidateRegistration;
    var reg := w.regs[k];
    var (name, managed) := ResolveSecretName(reg).value;
    var s :| ServiceSettled(cfg, w, reg, s) && SecretSettled(cfg, w, reg, name, managed, s);
    var found := ByConsumer(w.services, reg.spec.consumer)[0];
    ReadyIsValid(reg);
    PayloadIsRecord(cfg, w.fqdn.value, reg, Some(found), s);
    SecretIsText(w.secrets[Key(reg.namespace, name)].data, reg.spec.protocol, s);
    if reg.spec.protocol != CAS { HashHeld(cfg, w.fqdn.value, reg, Some(found), s); }
    CredentialsHeld(cfg, w.fqdn.value, reg, found, s, w.secrets[Key(reg.namespace, name)].data);
  }

  lemma HashHeld(cfg: Config, fqdn: string, reg: Reg, existing: Option<Service>, secret: string)
    requires reg.spec.protocol in {OIDC, OAUTH}
    ensures BuildServicePayload(cfg, fqdn, FromAuthRegistration(reg), existing, secret).clientSecret == cfg.hash(secret)
  {
    hide RegistrationServiceId, SetParam, TemplateName, PayloadProperties, ResolveClientId;
  }

  lemma ReadyIsValid(reg: Reg)
    requires Ready(reg)
    ensures !AllSpace(reg.spec.consumer) && reg.spec.protocol in {CAS, OIDC, OAUTH}
  {
  }
}
