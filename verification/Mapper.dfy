// From a registration to the CAS service record, and from the stored record to the credentials.
module Mapper {
  import opened Wrappers
  import opened GoStrings
  import opened CasTypes
  import opened ServicePattern
  import opened Domain

  // SHA-256 in hexadecimal and path.Join are parameters: nothing is assumed about either.
  datatype Config = Config(casBasePath: string, hash: string -> string, joinPath: (string, string) -> string)

  function ValidateRegistration(reg: Registration): Option<string> {
    if Blank(reg.consumer) then Some("consumer must not be empty")
    else if reg.protocol.Unsupported? then Some("unsupported protocol")
    else None
  }

  // ---- Comma lists ----

  // The items among the parts: trimmed, and the empty ones dropped.
  function KeepItems(parts: seq<string>): (items: seq<string>)
    ensures forall item | item in items :: Trimmed(item) && item != ""
  {
    if parts == [] then []
    else
      var item := TrimSpace(parts[0]);
      (if item == "" then [] else [item]) + KeepItems(parts[1..])
  }

  function ParamItems(raw: string): seq<string> {
    KeepItems(Split(TrimSpace(raw)))
  }

  function SetParam(params: map<string, string>, key: string): Option<StringCollection> {
    var items := ParamItems(if key in params then params[key] else "");
    if items == [] then None else Some(StringCollection(HASH_SET_CLASS, Some(items)))
  }

  lemma BlankParam(raw: string)
    requires Blank(raw)
    ensures ParamItems(raw) == []
  {
    assert KeepItems([""]) == [];
  }

  lemma KeepStep(values: seq<string>, parts: seq<string>, i: nat)
    requires i < |parts|
    ensures var item := TrimSpace(parts[i]);
            values + KeepItems(parts[i..]) ==
              (if item == "" then values else values + [item]) + KeepItems(parts[i + 1..])
  {
    assert parts[i..][1..] == parts[i + 1..];
  }

  method NewSetParam(params: map<string, string>, key: string) returns (r: Option<StringCollection>)
    ensures r == SetParam(params, key)
  {
    var param := if key in params then params[key] else "";
    var raw := TrimSpace(param);
    if raw == "" {
      BlankParam(param);
      return None;
    }
    var parts := Split(raw);
    var values := [];
    for i := 0 to |parts|
      invariant values + KeepItems(parts[i..]) == ParamItems(param)
    {
      KeepStep(values, parts, i);
      var trimmed := TrimSpace(parts[i]);
      if trimmed != "" {
        values := values + [trimmed];
      }
    }
    assert values == ParamItems(param);
    if |values| == 0 {
      return None;
    }
    return Some(StringCollection(HASH_SET_CLASS, Some(values)));
  }

  // The characters that count: neither commas nor white space.
  function Solid(s: string): string {
    if s == "" then ""
    else if s[0] == ',' || IsSpace(s[0]) then Solid(s[1..])
    else [s[0]] + Solid(s[1..])
  }

  function Concat(parts: seq<string>): string {
    if parts == [] then "" else parts[0] + Concat(parts[1..])
  }

  lemma SolidNone()
    ensures Solid("") == ""
  {
  }

  lemma {:induction false} SolidConcat(a: string, b: string)
    ensures Solid(a + b) == Solid(a) + Solid(b)
  {
    hide Solid, IsSpace;
    if a == "" {
      SolidNone();
      assert a + b == b;
    } else {
      SolidConcat(a[1..], b);
      SolidCons(a[0], a[1..]);
      SolidCons(a[0], a[1..] + b);
      assert a == [a[0]] + a[1..] && a + b == [a[0]] + (a[1..] + b);
      assert [a[0]] + (Solid(a[1..]) + Solid(b)) == ([a[0]] + Solid(a[1..])) + Solid(b);
    }
  }

  lemma {:induction false} SolidTrim(s: string)
    ensures Solid(TrimSpace(s)) == Solid(s)
    decreases |s|
  {
    if s != "" && IsSpace(s[0]) {
      SolidTrim(s[1..]);
    } else if s != "" && IsSpace(s[|s| - 1]) {
      SolidTrim(s[..|s| - 1]);
      SolidConcat(s[..|s| - 1], [s[|s| - 1]]);
      assert s == s[..|s| - 1] + [s[|s| - 1]];
    }
  }

  lemma ConcatCons(first: string, rest: seq<string>)
    ensures Concat([first] + rest) == first + Concat(rest)
  {
    assert ([first] + rest)[1..] == rest;
  }

  lemma SolidCons(c: char, rest: string)
    ensures Solid([c] + rest) == if c == ',' || IsSpace(c) then Solid(rest) else [c] + Solid(rest)
  {
    assert ([c] + rest)[1..] == rest;
  }

  lemma SplitCons(s: string)
    requires s != ""
    ensures var rest := Split(s[1..]); Split(s) == if s[0] == ',' then [""] + rest else [[s[0]] + rest[0]] + rest[1..]
  {
  }

  lemma {:induction false} SolidSplit(s: string)
    ensures Solid(Concat(Split(s))) == Solid(s)
  {
    if s == "" {
      assert Concat([""]) == "";
    } else {
      hide Solid, Concat, Split, IsSpace;
      var rest := Split(s[1..]);
      SolidSplit(s[1..]);
      SplitCons(s);
      SolidCons(s[0], s[1..]);
      SolidCons(s[0], Concat(rest));
      assert s == [s[0]] + s[1..];
      if s[0] == ',' {
        ConcatCons("", rest);
        assert "" + Concat(rest) == Concat(rest);
      } else {
        ConcatCons(rest[0], rest[1..]);
        ConcatCons([s[0]] + rest[0], rest[1..]);
        assert rest == [rest[0]] + rest[1..];
        assert ([s[0]] + rest[0]) + Concat(rest[1..]) == [s[0]] + Concat(rest);
      }
    }
  }

  lemma {:induction false} SolidKeep(parts: seq<string>)
    ensures Solid(Concat(KeepItems(parts))) == Solid(Concat(parts))
  {
    if parts != [] {
      var item := TrimSpace(parts[0]);
      var kept := KeepItems(parts[1..]);
      SolidKeep(parts[1..]);
      SolidTrim(parts[0]);
      SolidConcat(parts[0], Concat(parts[1..]));
      SolidConcat(item, Concat(kept));
      if item == "" {
        assert KeepItems(parts) == kept;
      } else {
        assert ([item] + kept)[1..] == kept;
      }
    }
  }

  lemma {:induction false} SolidEmpty(s: string)
    ensures Solid(s) == "" <==> forall i | 0 <= i < |s| :: s[i] == ',' || IsSpace(s[i])
  {
    if s != "" {
      SolidEmpty(s[1..]);
      assert s == [s[0]] + s[1..];
    }
  }

  lemma {:induction false} KeepCommaFree(parts: seq<string>)
    requires forall p | p in parts :: ',' !in p
    ensures forall item | item in KeepItems(parts) :: ',' !in item
  {
    if parts != [] {
      KeepCommaFree(parts[1..]);
      TrimIsPart(parts[0]);
    }
  }

  lemma {:induction false} TrimIsPart(s: string)
    ensures forall c | c in TrimSpace(s) :: c in s
    decreases |s|
  {
    if s != "" && IsSpace(s[0]) {
      TrimIsPart(s[1..]);
    } else if s != "" && IsSpace(s[|s| - 1]) {
      TrimIsPart(s[..|s| - 1]);
    }
  }

  // The items are trimmed, non-empty and free of commas, and together they hold exactly the characters of
  // the input that are neither comma nor white space, in the same order. There is no item exactly when the
  // input holds nothing else.
  lemma ItemsOfParam(raw: string)
    ensures forall item | item in ParamItems(raw) :: Trimmed(item) && item != "" && ',' !in item
    ensures Solid(Concat(ParamItems(raw))) == Solid(raw)
    ensures ParamItems(raw) == [] <==> forall i | 0 <= i < |raw| :: raw[i] == ',' || IsSpace(raw[i])
  {
    var parts := Split(TrimSpace(raw));
    KeepCommaFree(parts);
    SolidKeep(parts);
    SolidSplit(TrimSpace(raw));
    SolidTrim(raw);
    SolidEmpty(raw);
    var items := ParamItems(raw);
    if items != [] {
      SolidConcat(items[0], Concat(items[1..]));
      assert Solid(items[0]) != "" by {
        assert items[0] in items && items[0][0] in items[0];
        SolidEmpty(items[0]);
      }
    }
  }

  // Read from the back, the items are the trimmed parts but for those of white space only, in order.
  predicate ItemsOf(parts: seq<string>, items: seq<string>) {
    if parts == [] then items == []
    else
      var last, before := parts[|parts| - 1], parts[..|parts| - 1];
      if AllSpace(last) then ItemsOf(before, items)
      else items != [] && items[|items| - 1] == TrimSpace(last) && ItemsOf(before, items[..|items| - 1])
  }

  lemma KeepStepFront(parts: seq<string>, first: seq<string>)
    requires parts != [] && first == if TrimSpace(parts[0]) == "" then [] else [TrimSpace(parts[0])]
    ensures KeepItems(parts) == first + KeepItems(parts[1..])
  {
  }

  lemma {:induction false} KeepAppend(a: seq<string>, b: seq<string>)
    ensures KeepItems(a + b) == KeepItems(a) + KeepItems(b)
  {
    hide KeepItems, TrimSpace;
    KeepNone();
    if a == [] {
      assert a + b == b;
    } else {
      var first := if TrimSpace(a[0]) == "" then [] else [TrimSpace(a[0])];
      KeepAppend(a[1..], b);
      KeepStepFront(a, first);
      KeepStepFront(a + b, first);
      assert (a + b)[1..] == a[1..] + b;
      assert first + (KeepItems(a[1..]) + KeepItems(b)) == (first + KeepItems(a[1..])) + KeepItems(b);
    }
  }

  lemma KeepNone()
    ensures KeepItems([]) == []
  {
  }

  lemma {:induction false} KeepsParts(parts: seq<string>)
    ensures ItemsOf(parts, KeepItems(parts))
  {
    if parts != [] {
      var last, before := parts[|parts| - 1], parts[..|parts| - 1];
      var items := KeepItems(before);
      assert parts == before + [last];
      KeepAppend(before, [last]);
      KeepsParts(before);
      if AllSpace(last) {
        assert KeepItems(parts) == items + [] == items;
      } else {
        assert KeepItems(parts) == items + [TrimSpace(last)];
        assert (items + [TrimSpace(last)])[..|items|] == items;
      }
    }
  }

  // The list is cut at its commas and nowhere else, and each part that is more than white space is one item.
  lemma ItemsOfParts(raw: string)
    ensures var parts := Split(TrimSpace(raw));
      Join(parts) == TrimSpace(raw) && (forall p | p in parts :: ',' !in p) && ItemsOf(parts, ParamItems(raw))
  {
    JoinSplit(TrimSpace(raw));
    KeepsParts(Split(TrimSpace(raw)));
  }

  lemma {:induction false} KeepAll(items: seq<string>)
    requires forall item | item in items :: Trimmed(item) && item != ""
    ensures KeepItems(items) == items
  {
    if items != [] {
      assert items[0] in items;
      KeepAll(items[1..]);
      assert items == [items[0]] + items[1..];
    }
  }

  lemma {:induction false} JoinTrimmed(items: seq<string>)
    requires items != [] && forall item | item in items :: Trimmed(item) && item != ""
    ensures Trimmed(Join(items)) && Join(items) != ""
  {
    assert items[0] in items;
    if |items| > 1 {
      JoinTrimmed(items[1..]);
    }
  }

  // Writing the items with commas between them and reading that again gives the same items.
  lemma ReparseItems(raw: string)
    ensures ParamItems(Join(ParamItems(raw))) == ParamItems(raw)
  {
    var items := ParamItems(raw);
    ItemsOfParam(raw);
    if items == [] {
      assert KeepItems([""]) == [];
    } else {
      JoinTrimmed(items);
      SplitJoin(items);
      KeepAll(items);
    }
  }

  // ---- The service record ----

  function ServiceClass(protocol: Protocol): string {
    match protocol
    case CAS => CAS_SERVICE_CLASS
    case OIDC => OIDC_SERVICE_CLASS
    case OAUTH => OAUTH_SERVICE_CLASS
    case _ => ""
  }

  function Templates(protocol: Protocol, hasLogoutUrl: bool): seq<string> {
    var base := ["BaseService", "DefaultAttributeReleasePolicy"];
    match protocol
    case CAS => base + ["AllowProxyPolicy"]
    case OIDC => base + (if hasLogoutUrl then ["WithLogoutURI"] else []) + ["DefaultOAuthService"]
    case OAUTH => base + (if hasLogoutUrl then ["WithLogoutURI"] else []) + ["DefaultOAuthService"]
    case _ => base
  }

  function TemplateName(protocol: Protocol, hasLogoutUrl: bool): string {
    Join(Templates(protocol, hasLogoutUrl))
  }

  lemma TemplatesPlain(protocol: Protocol, hasLogoutUrl: bool)
    ensures forall t | t in Templates(protocol, hasLogoutUrl) :: ',' !in t
  {
    assert ',' !in "BaseService" && ',' !in "DefaultAttributeReleasePolicy" && ',' !in "AllowProxyPolicy";
    assert ',' !in "WithLogoutURI" && ',' !in "DefaultOAuthService";
  }

  lemma TemplatesChosen(protocol: Protocol, hasLogoutUrl: bool)
    ensures var templates := Templates(protocol, hasLogoutUrl);
      ["BaseService", "DefaultAttributeReleasePolicy"] <= templates &&
      ("AllowProxyPolicy" in templates <==> protocol == CAS) &&
      ("WithLogoutURI" in templates <==> hasLogoutUrl && (protocol == OIDC || protocol == OAUTH)) &&
      ("DefaultOAuthService" in templates <==> protocol == OIDC || protocol == OAUTH)
  {
    assert |"BaseService"| == 11 && |"DefaultAttributeReleasePolicy"| == 29 && |"AllowProxyPolicy"| == 16 &&
           |"WithLogoutURI"| == 13 && |"DefaultOAuthService"| == 19;
  }

  // What CAS reads from the comma list: the base templates first, the proxy policy for CAS only, the logout template
  // only where there is a logout URL to template, and the OAuth template for both OAuth protocols.
  lemma TemplatesSay(protocol: Protocol, hasLogoutUrl: bool)
    ensures var templates := Split(TemplateName(protocol, hasLogoutUrl));
      ["BaseService", "DefaultAttributeReleasePolicy"] <= templates &&
      ("AllowProxyPolicy" in templates <==> protocol == CAS) &&
      ("WithLogoutURI" in templates <==> hasLogoutUrl && (protocol == OIDC || protocol == OAUTH)) &&
      ("DefaultOAuthService" in templates <==> protocol == OIDC || protocol == OAUTH)
  {
    hide Templates, Split, Join;
    TemplatesPlain(protocol, hasLogoutUrl);
    TemplatesChosen(protocol, hasLogoutUrl);
    SplitJoin(Templates(protocol, hasLogoutUrl));
  }

  function LogoutUrl(cfg: Config, reg: Registration, fqdn: string): string {
    "https://" + fqdn + "/" + cfg.joinPath(TrimSpace(reg.consumer), TrimSpace(reg.logoutUrl))
  }

  function ResolveClientId(reg: Registration, existing: Option<Service>): string {
    var given := TrimSpace(if "clientId" in reg.params then reg.params["clientId"] else "");
    if given != "" then given
    else if existing.Some? && !Blank(existing.value.clientId) then existing.value.clientId
    else reg.consumer
  }

  function PayloadProperties(cfg: Config, fqdn: string, reg: Registration): Properties {
    Properties(HASH_MAP_CLASS,
      map["ServiceClass" := NewProperty(ServiceClass(reg.protocol)),
          "Fqdn" := NewProperty(EscapeDots(fqdn)),
          "ServiceName" := NewProperty(reg.consumer),
          "LogoutUrl" := NewProperty(LogoutUrl(cfg, reg, fqdn))])
  }

  function BuildServicePayload(cfg: Config, fqdn: string, reg: Registration, existing: Option<Service>,
      secret: string): Service {
    var base := Service(ServiceClass(reg.protocol), if existing.None? then 0 else existing.value.id,
                        TemplateName(reg.protocol, reg.logoutUrl != ""), reg.consumer,
                        RegistrationServiceId(fqdn, reg.consumer), "",
                        Some(PayloadProperties(cfg, fqdn, reg)), "", "", None, None, None, None);
    if SecretKey(reg.protocol).None? then base
    else
      base.(clientId := ResolveClientId(reg, existing), clientSecret := cfg.hash(secret),
            scopes := SetParam(reg.params, "scopes"), grantTypes := SetParam(reg.params, "supportedGrantTypes"),
            responseTypes := SetParam(reg.params, "supportedResponseTypes"),
            audience := if reg.protocol == OAUTH then SetParam(reg.params, "audience") else None)
  }

  function BuildRegistrationResult(cfg: Config, fqdn: string, reg: Registration, service: Service,
    secret: string): RegistrationResult {
    var base := RegistrationResult(reg.protocol, service.id, None, None, None);
    var baseUrl := TrimRightSlash("https://" + fqdn + "/" + TrimLeftSlash(cfg.casBasePath));
    match reg.protocol
    case CAS => base.(cas := Some(CasResult(service.serviceId)))
    case OIDC => base.(oidc := Some(OidcResult(service.clientId, secret, TrimRightSlash(cfg.casBasePath) + "/oidc")))
    case OAUTH => base.(oauth := Some(OAuthResult(service.clientId, secret, baseUrl + "/oauth2.0/authorize",
                                                  baseUrl + "/oauth2.0/accessToken")))
    case _ => base
  }

  // What the record says of its registration.
  lemma PayloadSays(cfg: Config, fqdn: string, reg: Registration, existing: Option<Service>, secret: string)
    ensures var payload := BuildServicePayload(cfg, fqdn, reg, existing, secret);
      payload.name == reg.consumer == ConsumerOf(payload) &&
      payload.id == (if existing.None? then 0 else existing.value.id) &&
      FirstValue(payload.properties, "ServiceClass") == payload.cls &&
      UnescapeDots(FirstValue(payload.properties, "Fqdn")) == fqdn
  {
    hide RegistrationServiceId, TemplateName, ResolveClientId, LogoutUrl, EscapeDots, UnescapeDots, SetParam,
         ConsumerOf, FirstValue;
    UnescapeEscape(fqdn);
    PropertiesSay(cfg, fqdn, reg, BuildServicePayload(cfg, fqdn, reg, existing, secret));
  }

  lemma PropertiesSay(cfg: Config, fqdn: string, reg: Registration, service: Service)
    requires service.properties == Some(PayloadProperties(cfg, fqdn, reg))
    ensures ConsumerOf(service) == reg.consumer
    ensures FirstValue(service.properties, "ServiceClass") == ServiceClass(reg.protocol)
    ensures FirstValue(service.properties, "Fqdn") == EscapeDots(fqdn)
  {
    hide LogoutUrl, EscapeDots, ServiceClass;
    assert |"ServiceClass"| == 12 && |"Fqdn"| == 4 && |"ServiceName"| == 11 && |"LogoutUrl"| == 9;
  }

  // The base path without its slashes at both ends.
  ghost predicate Core(path: string, core: string) {
    exists before, after :: Slashes(before) && Slashes(after) && path == before + core + after &&
      (core != "" ==> core[0] != '/' && !EndsWithSlash(core))
  }

  // What is left when only slashes are cut off the end.
  predicate CutAtEnd(s: string, base: string) {
    base <= s && Slashes(s[|base|..]) && !EndsWithSlash(base)
  }

  lemma CutsAtEnd(s: string)
    ensures CutAtEnd(s, TrimRightSlash(s))
  {
    var after := TrimRightCuts(s);
  }

  // Where the endpoints are: below the host and the base path, or below the host alone if there is no base path.
  ghost predicate BelowHost(cfg: Config, fqdn: string, base: string) {
    exists core :: Core(cfg.casBasePath, core) &&
      if core == "" then CutAtEnd("https://" + fqdn, base) else base == "https://" + fqdn + "/" + core
  }

  lemma IsBelowHost(cfg: Config, fqdn: string)
    ensures BelowHost(cfg, fqdn, TrimRightSlash("https://" + fqdn + "/" + TrimLeftSlash(cfg.casBasePath)))
  {
    var path := cfg.casBasePath;
    var host := "https://" + fqdn;
    var rest := TrimLeftSlash(path);
    var core := TrimRightSlash(rest);
    var before := TrimLeftCuts(path);
    var after := TrimRightCuts(rest);
    assert path == before + core + after;
    if core == "" {
      assert rest == after;
      assert host + "/" + rest == host + ("/" + rest) && Slashes("/" + rest);
      TrimRightDrops(host, "/" + rest);
      CutsAtEnd(host);
    } else {
      assert core[0] == rest[0];
      TrimRightAppend(host + "/", rest);
    }
    assert Core(path, core);
  }

  lemma OidcSay(cfg: Config, fqdn: string, reg: Registration, service: Service, secret: string)
    requires reg.protocol == OIDC
    ensures var data := GetRegistrationData(BuildRegistrationResult(cfg, fqdn, reg, service, secret));
      data.Keys == {"oidc_client_id", "oidc_client_secret", "oidc_issuer_url"} &&
      data["oidc_client_id"] == service.clientId && data["oidc_client_secret"] == secret &&
      exists base :: data["oidc_issuer_url"] == base + "/oidc" && CutAtEnd(cfg.casBasePath, base)
  {
    CutsAtEnd(cfg.casBasePath);
    var base := TrimRightSlash(cfg.casBasePath);
    var data := GetRegistrationData(BuildRegistrationResult(cfg, fqdn, reg, service, secret));
    assert |"oidc_client_id"| == 14 && |"oidc_issuer_url"| == 15 && |"oidc_client_secret"| == 18;
    assert data["oidc_issuer_url"] == base + "/oidc" && CutAtEnd(cfg.casBasePath, base);
  }

  lemma OAuthSay(cfg: Config, fqdn: string, reg: Registration, service: Service, secret: string)
    requires reg.protocol == OAUTH
    ensures var data := GetRegistrationData(BuildRegistrationResult(cfg, fqdn, reg, service, secret));
      data.Keys == {"oauth", "oauth_client_secret", "oauth_auth_url", "oauth_token_url"} &&
      data["oauth"] == service.clientId && data["oauth_client_secret"] == secret &&
      exists base :: BelowHost(cfg, fqdn, base) && data["oauth_auth_url"] == base + "/oauth2.0/authorize" &&
        data["oauth_token_url"] == base + "/oauth2.0/accessToken"
  {
    hide BelowHost;
    IsBelowHost(cfg, fqdn);
    var base := TrimRightSlash("https://" + fqdn + "/" + TrimLeftSlash(cfg.casBasePath));
    var data := GetRegistrationData(BuildRegistrationResult(cfg, fqdn, reg, service, secret));
    assert |"oauth"| == 5 && |"oauth_client_secret"| == 19 && |"oauth_auth_url"| == 14 && |"oauth_token_url"| == 15;
    assert BelowHost(cfg, fqdn, base) && data["oauth_auth_url"] == base + "/oauth2.0/authorize" &&
           data["oauth_token_url"] == base + "/oauth2.0/accessToken";
  }

  // The data of a credentials Secret: which keys each protocol has, the client secret as it was given, the client id
  // CAS stored, the issuer below the base path, and endpoints below host and base path, without doubled slashes.
  lemma CredentialsSay(cfg: Config, fqdn: string, reg: Registration, service: Service, secret: string)
    ensures var result := BuildRegistrationResult(cfg, fqdn, reg, service, secret);
      result.protocol == reg.protocol && result.registrationId == service.id
    ensures var data := GetRegistrationData(BuildRegistrationResult(cfg, fqdn, reg, service, secret));
      match reg.protocol
      case CAS => data.Keys == {"cas_client_id"} && data["cas_client_id"] == service.serviceId
      case OIDC =>
        data.Keys == {"oidc_client_id", "oidc_client_secret", "oidc_issuer_url"} &&
        data["oidc_client_id"] == service.clientId && data["oidc_client_secret"] == secret &&
        exists base :: data["oidc_issuer_url"] == base + "/oidc" && CutAtEnd(cfg.casBasePath, base)
      case OAUTH =>
        data.Keys == {"oauth", "oauth_client_secret", "oauth_auth_url", "oauth_token_url"} &&
        data["oauth"] == service.clientId && data["oauth_client_secret"] == secret &&
        exists base :: BelowHost(cfg, fqdn, base) && data["oauth_auth_url"] == base + "/oauth2.0/authorize" &&
          data["oauth_token_url"] == base + "/oauth2.0/accessToken"
      case Unsupported(_) => data == map[]
  {
    hide BelowHost, CutAtEnd;
    match reg.protocol
    case OIDC => OidcSay(cfg, fqdn, reg, service, secret);
    case OAUTH => OAuthSay(cfg, fqdn, reg, service, secret);
    case _ =>
  }

  // Once stored, under whatever id, the record is what the next reconcile of the same registration builds.
  lemma PayloadFixedPoint(cfg: Config, fqdn: string, reg: Registration, existing: Option<Service>, secret: string,
      id: int)
    requires !Blank(reg.consumer)
    ensures var stored := BuildServicePayload(cfg, fqdn, reg, existing, secret).(id := id);
            BuildServicePayload(cfg, fqdn, reg, Some(stored), secret) == stored
  {
    hide RegistrationServiceId, PayloadProperties, SetParam, TemplateName, ServiceClass;
    assert TrimSpace(TrimSpace(if "clientId" in reg.params then reg.params["clientId"] else ""))
        == TrimSpace(if "clientId" in reg.params then reg.params["clientId"] else "");
  }

  lemma PayloadPropertiesNormal(cfg: Config, fqdn: string, reg: Registration)
    ensures CLASS_KEY !in PayloadProperties(cfg, fqdn, reg).entries
    ensures NormalProperties(PayloadProperties(cfg, fqdn, reg)) == PayloadProperties(cfg, fqdn, reg)
  {
    var entries := PayloadProperties(cfg, fqdn, reg).entries;
    assert entries.Keys == {"ServiceClass", "Fqdn", "ServiceName", "LogoutUrl"};
    assert |CLASS_KEY| == 6 && |"ServiceClass"| == 12 && |"Fqdn"| == 4 && |"ServiceName"| == 11 && |"LogoutUrl"| == 9;
    forall key | key in entries
      ensures NormalProperty(entries[key]) == entries[key]
    {
    }
  }

  lemma PayloadNormal(stored: Service, properties: Properties)
    requires stored.properties == Some(properties) && NormalProperties(properties) == properties
    requires NormalCollection(stored.scopes) == stored.scopes &&
             NormalCollection(stored.grantTypes) == stored.grantTypes
    requires NormalCollection(stored.responseTypes) == stored.responseTypes &&
      NormalCollection(stored.audience) == stored.audience
    ensures NormalService(stored) == stored
  {
  }

  // A record the operator sends comes back from CAS unchanged, and is found under its consumer.
  lemma PayloadSurvivesJson(cfg: Config, fqdn: string, reg: Registration, existing: Option<Service>, secret: string,
      id: int)
    requires Int64(id)
    ensures var stored := BuildServicePayload(cfg, fqdn, reg, existing, secret).(id := id);
            DecodeService(EncodeService(stored)) == Ok(stored) && ConsumerOf(stored) == reg.consumer
  {
    hide DecodeService, EncodeService, RegistrationServiceId, TemplateName, ResolveClientId, LogoutUrl, EscapeDots;
    var stored := BuildServicePayload(cfg, fqdn, reg, existing, secret).(id := id);
    PayloadPropertiesNormal(cfg, fqdn, reg);
    PayloadNormal(stored, PayloadProperties(cfg, fqdn, reg));
    ServiceRoundTrip(stored);
  }
}
