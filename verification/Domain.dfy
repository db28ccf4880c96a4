// What the controller and the registration backend tell each other.
module Domain {
  import opened Wrappers
  import opened GoStrings

  datatype Protocol = CAS | OIDC | OAUTH | Unsupported(name: string)

  datatype Registration =
    Registration(protocol: Protocol, consumer: string, logoutUrl: string, params: map<string, string>)

  // The data of a credentials Secret.
  type RegistrationData = map<string, string>

  datatype OidcResult = OidcResult(clientId: string, clientSecret: string, issuerUrl: string)

  datatype OAuthResult = OAuthResult(clientId: string, clientSecret: string, authUrl: string, tokenUrl: string)

  datatype CasResult = CasResult(serviceId: string)

  datatype RegistrationResult = RegistrationResult(
    protocol: Protocol, registrationId: int, oidc: Option<OidcResult>, oauth: Option<OAuthResult>,
    cas: Option<CasResult>)

  // The data key that holds the client secret of a protocol which has one.
  function SecretKey(protocol: Protocol): Option<string> {
    match protocol
    case OIDC => Some("oidc_client_secret")
    case OAUTH => Some("oauth_client_secret")
    case _ => None
  }

  function ClientSecret(data: RegistrationData, protocol: Protocol): Option<string> {
    match SecretKey(protocol)
    case Some(key) => Some(if key in data then TrimSpace(data[key]) else "")
    case None => None
  }

  function GetRegistrationData(r: RegistrationResult): RegistrationData {
    if r.protocol == CAS && r.cas.Some? then map["cas_client_id" := r.cas.value.serviceId]
    else if r.protocol == OIDC && r.oidc.Some? then
      map["oidc_client_id" := r.oidc.value.clientId,
          "oidc_client_secret" := r.oidc.value.clientSecret,
          "oidc_issuer_url" := r.oidc.value.issuerUrl]
    else if r.protocol == OAUTH && r.oauth.Some? then
      map["oauth" := r.oauth.value.clientId,
          "oauth_client_secret" := r.oauth.value.clientSecret,
          "oauth_auth_url" := r.oauth.value.authUrl,
          "oauth_token_url" := r.oauth.value.tokenUrl]
    else map[]
  }

  // Reconciling one protocol never writes the client secret of the other.
  lemma SecretKeysSeparate(r: RegistrationResult, protocol: Protocol)
    requires SecretKey(protocol).Some?
    ensures SecretKey(protocol).value in GetRegistrationData(r) ==> r.protocol == protocol
  {
    var key := SecretKey(protocol).value;
    assert |key| == if protocol == OIDC then 18 else 19;
    if key in GetRegistrationData(r) {
      assert |"cas_client_id"| == 13 && |"oidc_client_id"| == 14 && |"oidc_issuer_url"| == 15 &&
             |"oidc_client_secret"| == 18;
      assert |"oauth"| == 5 && |"oauth_client_secret"| == 19 && |"oauth_auth_url"| == 14 && |"oauth_token_url"| == 15;
    }
  }
}
