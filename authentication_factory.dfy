/**
 * AuthenticationClientFactoryImpl: choosing the forms authentication
 * handler named by the configuration.
 */
module AuthenticationClientFactory {
  import opened Failures
  import opened Configuration
  import opened SharePointUrls
  import opened Handshakes

  const AUTH_MODE_KEY := "sharepoint.formsAuthenticationMode"
  const STS_ENDPOINT_KEY := "sharepoint.sts.endpoint"
  const STS_REALM_KEY := "sharepoint.sts.realm"
  const ADFS_LOGIN_KEY := "sharepoint.adfsLogin"
  const TRUST_LOCATION_KEY := "sharepoint.trustLocation"

  const AUTHENTICATION_SERVICE_PATH := "/_vti_bin/Authentication.asmx"
  const URL_PARSE_MESSAGE := "failed to parse SharePoint URL."
  const INVALID_MODE_MESSAGE := "Invalid FormsAuthenticationMode "

  datatype FormsAuthenticationMode = NONE | FORMS | ADFS | LIVE

  /** The name of an enum constant, as Enum.name gives it. */
  function ModeName(mode: FormsAuthenticationMode): string {
    match mode
    case NONE => "NONE"
    case FORMS => "FORMS"
    case ADFS => "ADFS"
    case LIVE => "LIVE"
  }

  /** AUTH_MODE_PARSER: FormsAuthenticationMode.valueOf, which matches the names exactly, case included. */
  function ParseMode(value: string): (r: Result<FormsAuthenticationMode>)
    ensures r.Ok? <==> value == "NONE" || value == "FORMS" || value == "ADFS" || value == "LIVE"
    ensures r.Ok? ==> ModeName(r.value) == value
    ensures r.Err? ==> r.error == InvalidConfigurationException(INVALID_MODE_MESSAGE + value)
  {
    if value == "NONE" then Ok(NONE)
    else if value == "FORMS" then Ok(FORMS)
    else if value == "ADFS" then Ok(ADFS)
    else if value == "LIVE" then Ok(LIVE)
    else Err(InvalidConfigurationException(INVALID_MODE_MESSAGE + value))
  }

  /** Every mode parses back from its name. */
  lemma ParseModeName(mode: FormsAuthenticationMode)
    ensures ParseMode(ModeName(mode)) == Ok(mode)
  {
  }

  /** The match is case-sensitive: a lower-case name is not a mode. */
  lemma ParseModeIsCaseSensitive(mode: FormsAuthenticationMode)
    ensures ParseMode(LowerName(mode)).Err?
  {
    var n := LowerName(mode);
    assert n[0] != ModeName(mode)[0];
  }

  /** The name of a mode in lower case. */
  function LowerName(mode: FormsAuthenticationMode): (s: string)
    ensures |s| == |ModeName(mode)| && forall i :: 0 <= i < |s| ==> s[i] == LowerAscii(ModeName(mode)[i])
  {
    match mode
    case NONE => "none"
    case FORMS => "forms"
    case ADFS => "adfs"
    case LIVE => "live"
  }

  /** The address of SharePoint's Authentication web service under the virtual server. */
  function AuthenticationEndpoint(virtualServer: string): (r: string)
    ensures |r| == |virtualServer| + |AUTHENTICATION_SERVICE_PATH|
    ensures r[..|virtualServer|] == virtualServer && r[|virtualServer|..] == AUTHENTICATION_SERVICE_PATH
  {
    virtualServer + AUTHENTICATION_SERVICE_PATH
  }

  /** The handler for a mode: the forms one calls the Authentication service; the SAML one performs a handshake. */
  datatype FormsAuthenticationHandler =
    | SharePointFormsAuthenticationHandler(username: string, password: string, endpoint: string)
    | SamlAuthenticationHandler(username: string, password: string, manager: SamlHandshakeManager)

  /** A configured value that overrides a builder default: present and not empty. */
  function Override(cfg: Properties, key: string): (r: Option<string>)
    ensures r.Some? <==> key in cfg && cfg[key] != ""
    ensures r.Some? ==> r.value == cfg[key]
  {
    var v := GetString(cfg, key, "");
    if v != "" then Some(v) else None
  }

  /** The ADFS manager the configuration describes: the STS endpoint and realm are required. */
  function AdfsManagerFor(cfg: Properties, virtualServer: string, username: string, password: string): (r: Result<SamlHandshakeManager>)
    ensures r.Ok? <==> STS_ENDPOINT_KEY in cfg && STS_REALM_KEY in cfg
    ensures r.Err? ==>
              r.error == InvalidConfigurationException(MissingKeyMessage(
                           if STS_ENDPOINT_KEY !in cfg then STS_ENDPOINT_KEY else STS_REALM_KEY))
    ensures r.Ok? ==>
              r.value == AdfsHandshakeManager(HandshakeSettings(
                           virtualServer, username, password, cfg[STS_ENDPOINT_KEY], cfg[STS_REALM_KEY],
                           Override(cfg, ADFS_LOGIN_KEY), Override(cfg, TRUST_LOCATION_KEY), DefaultPostClient))
  {
    var stsendpoint :- GetRequiredString(cfg, STS_ENDPOINT_KEY);
    var stsrealm :- GetRequiredString(cfg, STS_REALM_KEY);
    Ok(AdfsHandshakeManager(HandshakeSettings(
      virtualServer, username, password, stsendpoint, stsrealm,
      Override(cfg, ADFS_LOGIN_KEY), Override(cfg, TRUST_LOCATION_KEY), DefaultPostClient)))
  }

  /** getAdfsHandshakeManager: the builder's defaults stand unless the configuration overrides them. */
  method GetAdfsHandshakeManager(cfg: Properties, virtualServer: string, username: string, password: string)
    returns (r: Result<SamlHandshakeManager>)
    ensures r == AdfsManagerFor(cfg, virtualServer, username, password)
  {
    var stsendpoint := GetRequiredString(cfg, STS_ENDPOINT_KEY);
    if stsendpoint.Err? {
      return Err(stsendpoint.error);
    }
    var stsrealm := GetRequiredString(cfg, STS_REALM_KEY);
    if stsrealm.Err? {
      return Err(stsrealm.error);
    }
    var login := GetString(cfg, ADFS_LOGIN_KEY, "");
    var trustLocation := GetString(cfg, TRUST_LOCATION_KEY, "");
    var manager := new AdfsBuilder(virtualServer, username, password, stsendpoint.value, stsrealm.value);
    if login != "" {
      manager.SetLoginUrl(login);
    }
    if trustLocation != "" {
      manager.SetTrustLocation(trustLocation);
    }
    var m := manager.Build();
    r := Ok(m);
  }

  /** The Live manager the factory builds: defaults only, for the given URL. */
  function LiveManagerFor(sharePointUrl: string, username: string, password: string): (m: SamlHandshakeManager)
    ensures m.LiveAuthenticationHandshakeManager?
    ensures m.settings.sharePointUrl == sharePointUrl && m.settings.stsrealm == sharePointUrl
    ensures m.settings.login == Some(sharePointUrl + LIVE_LOGIN_URL) && m.settings.stsendpoint == LIVE_STS
  {
    LiveAuthenticationHandshakeManager(HandshakeSettings(
      sharePointUrl, username, password, LIVE_STS, sharePointUrl,
      Some(sharePointUrl + LIVE_LOGIN_URL), Some(""), DefaultPostClient))
  }

  /** The virtual server as a SharePointUrl; a failure to build it is an invalid configuration. */
  function ConfiguredUrl(virtualServer: string): (r: Result<SharePointUrl>)
    ensures r.Ok? <==> BuildDefault(virtualServer).Ok?
    ensures r.Ok? ==> r.value == BuildDefault(virtualServer).value
    ensures r.Err? ==> r.error == InvalidConfigurationException(URL_PARSE_MESSAGE)
  {
    match BuildDefault(virtualServer)
    case Ok(u) => Ok(u)
    case Err(_) => Err(InvalidConfigurationException(URL_PARSE_MESSAGE))
  }

  /**
   * What getFormsAuthenticationHandler returns: the virtual server must
   * build into a URL, then the mode (NONE when absent) picks the handler;
   * NONE is null.
   */
  function HandlerFor(cfg: Properties, virtualServer: string, username: string, password: string)
    : (r: Result<Option<FormsAuthenticationHandler>>)
    ensures r.Err? ==> r.error.InvalidConfigurationException?
    ensures r.Ok? ==> BuildDefault(virtualServer).Ok? && GetValue(cfg, AUTH_MODE_KEY, NONE, ParseMode).Ok?
    ensures r.Ok? ==> (r.value.None? <==> GetValue(cfg, AUTH_MODE_KEY, NONE, ParseMode).value == NONE)
  {
    var url :- ConfiguredUrl(virtualServer);
    var mode :- GetValue(cfg, AUTH_MODE_KEY, NONE, ParseMode);
    match mode
    case NONE => Ok(None)
    case FORMS => Ok(Some(SharePointFormsAuthenticationHandler(username, password, AuthenticationEndpoint(virtualServer))))
    case ADFS =>
      var m :- AdfsManagerFor(cfg, virtualServer, username, password);
      Ok(Some(SamlAuthenticationHandler(username, password, m)))
    case LIVE => Ok(Some(SamlAuthenticationHandler(username, password, LiveManagerFor(url.RootUrl(), username, password))))
  }

  /** getFormsAuthenticationHandler. */
  method GetFormsAuthenticationHandler(cfg: Properties, virtualServer: string, username: string, password: string)
    returns (r: Result<Option<FormsAuthenticationHandler>>)
    ensures r == HandlerFor(cfg, virtualServer, username, password)
  {
    var configuredUrl := ConfiguredUrl(virtualServer);
    if configuredUrl.Err? {
      return Err(configuredUrl.error);
    }
    var rootUrl := configuredUrl.value.RootUrl();
    var authenticationMode := GetValue(cfg, AUTH_MODE_KEY, NONE, ParseMode);
    if authenticationMode.Err? {
      return Err(authenticationMode.error);
    }
    match authenticationMode.value {
      case NONE =>
        r := Ok(None);
      case FORMS =>
        r := Ok(Some(SharePointFormsAuthenticationHandler(username, password, AuthenticationEndpoint(virtualServer))));
      case ADFS =>
        var m := GetAdfsHandshakeManager(cfg, virtualServer, username, password);
        if m.Err? {
          return Err(m.error);
        }
        r := Ok(Some(SamlAuthenticationHandler(username, password, m.value)));
      case LIVE =>
        var m := NewLiveManager(rootUrl, username, password);
        r := Ok(Some(SamlAuthenticationHandler(username, password, m)));
    }
  }

  // ---------------------------------------------------------------------------
  // Properties of the dispatch

  /** A virtual server that does not build fails before the mode is read: whatever the mode, even NONE or an invalid one. */
  lemma UrlCheckedFirst(cfg: Properties, virtualServer: string, username: string, password: string)
    requires BuildDefault(virtualServer).Err?
    ensures HandlerFor(cfg, virtualServer, username, password) == Err(InvalidConfigurationException(URL_PARSE_MESSAGE))
  {
  }

  /** With a good URL, an absent mode or NONE gives no handler. */
  lemma NoneGivesNoHandler(cfg: Properties, virtualServer: string, username: string, password: string)
    requires BuildDefault(virtualServer).Ok?
    requires AUTH_MODE_KEY !in cfg || cfg[AUTH_MODE_KEY] == "NONE"
    ensures HandlerFor(cfg, virtualServer, username, password) == Ok(None)
  {
  }

  /** With a good URL, a mode that is not one of the four names is an invalid configuration naming the value. */
  lemma InvalidModeRejected(cfg: Properties, virtualServer: string, username: string, password: string)
    requires BuildDefault(virtualServer).Ok?
    requires AUTH_MODE_KEY in cfg && ParseMode(cfg[AUTH_MODE_KEY]).Err?
    ensures HandlerFor(cfg, virtualServer, username, password)
         == Err(InvalidConfigurationException(INVALID_MODE_MESSAGE + cfg[AUTH_MODE_KEY]))
  {
  }

  /** The mode named in the configuration, when it parses. */
  predicate ModeIs(cfg: Properties, mode: FormsAuthenticationMode) {
    AUTH_MODE_KEY in cfg && ParseMode(cfg[AUTH_MODE_KEY]) == Ok(mode)
  }

  /** FORMS calls the Authentication service under the full virtual server. */
  lemma FormsUsesVirtualServer(cfg: Properties, virtualServer: string, username: string, password: string)
    requires BuildDefault(virtualServer).Ok? && ModeIs(cfg, FORMS)
    ensures HandlerFor(cfg, virtualServer, username, password)
         == Ok(Some(SharePointFormsAuthenticationHandler(username, password, virtualServer + "/_vti_bin/Authentication.asmx")))
  {
  }

  /** ADFS hands its manager the full virtual server, and the overrides apply only when present and not empty. */
  lemma AdfsUsesVirtualServer(cfg: Properties, virtualServer: string, username: string, password: string)
    requires BuildDefault(virtualServer).Ok? && ModeIs(cfg, ADFS)
    requires STS_ENDPOINT_KEY in cfg && STS_REALM_KEY in cfg
    ensures var r := HandlerFor(cfg, virtualServer, username, password);
            && r.Ok? && r.value.Some? && r.value.value.SamlAuthenticationHandler?
            && var s := r.value.value.manager.settings;
            && r.value.value.manager.AdfsHandshakeManager?
            && s.sharePointUrl == virtualServer
            && (s.login.Some? <==> ADFS_LOGIN_KEY in cfg && cfg[ADFS_LOGIN_KEY] != "")
            && (s.trustLocation.Some? <==> TRUST_LOCATION_KEY in cfg && cfg[TRUST_LOCATION_KEY] != "")
  {
  }

  /** ADFS without its STS endpoint or realm is an invalid configuration. */
  lemma AdfsNeedsSts(cfg: Properties, virtualServer: string, username: string, password: string)
    requires BuildDefault(virtualServer).Ok? && ModeIs(cfg, ADFS)
    requires STS_ENDPOINT_KEY !in cfg || STS_REALM_KEY !in cfg
    ensures var r := HandlerFor(cfg, virtualServer, username, password);
            r.Err? && r.error.InvalidConfigurationException?
  {
  }

  /**
   * LIVE builds its manager from the root URL (scheme and authority only;
   * RootUrlIgnoresLeniency shows it does not depend on the leniency), with
   * every Live default.
   */
  lemma LiveUsesRootUrl(cfg: Properties, virtualServer: string, username: string, password: string)
    requires BuildDefault(virtualServer).Ok? && ModeIs(cfg, LIVE)
    ensures HandlerFor(cfg, virtualServer, username, password)
         == Ok(Some(SamlAuthenticationHandler(username, password,
                 LiveManagerFor(BuildDefault(virtualServer).value.RootUrl(), username, password))))
  {
    var u := BuildDefault(virtualServer).value;
    assert ConfiguredUrl(virtualServer) == Ok(u);
    assert GetValue(cfg, AUTH_MODE_KEY, NONE, ParseMode) == Ok(LIVE);
  }

  /** The Live manager's URL and realm are the root URL, and it logs in at the root's login page. */
  lemma LiveManagerOfRoot(u: SharePointUrl, username: string, password: string)
    ensures var s := LiveManagerFor(u.RootUrl(), username, password).settings;
            && s.sharePointUrl == u.scheme + "://" + u.authority
            && s.stsrealm == s.sharePointUrl
            && s.login == Some(u.scheme + "://" + u.authority + LIVE_LOGIN_URL)
            && s.stsendpoint == LIVE_STS
  {
  }
}
