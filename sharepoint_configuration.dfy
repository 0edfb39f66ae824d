/**
 * SharePointConfiguration: the connector's settings read from the
 * configuration, validated, with timeouts converted from seconds to
 * milliseconds.
 */
module SharePointConfigurations {
  import opened Failures
  import opened Configuration
  import opened JavaLang
  import opened SharePointUrls

  const SERVER_KEY := "sharepoint.server"
  const USERNAME_KEY := "sharepoint.username"
  const PASSWORD_KEY := "sharepoint.password"
  const LENIENCY_KEY := "sharepoint.performBrowserLeniency"
  const XML_VALIDATION_KEY := "sharepoint.xmlValidation"
  const USER_AGENT_KEY := "sharepoint.userAgent"
  const SOCKET_TIMEOUT_KEY := "sharepoint.webservices.socketTimeoutSecs"
  const READ_TIMEOUT_KEY := "sharepoint.webservices.readTimeOutSecs"
  const SITE_COLLECTION_ONLY_KEY := "sharepoint.siteCollectionOnly"

  const DEFAULT_SOCKET_TIMEOUT_SECS: int := 30
  const DEFAULT_READ_TIMEOUT_SECS: int := 180

  const INVALID_URL_MESSAGE := "Invalid SharePoint URL "
  const INVALID_CONFIGURATION_MESSAGE := "Invalid SharePoint Configuration"

  /** TimeUnit.MILLISECONDS.convert(secs, TimeUnit.SECONDS). */
  function SecondsToMillis(secs: int): int {
    secs * 1000
  }

  /** A server URL with a path names a site collection rather than the root of a web application. */
  predicate HasPath(u: SharePointUrl)
    ensures !HasPath(u) <==> u.Uri() == u.RootUrl() + (if u.query.Some? then "?" + u.query.value else "")
  {
    u.path != []
  }

  datatype SharePointConfiguration = SharePointConfiguration(
    sharePointUrl: SharePointUrl,
    userName: string,
    password: string,
    sharePointUserAgent: string,
    webservicesSocketTimeoutMills: int,
    webservicesReadTimeoutMills: int,
    performXmlValidation: bool,
    siteCollectionUrl: bool)
  {
    /** isPerformBrowserLeniency: the setting the server URL was built with. */
    function IsPerformBrowserLeniency(): (b: bool)
      ensures b == sharePointUrl.performBrowserLeniency
    {
      sharePointUrl.performBrowserLeniency
    }
  }

  /**
   * SharePointConfiguration.Builder. Timeouts are held in seconds; an unset
   * siteCollectionOnly is None and leaves the decision to the server URL.
   */
  datatype Builder = Builder(
    sharePointUrl: SharePointUrl,
    userName: string,
    password: string,
    userAgent: string,
    socketTimeoutSecs: int,
    readTimeoutSecs: int,
    performXmlValidation: bool,
    siteCollectionOnly: Option<bool>)
  {
    function SetUserName(v: string): (b: Builder)
      ensures b == this.(userName := v)
    {
      this.(userName := v)
    }

    function SetPassword(v: string): (b: Builder)
      ensures b == this.(password := v)
    {
      this.(password := v)
    }

    function SetUserAgent(v: string): (b: Builder)
      ensures b == this.(userAgent := v)
    {
      this.(userAgent := v)
    }

    function SetSocketTimeoutSecs(v: int): (b: Builder)
      ensures b == this.(socketTimeoutSecs := v)
    {
      this.(socketTimeoutSecs := v)
    }

    function SetReadTimeoutSecs(v: int): (b: Builder)
      ensures b == this.(readTimeoutSecs := v)
    {
      this.(readTimeoutSecs := v)
    }

    function SetPerformXmlValidation(v: bool): (b: Builder)
      ensures b == this.(performXmlValidation := v)
    {
      this.(performXmlValidation := v)
    }

    function SetSiteCollectionOnly(v: Option<bool>): (b: Builder)
      ensures b == this.(siteCollectionOnly := v)
    {
      this.(siteCollectionOnly := v)
    }

    /**
     * build: a negative timeout is an invalid configuration; otherwise the
     * timeouts are reported in milliseconds and the URL is a site collection
     * when so configured or, when not configured, when it has a path.
     */
    function Build(): (r: Result<SharePointConfiguration>)
      ensures r.Ok? <==> socketTimeoutSecs >= 0 && readTimeoutSecs >= 0
      ensures r.Err? ==> r.error == InvalidConfigurationException(INVALID_CONFIGURATION_MESSAGE)
      ensures r.Ok? ==>
                && r.value.sharePointUrl == sharePointUrl
                && r.value.userName == userName && r.value.password == password
                && r.value.sharePointUserAgent == userAgent
                && r.value.webservicesSocketTimeoutMills == 1000 * socketTimeoutSecs
                && r.value.webservicesReadTimeoutMills == 1000 * readTimeoutSecs
                && r.value.webservicesSocketTimeoutMills >= 0 && r.value.webservicesReadTimeoutMills >= 0
                && r.value.performXmlValidation == performXmlValidation
                && (r.value.siteCollectionUrl <==>
                      if siteCollectionOnly.Some? then siteCollectionOnly.value else HasPath(sharePointUrl))
    {
      if socketTimeoutSecs < 0 || readTimeoutSecs < 0 then
        Err(InvalidConfigurationException(INVALID_CONFIGURATION_MESSAGE))
      else
        Ok(SharePointConfiguration(
          sharePointUrl, userName, password, userAgent,
          SecondsToMillis(socketTimeoutSecs), SecondsToMillis(readTimeoutSecs),
          performXmlValidation,
          if siteCollectionOnly.Some? then siteCollectionOnly.value else HasPath(sharePointUrl)))
    }
  }

  /** new SharePointConfiguration.Builder(sharePointUrl): every other setting at its default. */
  function NewBuilder(u: SharePointUrl): (b: Builder)
    ensures b.sharePointUrl == u && b.userName == "" && b.password == "" && b.userAgent == ""
    ensures b.socketTimeoutSecs == DEFAULT_SOCKET_TIMEOUT_SECS && b.readTimeoutSecs == DEFAULT_READ_TIMEOUT_SECS
    ensures !b.performXmlValidation && b.siteCollectionOnly.None?
  {
    Builder(u, "", "", "", DEFAULT_SOCKET_TIMEOUT_SECS, DEFAULT_READ_TIMEOUT_SECS, false, None)
  }

  /** A configured siteCollectionOnly: a boolean that is then present. */
  function ParsePresentBoolean(s: string): Result<Option<bool>> {
    var b :- ParseBoolean(s);
    Ok(Some(b))
  }

  /** The server URL, built with the configured leniency; any failure to build it is an invalid configuration. */
  function ServerUrl(server: string, lenient: bool): (r: Result<SharePointUrl>)
    ensures r.Ok? <==> Build(server, lenient).Ok?
    ensures r.Ok? ==> r.value == Build(server, lenient).value
    ensures r.Err? ==> r.error == InvalidConfigurationException(INVALID_URL_MESSAGE + server)
  {
    match Build(server, lenient)
    case Ok(u) => Ok(u)
    case Err(_) => Err(InvalidConfigurationException(INVALID_URL_MESSAGE + server))
  }

  /** The settings after the server URL: each key's value or its default, in a builder for url. */
  function ReadSettings(cfg: Properties, url: SharePointUrl): (r: Result<Builder>)
    ensures r.Ok? <==>
              && GetInteger(cfg, SOCKET_TIMEOUT_KEY, DEFAULT_SOCKET_TIMEOUT_SECS).Ok?
              && GetInteger(cfg, READ_TIMEOUT_KEY, DEFAULT_READ_TIMEOUT_SECS).Ok?
              && GetBoolean(cfg, XML_VALIDATION_KEY, false).Ok?
              && GetValue(cfg, SITE_COLLECTION_ONLY_KEY, None, ParsePresentBoolean).Ok?
    ensures r.Ok? ==>
              r.value == Builder(
                url,
                GetString(cfg, USERNAME_KEY, ""),
                GetString(cfg, PASSWORD_KEY, ""),
                GetString(cfg, USER_AGENT_KEY, ""),
                GetInteger(cfg, SOCKET_TIMEOUT_KEY, DEFAULT_SOCKET_TIMEOUT_SECS).value,
                GetInteger(cfg, READ_TIMEOUT_KEY, DEFAULT_READ_TIMEOUT_SECS).value,
                GetBoolean(cfg, XML_VALIDATION_KEY, false).value,
                GetValue(cfg, SITE_COLLECTION_ONLY_KEY, None, ParsePresentBoolean).value)
  {
    var socketSecs :- GetInteger(cfg, SOCKET_TIMEOUT_KEY, DEFAULT_SOCKET_TIMEOUT_SECS);
    var readSecs :- GetInteger(cfg, READ_TIMEOUT_KEY, DEFAULT_READ_TIMEOUT_SECS);
    var xml :- GetBoolean(cfg, XML_VALIDATION_KEY, false);
    var siteOnly :- GetValue(cfg, SITE_COLLECTION_ONLY_KEY, None, ParsePresentBoolean);
    Ok(NewBuilder(url)
      .SetUserName(GetString(cfg, USERNAME_KEY, ""))
      .SetPassword(GetString(cfg, PASSWORD_KEY, ""))
      .SetUserAgent(GetString(cfg, USER_AGENT_KEY, ""))
      .SetSocketTimeoutSecs(socketSecs)
      .SetReadTimeoutSecs(readSecs)
      .SetPerformXmlValidation(xml)
      .SetSiteCollectionOnly(siteOnly))
  }

  /** Everything fromConfiguration reads, in a builder: the server is required, every other key has a default. */
  function ReadBuilder(cfg: Properties): (r: Result<Builder>)
    ensures SERVER_KEY !in cfg ==> r == Err(InvalidConfigurationException(MissingKeyMessage(SERVER_KEY)))
    ensures r.Ok? ==> SERVER_KEY in cfg && GetBoolean(cfg, LENIENCY_KEY, DEFAULT_BROWSER_LENIENCY).Ok?
    ensures r.Ok? ==> Build(cfg[SERVER_KEY], GetBoolean(cfg, LENIENCY_KEY, DEFAULT_BROWSER_LENIENCY).value) == Ok(r.value.sharePointUrl)
  {
    var server :- GetRequiredString(cfg, SERVER_KEY);
    var lenient :- GetBoolean(cfg, LENIENCY_KEY, DEFAULT_BROWSER_LENIENCY);
    var url :- ServerUrl(server, lenient);
    ReadSettings(cfg, url)
  }

  /** fromConfiguration over an initialized configuration: read the settings, then build them. */
  function FromProperties(cfg: Properties): (r: Result<SharePointConfiguration>)
    ensures SERVER_KEY !in cfg ==> r == Err(InvalidConfigurationException(MissingKeyMessage(SERVER_KEY)))
    ensures ReadBuilder(cfg).Ok? ==> r == ReadBuilder(cfg).value.Build()
  {
    var b :- ReadBuilder(cfg);
    b.Build()
  }

  /** fromConfiguration: None stands for a configuration that was never initialized. */
  function FromConfiguration(config: Option<Properties>): (r: Result<SharePointConfiguration>)
    ensures config.None? ==> r.Err? && r.error.IllegalStateException?
    ensures config.Some? ==> r == FromProperties(config.value)
  {
    if config.None? then Err(IllegalStateException("Configuration not initialized"))
    else FromProperties(config.value)
  }

  // ---------------------------------------------------------------------------
  // Properties of fromConfiguration

  /** A configuration without sharepoint.server is invalid, and the message names the key. */
  lemma MissingServer(cfg: Properties)
    requires SERVER_KEY !in cfg
    ensures var r := FromConfiguration(Some(cfg));
            r.Err? && r.error.InvalidConfigurationException? && Contains(r.error.message, "sharepoint.server")
  {
  }

  /** A server value that does not build into a URL is invalid, and the message says so. */
  lemma InvalidServer(cfg: Properties)
    requires SERVER_KEY in cfg && GetBoolean(cfg, LENIENCY_KEY, true).Ok?
    requires Build(cfg[SERVER_KEY], GetBoolean(cfg, LENIENCY_KEY, true).value).Err?
    ensures var r := FromConfiguration(Some(cfg));
            r.Err? && r.error.InvalidConfigurationException? && Contains(r.error.message, "Invalid SharePoint URL")
  {
    ContainsPrefix("Invalid SharePoint URL", " " + cfg[SERVER_KEY]);
    assert INVALID_URL_MESSAGE + cfg[SERVER_KEY] == "Invalid SharePoint URL" + (" " + cfg[SERVER_KEY]);
  }

  /** The leniency setting is the browser leniency of the server URL. */
  lemma LeniencyOfUrl(cfg: Properties)
    requires FromConfiguration(Some(cfg)).Ok?
    ensures var c := FromConfiguration(Some(cfg)).value;
            && GetBoolean(cfg, LENIENCY_KEY, true).Ok?
            && c.IsPerformBrowserLeniency() == GetBoolean(cfg, LENIENCY_KEY, true).value
            && c.sharePointUrl == Build(cfg[SERVER_KEY], c.IsPerformBrowserLeniency()).value
  {
  }

  /**
   * Once the server and every setting have been read, a negative timeout, of
   * either kind, is rejected with "Invalid SharePoint Configuration".
   */
  lemma NegativeTimeoutRejected(cfg: Properties, key: string)
    requires key == SOCKET_TIMEOUT_KEY || key == READ_TIMEOUT_KEY
    requires key in cfg && ParseInt(cfg[key]).Ok? && ParseInt(cfg[key]).value < 0
    requires ReadBuilder(cfg).Ok?
    ensures FromConfiguration(Some(cfg)) == Err(InvalidConfigurationException(INVALID_CONFIGURATION_MESSAGE))
  {
  }

  /** Every configuration that builds has timeouts of at least zero milliseconds. */
  lemma TimeoutsNonNegative(cfg: Properties)
    requires FromConfiguration(Some(cfg)).Ok?
    ensures FromConfiguration(Some(cfg)).value.webservicesSocketTimeoutMills >= 0
    ensures FromConfiguration(Some(cfg)).value.webservicesReadTimeoutMills >= 0
  {
  }

  /** A timeout that parses to a number of seconds is reported as that many thousand milliseconds. */
  lemma ParsedTimeoutInMillis(cfg: Properties, socketSecs: int, readSecs: int)
    requires FromConfiguration(Some(cfg)).Ok?
    requires SOCKET_TIMEOUT_KEY in cfg && ParseInt(cfg[SOCKET_TIMEOUT_KEY]) == Ok(socketSecs)
    requires READ_TIMEOUT_KEY in cfg && ParseInt(cfg[READ_TIMEOUT_KEY]) == Ok(readSecs)
    ensures FromConfiguration(Some(cfg)).value.webservicesSocketTimeoutMills == socketSecs * 1000
    ensures FromConfiguration(Some(cfg)).value.webservicesReadTimeoutMills == readSecs * 1000
  {
  }

  /** A timeout written in seconds as Integer.toString writes it is reported in milliseconds. */
  lemma TimeoutInMillis(cfg: Properties, socketSecs: int, readSecs: int)
    requires 0 <= socketSecs <= INT_MAX && 0 <= readSecs <= INT_MAX
    requires FromConfiguration(Some(cfg)).Ok?
    requires SOCKET_TIMEOUT_KEY in cfg && cfg[SOCKET_TIMEOUT_KEY] == DecimalString(socketSecs)
    requires READ_TIMEOUT_KEY in cfg && cfg[READ_TIMEOUT_KEY] == DecimalString(readSecs)
    ensures FromConfiguration(Some(cfg)).value.webservicesSocketTimeoutMills == socketSecs * 1000
    ensures FromConfiguration(Some(cfg)).value.webservicesReadTimeoutMills == readSecs * 1000
  {
    ParseIntDecimalString(socketSecs);
    ParseIntDecimalString(readSecs);
    ParsedTimeoutInMillis(cfg, socketSecs, readSecs);
  }

  /** The three properties every case of SharePointConfigurationTest starts from. */
  function BaseConfiguration(server: string, userName: string, password: string): Properties {
    map[SERVER_KEY := server, USERNAME_KEY := userName, PASSWORD_KEY := password]
  }

  lemma BaseKeys(server: string, userName: string, password: string)
    ensures var cfg := BaseConfiguration(server, userName, password);
            && cfg[SERVER_KEY] == server
            && LENIENCY_KEY !in cfg && XML_VALIDATION_KEY !in cfg && USER_AGENT_KEY !in cfg
            && SOCKET_TIMEOUT_KEY !in cfg && READ_TIMEOUT_KEY !in cfg && SITE_COLLECTION_ONLY_KEY !in cfg
            && GetString(cfg, USERNAME_KEY, "") == userName && GetString(cfg, PASSWORD_KEY, "") == password
  {
    assert USERNAME_KEY[11] != PASSWORD_KEY[11];
  }

  /**
   * With only the server, user name and password configured, the settings
   * are the defaults, and they are what the Builder gives for the same URL,
   * user name and password (testFromConfigurationWithDefaults,
   * testFromConfigurationMatchesDefaultBuilder).
   */
  lemma DefaultsMatchBuilder(server: string, userName: string, password: string)
    requires Build(server, true).Ok?
    ensures var r := FromConfiguration(Some(BaseConfiguration(server, userName, password)));
            && r.Ok?
            && r == NewBuilder(Build(server, true).value).SetPassword(password).SetUserName(userName).Build()
            && r.value.IsPerformBrowserLeniency()
            && !r.value.performXmlValidation
            && r.value.sharePointUserAgent == ""
            && r.value.webservicesSocketTimeoutMills == 30000
            && r.value.webservicesReadTimeoutMills == 180000
            && (r.value.siteCollectionUrl <==> HasPath(Build(server, true).value))
  {
    BaseKeys(server, userName, password);
  }

  /** A bare host is not a site collection URL (testFromConfigurationWithDefaults). */
  lemma BareHostIsNotSiteCollection(scheme: string, host: string, userName: string, password: string)
    requires IsScheme(scheme) && |host| > 0 && forall i :: 0 <= i < |host| ==> !EndsAuthority(host[i])
    ensures var r := FromConfiguration(Some(BaseConfiguration(scheme + "://" + host, userName, password)));
            && r.Ok? && !r.value.siteCollectionUrl && BuildDefault(scheme + "://" + host) == Ok(r.value.sharePointUrl)
            && r.value.IsPerformBrowserLeniency() && !r.value.performXmlValidation
  {
    EqualsCase(scheme, host);
    BuildParts(scheme, host, "", true);
    assert scheme + "://" + host + "" == scheme + "://" + host;
    DefaultsMatchBuilder(scheme + "://" + host, userName, password);
  }

  /** A server URL with a path is a site collection URL without any flag (testFromConfigurationWithSiteCollectionOnlyByUrl). */
  lemma PathIsSiteCollection(scheme: string, host: string, path: string, userName: string, password: string)
    requires IsScheme(scheme) && forall i :: 0 <= i < |host| ==> !EndsAuthority(host[i])
    requires |path| > 0 && path[0] == '/' && '?' !in path && path[|path| - 1] != '/'
    ensures var r := FromConfiguration(Some(BaseConfiguration(scheme + "://" + host + path, userName, password)));
            && r.Ok? && r.value.siteCollectionUrl && Build(scheme + "://" + host + path, true) == Ok(r.value.sharePointUrl)
            && r.value.IsPerformBrowserLeniency() && !r.value.performXmlValidation
  {
    var url := scheme + "://" + host + path;
    assert url[|url| - 1] == path[|path| - 1];
    BuildParts(scheme, host, path, true);
    DefaultsMatchBuilder(url, userName, password);
  }

  /** With sharepoint.siteCollectionOnly=true even a bare host is a site collection (testFromConfigurationWithSiteCollectionOnly). */
  lemma FlagOnBareHost(scheme: string, host: string, userName: string, password: string)
    requires IsScheme(scheme) && |host| > 0 && forall i :: 0 <= i < |host| ==> !EndsAuthority(host[i])
    ensures var cfg := BaseConfiguration(scheme + "://" + host, userName, password)[SITE_COLLECTION_ONLY_KEY := "true"];
            var r := FromConfiguration(Some(cfg));
            && r.Ok? && r.value.siteCollectionUrl && BuildDefault(scheme + "://" + host) == Ok(r.value.sharePointUrl)
            && r.value.IsPerformBrowserLeniency() && !r.value.performXmlValidation
  {
    EqualsCase(scheme, host);
    FlagBuilder(scheme + "://" + host, userName, password);
  }

  /** What fromConfiguration reads from the base properties plus sharepoint.siteCollectionOnly=true. */
  lemma FlagBuilder(url: string, userName: string, password: string)
    requires Build(url, true).Ok?
    ensures var cfg := BaseConfiguration(url, userName, password)[SITE_COLLECTION_ONLY_KEY := "true"];
            ReadBuilder(cfg) == Ok(Builder(Build(url, true).value, userName, password, "", DEFAULT_SOCKET_TIMEOUT_SECS,
                                           DEFAULT_READ_TIMEOUT_SECS, false, Some(true)))
  {
    FlagLookups(url, userName, password);
    assert ServerUrl(url, true) == Ok(Build(url, true).value);
  }

  /** What each key reads to in the base properties with sharepoint.siteCollectionOnly=true. */
  lemma FlagLookups(url: string, userName: string, password: string)
    ensures var cfg := BaseConfiguration(url, userName, password)[SITE_COLLECTION_ONLY_KEY := "true"];
            && GetRequiredString(cfg, SERVER_KEY) == Ok(url)
            && GetBoolean(cfg, LENIENCY_KEY, DEFAULT_BROWSER_LENIENCY) == Ok(true)
            && GetInteger(cfg, SOCKET_TIMEOUT_KEY, DEFAULT_SOCKET_TIMEOUT_SECS) == Ok(DEFAULT_SOCKET_TIMEOUT_SECS)
            && GetInteger(cfg, READ_TIMEOUT_KEY, DEFAULT_READ_TIMEOUT_SECS) == Ok(DEFAULT_READ_TIMEOUT_SECS)
            && GetBoolean(cfg, XML_VALIDATION_KEY, false) == Ok(false)
            && GetValue(cfg, SITE_COLLECTION_ONLY_KEY, None, ParsePresentBoolean) == Ok(Some(true))
            && GetString(cfg, USERNAME_KEY, "") == userName && GetString(cfg, PASSWORD_KEY, "") == password
            && GetString(cfg, USER_AGENT_KEY, "") == ""
  {
    BaseKeys(url, userName, password);
    assert EqualsIgnoreCase("true", "true");
  }

  /** sharepoint.siteCollectionOnly=true makes the URL a site collection URL (testFromConfigurationWithSiteCollectionOnly). */
  lemma FlagIsSiteCollection(cfg: Properties)
    requires SITE_COLLECTION_ONLY_KEY in cfg && cfg[SITE_COLLECTION_ONLY_KEY] == "true"
    requires FromConfiguration(Some(cfg)).Ok?
    ensures FromConfiguration(Some(cfg)).value.siteCollectionUrl
  {
    assert EqualsIgnoreCase("true", "true");
  }

  /** A configured siteCollectionOnly, true or false, decides the matter whatever the URL. */
  lemma FlagDecides(cfg: Properties)
    requires SITE_COLLECTION_ONLY_KEY in cfg
    requires FromConfiguration(Some(cfg)).Ok?
    ensures ParseBoolean(cfg[SITE_COLLECTION_ONLY_KEY]).Ok?
    ensures FromConfiguration(Some(cfg)).value.siteCollectionUrl == ParseBoolean(cfg[SITE_COLLECTION_ONLY_KEY]).value
  {
  }

  /** testNegativeSocketTimeoutSecs and testNegativeReadTimeoutSecs: the value "-50" is rejected. */
  lemma MinusFiftyRejected(cfg: Properties, key: string)
    requires key == SOCKET_TIMEOUT_KEY || key == READ_TIMEOUT_KEY
    requires key in cfg && cfg[key] == "-50"
    requires ReadBuilder(cfg).Ok?
    ensures FromConfiguration(Some(cfg)) == Err(InvalidConfigurationException(INVALID_CONFIGURATION_MESSAGE))
  {
    ParseDecimals();
    NegativeTimeoutRejected(cfg, key);
  }

  /** testFromConfigurationWithNonDefaults: "50" and "120" seconds become 50000 and 120000 milliseconds. */
  lemma FiftyAndOneTwentySeconds(cfg: Properties)
    requires FromConfiguration(Some(cfg)).Ok?
    requires SOCKET_TIMEOUT_KEY in cfg && cfg[SOCKET_TIMEOUT_KEY] == "50"
    requires READ_TIMEOUT_KEY in cfg && cfg[READ_TIMEOUT_KEY] == "120"
    ensures FromConfiguration(Some(cfg)).value.webservicesSocketTimeoutMills == 50000
    ensures FromConfiguration(Some(cfg)).value.webservicesReadTimeoutMills == 120000
  {
    ParseDecimals();
    ParsedTimeoutInMillis(cfg, 50, 120);
  }

  /** testFromConfigurationConfigNotInitialized: no configuration at all. */
  lemma NotInitializedExample()
    ensures var r := FromConfiguration(None);
            r.Err? && r.error.IllegalStateException?
  {
  }

  /** testFromConfigurationConfigNoSharePointUrl: an empty Properties. */
  lemma EmptyPropertiesExample()
    ensures var r := FromConfiguration(Some(map[]));
            r.Err? && r.error.InvalidConfigurationException? && Contains(r.error.message, "sharepoint.server")
  {
    MissingServer(map[]);
  }

  /** testFromConfigurationInavlidSharepointUrl: the server "something" has no scheme. */
  lemma SomethingIsInvalid()
    ensures var r := FromConfiguration(Some(map[SERVER_KEY := "something"]));
            r.Err? && r.error.InvalidConfigurationException? && Contains(r.error.message, "Invalid SharePoint URL")
  {
    var cfg := map[SERVER_KEY := "something"];
    assert LENIENCY_KEY !in cfg;
    NoSchemeFails("something", true);
    InvalidServer(cfg);
  }

  lemma ParseDecimals()
    ensures ParseInt("-50") == Ok(-50) && ParseInt("50") == Ok(50) && ParseInt("120") == Ok(120)
  {
    assert "-50"[1..] == "50";
    assert "50"[..1] == "5" && "5"[..0] == "";
    assert "120"[..2] == "12" && "12"[..1] == "1" && "1"[..0] == "";
  }

  /** The base properties with one timeout key set to the text s of secs seconds. */
  lemma OneTimeoutBuilder(url: string, userName: string, password: string, key: string, s: string, secs: int)
    requires Build(url, true).Ok?
    requires key == SOCKET_TIMEOUT_KEY || key == READ_TIMEOUT_KEY
    requires ParseInt(s) == Ok(secs)
    ensures var cfg := BaseConfiguration(url, userName, password)[key := s];
            ReadBuilder(cfg) == Ok(Builder(Build(url, true).value, userName, password, "",
                                           if key == SOCKET_TIMEOUT_KEY then secs else DEFAULT_SOCKET_TIMEOUT_SECS,
                                           if key == READ_TIMEOUT_KEY then secs else DEFAULT_READ_TIMEOUT_SECS,
                                           false, None))
  {
    var cfg := BaseConfiguration(url, userName, password)[key := s];
    BaseKeys(url, userName, password);
    var u := Build(url, true).value;
    assert GetRequiredString(cfg, SERVER_KEY) == Ok(url);
    assert GetBoolean(cfg, LENIENCY_KEY, DEFAULT_BROWSER_LENIENCY) == Ok(true);
    assert ServerUrl(url, true) == Ok(u);
    assert GetInteger(cfg, SOCKET_TIMEOUT_KEY, DEFAULT_SOCKET_TIMEOUT_SECS)
           == Ok(if key == SOCKET_TIMEOUT_KEY then secs else DEFAULT_SOCKET_TIMEOUT_SECS);
    assert GetInteger(cfg, READ_TIMEOUT_KEY, DEFAULT_READ_TIMEOUT_SECS)
           == Ok(if key == READ_TIMEOUT_KEY then secs else DEFAULT_READ_TIMEOUT_SECS);
    assert GetBoolean(cfg, XML_VALIDATION_KEY, false) == Ok(false);
    assert GetValue(cfg, SITE_COLLECTION_ONLY_KEY, None, ParsePresentBoolean) == Ok(None);
    assert GetString(cfg, USERNAME_KEY, "") == userName && GetString(cfg, PASSWORD_KEY, "") == password;
    assert GetString(cfg, USER_AGENT_KEY, "") == "";
  }

  /** The base properties with a user agent and both timeouts set to the texts s1 and s2. */
  lemma NonDefaultBuilder(url: string, userName: string, password: string, agent: string,
                          s1: string, s2: string, socketSecs: int, readSecs: int)
    requires Build(url, true).Ok?
    requires ParseInt(s1) == Ok(socketSecs) && ParseInt(s2) == Ok(readSecs)
    ensures var cfg := BaseConfiguration(url, userName, password)[USER_AGENT_KEY := agent]
                         [SOCKET_TIMEOUT_KEY := s1][READ_TIMEOUT_KEY := s2];
            ReadBuilder(cfg) == Ok(Builder(Build(url, true).value, userName, password, agent,
                                           socketSecs, readSecs, false, None))
  {
    var cfg := BaseConfiguration(url, userName, password)[USER_AGENT_KEY := agent]
                 [SOCKET_TIMEOUT_KEY := s1][READ_TIMEOUT_KEY := s2];
    NonDefaultLookups(url, userName, password, agent, s1, s2, socketSecs, readSecs);
    assert ServerUrl(url, true) == Ok(Build(url, true).value);
  }

  /** What each key reads to in those properties. */
  lemma NonDefaultLookups(url: string, userName: string, password: string, agent: string,
                          s1: string, s2: string, socketSecs: int, readSecs: int)
    requires ParseInt(s1) == Ok(socketSecs) && ParseInt(s2) == Ok(readSecs)
    ensures var cfg := BaseConfiguration(url, userName, password)[USER_AGENT_KEY := agent]
                         [SOCKET_TIMEOUT_KEY := s1][READ_TIMEOUT_KEY := s2];
            && GetRequiredString(cfg, SERVER_KEY) == Ok(url)
            && GetBoolean(cfg, LENIENCY_KEY, DEFAULT_BROWSER_LENIENCY) == Ok(true)
            && GetInteger(cfg, SOCKET_TIMEOUT_KEY, DEFAULT_SOCKET_TIMEOUT_SECS) == Ok(socketSecs)
            && GetInteger(cfg, READ_TIMEOUT_KEY, DEFAULT_READ_TIMEOUT_SECS) == Ok(readSecs)
            && GetBoolean(cfg, XML_VALIDATION_KEY, false) == Ok(false)
            && GetValue(cfg, SITE_COLLECTION_ONLY_KEY, None, ParsePresentBoolean) == Ok(None)
            && GetString(cfg, USERNAME_KEY, "") == userName && GetString(cfg, PASSWORD_KEY, "") == password
            && GetString(cfg, USER_AGENT_KEY, "") == agent
  {
    BaseKeys(url, userName, password);
  }

  // ---------------------------------------------------------------------------
  // The cases of SharePointConfigurationTest on its own values: the base
  // properties are sharepoint.server=http://localhost, username, password.

  /** testFromConfigurationWithDefaults and testFromConfigurationMatchesDefaultBuilder. */
  lemma DefaultsExample()
    ensures var url := "http" + "://" + "localhost";
            var r := FromConfiguration(Some(BaseConfiguration(url, "username", "password")));
            && r.Ok?
            && r.value.IsPerformBrowserLeniency() && !r.value.performXmlValidation
            && Ok(r.value.sharePointUrl) == Build(url, true)
            && !r.value.siteCollectionUrl
            && r == NewBuilder(Build(url, true).value).SetPassword("password").SetUserName("username").Build()
  {
    var url := "http" + "://" + "localhost";
    BareHostIsNotSiteCollection("http", "localhost", "username", "password");
    DefaultsMatchBuilder(url, "username", "password");
  }

  /** testFromConfigurationWithSiteCollectionOnly. */
  lemma SiteCollectionOnlyExample()
    ensures var url := "http" + "://" + "localhost";
            var r := FromConfiguration(Some(BaseConfiguration(url, "username", "password")[SITE_COLLECTION_ONLY_KEY := "true"]));
            && r.Ok?
            && r.value.IsPerformBrowserLeniency() && !r.value.performXmlValidation
            && Ok(r.value.sharePointUrl) == Build(url, true)
            && r.value.siteCollectionUrl
  {
    FlagOnBareHost("http", "localhost", "username", "password");
  }

  /** testFromConfigurationWithSiteCollectionOnlyByUrl. */
  lemma SiteCollectionByUrlExample()
    ensures var url := "http" + "://" + "localhost" + "/sites/collection";
            var r := FromConfiguration(Some(BaseConfiguration(url, "username", "password")));
            && r.Ok?
            && r.value.IsPerformBrowserLeniency() && !r.value.performXmlValidation
            && Ok(r.value.sharePointUrl) == Build(url, true)
            && r.value.siteCollectionUrl
  {
    PathIsSiteCollection("http", "localhost", "/sites/collection", "username", "password");
  }

  /** testNegativeSocketTimeoutSecs and testNegativeReadTimeoutSecs. */
  lemma NegativeTimeoutExamples()
    ensures var base := BaseConfiguration("http" + "://" + "localhost", "username", "password");
            FromConfiguration(Some(base[SOCKET_TIMEOUT_KEY := "-50"]))
            == Err(InvalidConfigurationException(INVALID_CONFIGURATION_MESSAGE))
    ensures var base := BaseConfiguration("http" + "://" + "localhost", "username", "password");
            FromConfiguration(Some(base[READ_TIMEOUT_KEY := "-50"]))
            == Err(InvalidConfigurationException(INVALID_CONFIGURATION_MESSAGE))
  {
    var url := "http" + "://" + "localhost";
    var base := BaseConfiguration(url, "username", "password");
    EqualsCase("http", "localhost");
    ParseDecimals();
    OneTimeoutBuilder(url, "username", "password", SOCKET_TIMEOUT_KEY, "-50", -50);
    MinusFiftyRejected(base[SOCKET_TIMEOUT_KEY := "-50"], SOCKET_TIMEOUT_KEY);
    OneTimeoutBuilder(url, "username", "password", READ_TIMEOUT_KEY, "-50", -50);
    MinusFiftyRejected(base[READ_TIMEOUT_KEY := "-50"], READ_TIMEOUT_KEY);
  }

  /**
   * testFromConfigurationWithNonDefaults, without the reference identity
   * sources, which this model does not read.
   */
  lemma NonDefaultsExample()
    ensures var url := "http" + "://" + "localhost";
            var cfg := BaseConfiguration(url, "username", "password")[USER_AGENT_KEY := "agent"]
                         [SOCKET_TIMEOUT_KEY := "50"][READ_TIMEOUT_KEY := "120"];
            var r := FromConfiguration(Some(cfg));
            && r.Ok?
            && r.value.IsPerformBrowserLeniency() && !r.value.performXmlValidation
            && Ok(r.value.sharePointUrl) == Build(url, true)
            && r.value.sharePointUserAgent == "agent"
            && r.value.webservicesSocketTimeoutMills == 50000
            && r.value.webservicesReadTimeoutMills == 120000
  {
    var url := "http" + "://" + "localhost";
    EqualsCase("http", "localhost");
    ParseDecimals();
    NonDefaultBuilder(url, "username", "password", "agent", "50", "120", 50, 120);
  }
}
