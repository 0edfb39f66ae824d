/**
 * The SAML handshake managers: the ADFS builder that the factory and the
 * Live manager configure, and the Live manager's builder, token extraction
 * and cookie request.
 *
 * The token is the text of a wsse:BinarySecurityToken element (section 6.3
 * of OASIS Web Services Security: SOAP Message Security 1.0); it is posted to
 * the login URL with a SOAPAction header (section 6.1.1 of SOAP 1.1), and the
 * answer's Set-Cookie header (section 4.1 of RFC 6265) is the cookie.
 */
module Handshakes {
  import opened Failures
  import SharePointUrls

  const LIVE_STS := "https://login.microsoftonline.com/extSTS.srf"
  const LIVE_LOGIN_URL := "/_forms/default.aspx?wa=wsignin1.0"
  const WSSE_NAMESPACE := "http://docs.oasis-open.org/wss/2004/01/oasis-200401-wss-wssecurity-secext-1.0.xsd"
  const BINARY_SECURITY_TOKEN := "BinarySecurityToken"
  const SOAP_ACTION := "SOAPAction"
  const SET_COOKIE := "Set-Cookie"
  const NULL_RESPONSE_MESSAGE := "tokenResponse is null"
  const NO_TOKEN_MESSAGE := "Live Authentication token not available in response"

  /** The HTTP client a manager posts with: the default implementation, or one a test injects. */
  datatype HttpPostClient = DefaultPostClient | InjectedPostClient(id: nat)

  /**
   * What an AdfsHandshakeManager is built from. A login URL or trust
   * location of None is the ADFS default, which AdfsHandshakeManager decides.
   */
  datatype HandshakeSettings = HandshakeSettings(
    sharePointUrl: string,
    username: string,
    password: string,
    stsendpoint: string,
    stsrealm: string,
    login: Option<string>,
    trustLocation: Option<string>,
    httpClient: HttpPostClient)

  /** A built handshake manager: a plain ADFS one, or the Live subclass. */
  datatype SamlHandshakeManager =
    | AdfsHandshakeManager(settings: HandshakeSettings)
    | LiveAuthenticationHandshakeManager(settings: HandshakeSettings)

  /** AdfsHandshakeManager.Builder. */
  class AdfsBuilder {
    const sharePointUrl: string
    const username: string
    const password: string
    const stsendpoint: string
    const stsrealm: string
    var login: Option<string>
    var trustLocation: Option<string>
    var httpClient: HttpPostClient

    constructor(sharePointUrl: string, username: string, password: string, stsendpoint: string, stsrealm: string)
      ensures this.sharePointUrl == sharePointUrl && this.username == username && this.password == password
      ensures this.stsendpoint == stsendpoint && this.stsrealm == stsrealm
      ensures login.None? && trustLocation.None? && httpClient == DefaultPostClient
    {
      this.sharePointUrl := sharePointUrl;
      this.username := username;
      this.password := password;
      this.stsendpoint := stsendpoint;
      this.stsrealm := stsrealm;
      login := None;
      trustLocation := None;
      httpClient := DefaultPostClient;
    }

    method SetLoginUrl(login: string)
      modifies this`login
      ensures this.login == Some(login)
      ensures trustLocation == old(trustLocation) && httpClient == old(httpClient)
    {
      this.login := Some(login);
    }

    method SetTrustLocation(trustLocation: string)
      modifies this`trustLocation
      ensures this.trustLocation == Some(trustLocation)
      ensures login == old(login) && httpClient == old(httpClient)
    {
      this.trustLocation := Some(trustLocation);
    }

    method SetHttpClient(httpClient: HttpPostClient)
      modifies this`httpClient
      ensures this.httpClient == httpClient
      ensures login == old(login) && trustLocation == old(trustLocation)
    {
      this.httpClient := httpClient;
    }

    /** The settings the builder holds now. */
    function Settings(): HandshakeSettings
      reads this
    {
      HandshakeSettings(sharePointUrl, username, password, stsendpoint, stsrealm, login, trustLocation, httpClient)
    }

    /** build. */
    method Build() returns (m: SamlHandshakeManager)
      ensures m == AdfsHandshakeManager(Settings())
    {
      m := AdfsHandshakeManager(Settings());
    }
  }

  /** LiveAuthenticationHandshakeManager.Builder. */
  class LiveBuilder {
    const username: string
    const password: string
    const sharePointUrl: string
    var stsendpoint: string
    var httpClient: HttpPostClient
    var login: string
    var trustLocation: string

    /** The login page of the site, no trust location, Microsoft's STS and the default client. */
    constructor(sharePointUrl: string, username: string, password: string)
      ensures this.sharePointUrl == sharePointUrl && this.username == username && this.password == password
      ensures login == sharePointUrl + LIVE_LOGIN_URL
      ensures trustLocation == "" && stsendpoint == LIVE_STS && httpClient == DefaultPostClient
    {
      this.sharePointUrl := sharePointUrl;
      this.username := username;
      this.password := password;
      httpClient := DefaultPostClient;
      login := sharePointUrl + LIVE_LOGIN_URL;
      trustLocation := "";
      stsendpoint := LIVE_STS;
    }

    method SetLoginUrl(login: string)
      modifies this`login
      ensures this.login == login
      ensures stsendpoint == old(stsendpoint) && httpClient == old(httpClient) && trustLocation == old(trustLocation)
    {
      this.login := login;
    }

    method SetStsendpoint(stsendpoint: string)
      modifies this`stsendpoint
      ensures this.stsendpoint == stsendpoint
      ensures login == old(login) && httpClient == old(httpClient) && trustLocation == old(trustLocation)
    {
      this.stsendpoint := stsendpoint;
    }

    method SetHttpClient(httpClient: HttpPostClient)
      modifies this`httpClient
      ensures this.httpClient == httpClient
      ensures login == old(login) && stsendpoint == old(stsendpoint) && trustLocation == old(trustLocation)
    {
      this.httpClient := httpClient;
    }

    /**
     * build: an ADFS manager whose realm is the SharePoint URL itself, with
     * this builder's client, login URL and trust location forwarded as they are.
     */
    method Build() returns (m: SamlHandshakeManager)
      ensures m == LiveAuthenticationHandshakeManager(HandshakeSettings(
                     sharePointUrl, username, password, stsendpoint, sharePointUrl,
                     Some(login), Some(trustLocation), httpClient))
    {
      var adfs := new AdfsBuilder(sharePointUrl, username, password, stsendpoint, sharePointUrl);
      adfs.SetHttpClient(httpClient);
      adfs.SetLoginUrl(login);
      adfs.SetTrustLocation(trustLocation);
      m := LiveAuthenticationHandshakeManager(adfs.Settings());
    }
  }

  /** new LiveAuthenticationHandshakeManager.Builder(url, username, password).build(), as the factory uses it. */
  method NewLiveManager(sharePointUrl: string, username: string, password: string) returns (m: SamlHandshakeManager)
    ensures m == LiveAuthenticationHandshakeManager(HandshakeSettings(
                   sharePointUrl, username, password, LIVE_STS, sharePointUrl,
                   Some(sharePointUrl + LIVE_LOGIN_URL), Some(""), DefaultPostClient))
  {
    var b := new LiveBuilder(sharePointUrl, username, password);
    m := b.Build();
  }

  // ---------------------------------------------------------------------------
  // extractToken

  /** An element of a parsed document: its namespace (None when it has none), local name and text content. */
  datatype Element = Element(namespace: Option<string>, localName: string, textContent: string)

  /** The outcome of parsing a token response: a failure, or the elements in document order. */
  datatype XmlDocument = ParseFailure(reason: string) | Document(elements: seq<Element>)

  predicate HasTag(e: Element, ns: string, localName: string) {
    e.namespace == Some(ns) && e.localName == localName
  }

  /** getElementsByTagNameNS: the elements with that namespace and local name, in document order. */
  function ElementsByTagNameNS(es: seq<Element>, ns: string, localName: string): (r: seq<Element>)
    ensures |r| <= |es|
    ensures forall i :: 0 <= i < |r| ==> HasTag(r[i], ns, localName)
  {
    if es == [] then []
    else if HasTag(es[0], ns, localName) then [es[0]] + ElementsByTagNameNS(es[1..], ns, localName)
    else ElementsByTagNameNS(es[1..], ns, localName)
  }

  predicate IsToken(e: Element) {
    HasTag(e, WSSE_NAMESPACE, BINARY_SECURITY_TOKEN)
  }

  /** Every element the lookup returns has the tag, and every element with the tag is returned. */
  lemma {:induction false} ElementsByTagNameNSExact(es: seq<Element>, ns: string, localName: string)
    ensures forall e :: e in ElementsByTagNameNS(es, ns, localName) <==> e in es && HasTag(e, ns, localName)
  {
    if es != [] {
      ElementsByTagNameNSExact(es[1..], ns, localName);
      assert es == [es[0]] + es[1..];
    }
  }

  /** The first element the lookup returns is the earliest element with the tag; there is none exactly when none has it. */
  lemma {:induction false} FirstElementByTagNameNS(es: seq<Element>, ns: string, localName: string)
    ensures ElementsByTagNameNS(es, ns, localName) == [] <==> forall i :: 0 <= i < |es| ==> !HasTag(es[i], ns, localName)
    ensures ElementsByTagNameNS(es, ns, localName) != [] ==>
              exists k :: 0 <= k < |es| && HasTag(es[k], ns, localName)
                          && ElementsByTagNameNS(es, ns, localName)[0] == es[k]
                          && forall i :: 0 <= i < k ==> !HasTag(es[i], ns, localName)
  {
    if es != [] && !HasTag(es[0], ns, localName) {
      FirstElementByTagNameNS(es[1..], ns, localName);
      var t := es[1..];
      if ElementsByTagNameNS(t, ns, localName) != [] {
        var k :| 0 <= k < |t| && HasTag(t[k], ns, localName)
                 && ElementsByTagNameNS(t, ns, localName)[0] == t[k]
                 && forall i :: 0 <= i < k ==> !HasTag(t[i], ns, localName);
        assert es[k + 1] == t[k];
        assert forall i :: 0 < i < k + 1 ==> es[i] == t[i - 1];
      } else {
        assert forall i :: 0 < i < |es| ==> es[i] == t[i - 1];
      }
    } else if es != [] {
      assert HasTag(es[0], ns, localName);
    }
  }

  /**
   * extractToken: a null response and a response that does not parse are
   * I/O errors, and so is one without a token; otherwise the text of the
   * first token element.
   */
  function ExtractToken(tokenResponse: Option<string>, parse: string -> XmlDocument): (r: Result<string>)
    ensures r.Err? ==> r.error.IOException?
    ensures tokenResponse.None? ==> r == Err(IOException(NULL_RESPONSE_MESSAGE))
    ensures tokenResponse.Some? && parse(tokenResponse.value).ParseFailure? ==> r.Err?
  {
    if tokenResponse.None? then Err(IOException(NULL_RESPONSE_MESSAGE))
    else
      match parse(tokenResponse.value)
      case ParseFailure(reason) => Err(IOException(reason))
      case Document(es) =>
        var nodes := ElementsByTagNameNS(es, WSSE_NAMESPACE, BINARY_SECURITY_TOKEN);
        if |nodes| == 0 then Err(IOException(NO_TOKEN_MESSAGE))
        else Ok(nodes[0].textContent)
  }

  /**
   * For a response that parses, extractToken succeeds exactly when some
   * element is a token, and then yields the text of the earliest one; later
   * tokens are ignored.
   */
  lemma ExtractTokenFirstMatch(response: string, parse: string -> XmlDocument)
    requires parse(response).Document?
    ensures var es := parse(response).elements;
            var r := ExtractToken(Some(response), parse);
            && (r.Ok? <==> exists i :: 0 <= i < |es| && IsToken(es[i]))
            && (r.Err? ==> r == Err(IOException(NO_TOKEN_MESSAGE)))
            && (r.Ok? ==> exists k :: 0 <= k < |es| && IsToken(es[k]) && r.value == es[k].textContent
                                      && forall i :: 0 <= i < k ==> !IsToken(es[i]))
  {
    FirstElementByTagNameNS(parse(response).elements, WSSE_NAMESPACE, BINARY_SECURITY_TOKEN);
  }

  // ---------------------------------------------------------------------------
  // getAuthenticationCookie

  /** What an HTTP POST sends: the URL, the request properties (headers) and the body. */
  datatype PostRequest = PostRequest(url: string, requestProperties: map<string, string>, body: string)

  /** What it answers: the contents and the header fields. */
  datatype PostResponse = PostResponse(contents: string, headerFields: map<string, string>)

  /** getPostResponseHeaderField: the value of a header, or null when the response has none. */
  function HeaderField(response: PostResponse, name: string): (r: Option<string>)
    ensures r.Some? <==> name in response.headerFields
    ensures r.Some? ==> r.value == response.headerFields[name]
  {
    if name in response.headerFields then Some(response.headerFields[name]) else None
  }

  /**
   * What new URL(s) accepts: a scheme (section 3.1 of RFC 3986) followed
   * by ':'. Anything else is malformed.
   */
  predicate IsUrl(s: string)
    ensures IsUrl(s) <==>
              exists k :: 0 <= k < |s| && s[k] == ':' && (forall j :: 0 <= j < k ==> s[j] != ':')
                          && SharePointUrls.IsScheme(s[..k])
  {
    var k := SharePointUrls.IndexWhere(s, SharePointUrls.Colon);
    k < |s| && SharePointUrls.IsScheme(s[..k])
  }

  /** A string with a ':' is a URL exactly when the text before its first ':' is a scheme; one without is not. */
  lemma IsUrlIff(scheme: string, rest: string)
    requires ':' !in scheme
    ensures IsUrl(scheme + ":" + rest) <==> SharePointUrls.IsScheme(scheme)
  {
    var s := scheme + ":" + rest;
    SharePointUrls.IndexWhereAt(s, SharePointUrls.Colon, |scheme|);
    assert s[..|scheme|] == scheme;
  }

  lemma NoColonIsNotUrl(s: string)
    requires ':' !in s
    ensures !IsUrl(s)
  {
    SharePointUrls.IndexWhereAt(s, SharePointUrls.Colon, |s|);
  }

  /**
   * The request getAuthenticationCookie sends: the token, posted to the
   * login URL, with exactly one request property, SOAPAction, set to the STS
   * endpoint. A login URL that is null or malformed is an I/O error.
   */
  function AuthenticationRequest(s: HandshakeSettings, token: string): (r: Result<PostRequest>)
    ensures r.Ok? <==> s.login.Some? && IsUrl(s.login.value)
    ensures r.Err? ==> r.error.IOException?
    ensures r.Ok? ==> && r.value.url == s.login.value
                      && r.value.requestProperties.Keys == {SOAP_ACTION}
                      && r.value.requestProperties[SOAP_ACTION] == s.stsendpoint
                      && r.value.body == token
  {
    if s.login.None? then Err(IOException("no login URL"))
    else if !IsUrl(s.login.value) then Err(IOException("malformed login URL " + s.login.value))
    else Ok(PostRequest(s.login.value, map[SOAP_ACTION := s.stsendpoint], token))
  }

  /** The whole exchange: post the request with the manager's client, then read Set-Cookie, absent or not. */
  function CookieExchange(s: HandshakeSettings, token: string,
                          issuePostRequest: (HttpPostClient, PostRequest) -> Result<PostResponse>): (r: Result<Option<string>>)
    ensures AuthenticationRequest(s, token).Err? ==> r.Err? && r.error.IOException?
    ensures AuthenticationRequest(s, token).Ok? ==>
              var response := issuePostRequest(s.httpClient, AuthenticationRequest(s, token).value);
              && (response.Err? ==> r == Err(response.error))
              && (response.Ok? ==> r == Ok(HeaderField(response.value, SET_COOKIE)))
  {
    var request :- AuthenticationRequest(s, token);
    var response :- issuePostRequest(s.httpClient, request);
    Ok(HeaderField(response, SET_COOKIE))
  }

  /** The request properties of a POST: a HashMap filled in place. */
  class RequestProperties {
    var entries: map<string, string>

    constructor()
      ensures entries == map[]
    {
      entries := map[];
    }

    method Put(key: string, value: string)
      modifies this
      ensures entries == old(entries)[key := value]
    {
      entries := entries[key := value];
    }
  }

  /**
   * LiveAuthenticationHandshakeManager.getAuthenticationCookie. The transport
   * is a parameter; the method does what CookieExchange says.
   */
  method GetAuthenticationCookie(m: SamlHandshakeManager, token: string,
                                 issuePostRequest: (HttpPostClient, PostRequest) -> Result<PostResponse>)
    returns (r: Result<Option<string>>)
    requires m.LiveAuthenticationHandshakeManager?
    ensures r == CookieExchange(m.settings, token, issuePostRequest)
  {
    var s := m.settings;
    if s.login.None? {
      return Err(IOException("no login URL"));
    }
    var login := s.login.value;
    if !IsUrl(login) {
      return Err(IOException("malformed login URL " + login));
    }
    var requestProperties := new RequestProperties();
    requestProperties.Put(SOAP_ACTION, s.stsendpoint);
    var response := issuePostRequest(s.httpClient, PostRequest(login, requestProperties.entries, token));
    if response.Err? {
      return Err(response.error);
    }
    r := Ok(HeaderField(response.value, SET_COOKIE));
  }

  /** A response without Set-Cookie gives no cookie, and no error. */
  lemma MissingCookieIsNotAnError(s: HandshakeSettings, token: string,
                                  issuePostRequest: (HttpPostClient, PostRequest) -> Result<PostResponse>)
    requires AuthenticationRequest(s, token).Ok?
    requires var response := issuePostRequest(s.httpClient, AuthenticationRequest(s, token).value);
             response.Ok? && SET_COOKIE !in response.value.headerFields
    ensures CookieExchange(s, token, issuePostRequest) == Ok(None)
  {
  }

  /** A fresh Live manager posts to the site's login page, with Microsoft's STS as its SOAPAction. */
  lemma LiveDefaultRequest(sharePointUrl: string, username: string, password: string, token: string)
    requires IsUrl(sharePointUrl)
    ensures var s := HandshakeSettings(sharePointUrl, username, password, LIVE_STS, sharePointUrl,
                                       Some(sharePointUrl + LIVE_LOGIN_URL), Some(""), DefaultPostClient);
            AuthenticationRequest(s, token) == Ok(PostRequest(sharePointUrl + LIVE_LOGIN_URL, map[SOAP_ACTION := LIVE_STS], token))
  {
    var url := sharePointUrl + LIVE_LOGIN_URL;
    var k := SharePointUrls.IndexWhere(sharePointUrl, SharePointUrls.Colon);
    assert forall i :: 0 <= i <= k ==> url[i] == sharePointUrl[i];
    SharePointUrls.IndexWhereAt(url, SharePointUrls.Colon, k);
    assert url[..k] == sharePointUrl[..k];
  }
}
