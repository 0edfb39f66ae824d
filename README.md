# SharePoint connector: authentication set-up, URLs, configuration, file information

A Dafny model of the part of the Google Cloud Search SharePoint connector
that decides how the connector authenticates against SharePoint and how it
reads its settings:

- **SharePoint URLs** (`sharepoint_url.dfy`). A configured URL is split
  into scheme, authority, path and query. A trailing `/` is dropped. The
  path is percent-escaped. With browser leniency the text after the first
  `?` is kept as a query; without it that `?` is escaped as `%3F`. The
  root URL is scheme plus authority. Equality and hashing follow the stored
  URL and the leniency flag.
- **Connector configuration** (`sharepoint_configuration.dfy`, on top of
  the key/value lookups of `configuration.dfy`). The required server URL,
  user name, password, user agent, the web-service timeouts (seconds in,
  milliseconds out, never negative), XML validation and the
  site-collection flag.
- **File information** (`file_info.dfy`). The contents of a downloaded
  file with its headers in arrival order. The first header with a given
  name wins. A builder rejects null contents and null headers.
- **Forms-authentication handler factory** (`authentication_factory.dfy`).
  It reads the forms-authentication mode (`NONE`, `FORMS`, `ADFS`,
  `LIVE`, matched exactly) and picks the handler:
  - none;
  - a SharePoint forms handler on `<virtual server>/_vti_bin/Authentication.asmx`;
  - a SAML handler over an ADFS handshake manager, which needs the STS
    endpoint and realm and takes optional login and trust-location overrides;
  - a SAML handler over a Live handshake manager rooted at the server's root URL.
- **Live handshake manager** (`handshake.dfy`). It has its defaults
  (Microsoft Online STS, `/_forms/default.aspx?wa=wsignin1.0` login, empty
  trust location). It forwards its settings into the ADFS builder. It pulls
  the first `BinarySecurityToken` of the WS-Security 1.0 namespace out of a
  token response. It posts the token with a `SOAPAction` header and returns
  the `Set-Cookie` header, which may be absent.

Two small shared modules hold what the others use: Java's null and its
exceptions as values (`failures.dfy`), and the `int` range and ASCII
decimal digits (`java_lang.dfy`).

The two builders whose fields the Java code updates in place (the ADFS and
Live handshake-manager builders) are classes. So is the request-property
map that the cookie exchange fills. Everything else is datatypes and
functions: the URL, file-information and configuration values are
immutable once built, and their tests use the builders of those values
only as one-shot setter chains, so each builder is a value whose setters
return an updated copy. The HTTP post, the XML
parser and the configuration store are parameters, so every operation is
stated over all their behaviours.

The URL, configuration and file-information classes themselves are not
part of this model. Their behaviour is reconstructed from the unit tests
that pin it down. Each test of SharePointUrlTest, FileInfoTest and
SharePointConfigurationTest becomes a general lemma over any strings,
plus an instance with the test's own values (the `...Example` lemmas,
`SomethingIsInvalid`, `MinusFiftyRejected` and `FiftyAndOneTwentySeconds`).
The uninitialised-configuration test is covered by the first `ensures` of
`SharePointConfigurations.FromConfiguration` and its instance
`NotInitializedExample`.
Those instances write each URL as the concatenation of its scheme, host,
path and query pieces; the value is the same.

Equality of SharePoint URLs includes the leniency flag:
SharePointUrlTest.java:101-103 has a strict URL differ from the default
one (`SharePointUrls.EqualIff`, `SharePointUrls.EqualsCase`).

## Model

| member | source | states |
|---|---|---|
| Configuration.GetRequiredString | src/main/java/com/google/enterprise/cloudsearch/sharepoint/AuthenticationClientFactoryImpl.java:85-86 | a required key gives its value exactly when present; otherwise an InvalidConfigurationException whose message names the key |
| Configuration.GetValue | src/main/java/com/google/enterprise/cloudsearch/sharepoint/AuthenticationClientFactoryImpl.java:112-117 | an absent key yields the default; a present key yields whatever the parser makes of its value, errors included |
| Configuration.GetString | src/main/java/com/google/enterprise/cloudsearch/sharepoint/AuthenticationClientFactoryImpl.java:87-88 | an absent key yields the default, a present key its value |
| Configuration.GetBoolean | src/test/java/com/google/enterprise/cloudsearch/sharepoint/SharePointConfigurationTest.java:62-72 | an absent key yields the default; a present value must read "true" or "false" in any case, and gives true exactly for "true" |
| Configuration.GetInteger | src/test/java/com/google/enterprise/cloudsearch/sharepoint/SharePointConfigurationTest.java:122-163 | an absent key yields the default; a present value is what the integer parser makes of it, always within 32 bits |
| Configuration.ParseBoolean | src/test/java/com/google/enterprise/cloudsearch/sharepoint/SharePointConfigurationTest.java:92-104 | accepts exactly "true" and "false" in any letter case, and yields true exactly for "true" |
| Configuration.ParseInt | src/test/java/com/google/enterprise/cloudsearch/sharepoint/SharePointConfigurationTest.java:122-140 | every parsed value lies in the 32-bit signed range |
| Configuration.ParseIntDecimalString | src/test/java/com/google/enterprise/cloudsearch/sharepoint/SharePointConfigurationTest.java:142-163 | parsing the decimal text of any 32-bit value gives that value back (round trip) |
| SharePointUrls.SplitUrl | src/test/java/com/google/enterprise/cloudsearch/sharepoint/SharePointUrlTest.java:62-66 | a successful split yields well-formed parts (scheme, authority without '/' or '?', path empty or starting with '/' or '?') that join back to the input |
| SharePointUrls.SplitJoin | src/test/java/com/google/enterprise/cloudsearch/sharepoint/SharePointUrlTest.java:36-43 | splitting the join of any well-formed parts recovers those parts (round trip) |
| SharePointUrls.EscapedPathChars | src/test/java/com/google/enterprise/cloudsearch/sharepoint/SharePointUrlTest.java:45-51 | every character of an escaped path is either one that needs no escaping or the '%' of an escape |
| SharePointUrls.EscapePath | src/test/java/com/google/enterprise/cloudsearch/sharepoint/SharePointUrlTest.java:45-60 | the escape of a path is empty exactly when the path is; its characters, its inverse and the identity on plain paths are stated by EscapedPathChars, UnescapeEscape and EscapePathPlain |
| SharePointUrls.UnescapeEscape | src/test/java/com/google/enterprise/cloudsearch/sharepoint/SharePointUrlTest.java:36-40 | decoding the escaped path gives the original path back, for every path, so also for the path of every built URL |
| SharePointUrls.EscapedPathHasNoSpaceOrQuery | src/test/java/com/google/enterprise/cloudsearch/sharepoint/SharePointUrlTest.java:53-60 | no space and no '?' survive escaping |
| SharePointUrls.Escape | src/test/java/com/google/enterprise/cloudsearch/sharepoint/SharePointUrlTest.java:62-66 | escaping succeeds exactly when the URL splits into scheme, authority and path; otherwise it throws IllegalArgumentException |
| SharePointUrls.NoSchemeFails | src/test/java/com/google/enterprise/cloudsearch/sharepoint/SharePointUrlTest.java:62-66 | a string without ':' is rejected by escape and by the builder, lenient or not |
| SharePointUrls.InvalidUrlExample | src/test/java/com/google/enterprise/cloudsearch/sharepoint/SharePointUrlTest.java:62-66 | escape("abc") throws IllegalArgumentException |
| SharePointUrls.StripTrailingSlash | src/test/java/com/google/enterprise/cloudsearch/sharepoint/SharePointUrlTest.java:77-86 | removes exactly one trailing '/' when present and leaves other strings alone |
| SharePointUrls.SplitQuery | src/test/java/com/google/enterprise/cloudsearch/sharepoint/SharePointUrlTest.java:36-43 | splits at the first '?': the base has no '?', and base + "?" + query is the input |
| SharePointUrls.Build | src/test/java/com/google/enterprise/cloudsearch/sharepoint/SharePointUrlTest.java:77-86 | a built URL stores the input minus its trailing slash, and the leniency asked for; a failure is a URISyntaxException |
| SharePointUrls.BuildDefault | src/test/java/com/google/enterprise/cloudsearch/sharepoint/SharePointUrlTest.java:88-93 | a builder without a leniency setting builds as the lenient one |
| SharePointUrls.SharePointUrl.Uri | src/test/java/com/google/enterprise/cloudsearch/sharepoint/SharePointUrlTest.java:36-43 | the URI always begins with the root URL; SharePointUrls.LenientUri and SharePointUrls.StrictUri give the rest |
| SharePointUrls.SharePointUrl.RootUrl | src/main/java/com/google/enterprise/cloudsearch/sharepoint/AuthenticationClientFactoryImpl.java:108 | the root URL is the scheme, then "://", then exactly the authority; RootUrlPrefix places it at the head of the stored URL and the URI |
| SharePointUrls.RootUrlPrefix | src/test/java/com/google/enterprise/cloudsearch/sharepoint/SharePointUrlTest.java:68-75 | the root URL of a built URL starts both its stored URL and its URI, and contains no '/' or '?' after the scheme |
| SharePointUrls.LenientUri | src/test/java/com/google/enterprise/cloudsearch/sharepoint/SharePointUrlTest.java:36-43 | a lenient URI is the escaped part before the first '?' followed by the unescaped query |
| SharePointUrls.StrictUri | src/test/java/com/google/enterprise/cloudsearch/sharepoint/SharePointUrlTest.java:53-60 | a strict URI is the escape of the whole URL and contains no '?' |
| SharePointUrls.UrlIsInput | src/test/java/com/google/enterprise/cloudsearch/sharepoint/SharePointUrlTest.java:41 | the stored URL is exactly scheme "://" authority path plus the query |
| SharePointUrls.RootUrlIgnoresLeniency | src/test/java/com/google/enterprise/cloudsearch/sharepoint/SharePointUrlTest.java:68-75 | a URL builds either way or neither way, and its root URL is the same for both leniencies |
| SharePointUrls.BuildIdempotent | src/test/java/com/google/enterprise/cloudsearch/sharepoint/SharePointUrlTest.java:77-86 | rebuilding from a built URL's stored string gives the same URL (except when the input ends in "//") |
| SharePointUrls.TrailingSlashIgnored | src/test/java/com/google/enterprise/cloudsearch/sharepoint/SharePointUrlTest.java:77-86 | appending '/' to a URL that does not end in '/' gives an equal URL |
| SharePointUrls.EqualIff | src/test/java/com/google/enterprise/cloudsearch/sharepoint/SharePointUrlTest.java:88-104 | two built URLs are equal exactly when their inputs agree up to the trailing slash and their leniency agrees |
| SharePointUrls.StringHashCode | src/test/java/com/google/enterprise/cloudsearch/sharepoint/SharePointUrlTest.java:94 | the string hash stays inside the 32-bit signed range |
| SharePointUrls.Wrap32 | src/test/java/com/google/enterprise/cloudsearch/sharepoint/SharePointUrlTest.java:94 | wraps an integer into the 32-bit signed range, congruent modulo 2^32 |
| SharePointUrls.HashCode | src/test/java/com/google/enterprise/cloudsearch/sharepoint/SharePointUrlTest.java:94-99 | the hash of a SharePoint URL, from its stored URL and leniency, stays inside the 32-bit range |
| SharePointUrls.HashIgnoresTrailingSlash | src/test/java/com/google/enterprise/cloudsearch/sharepoint/SharePointUrlTest.java:96-99 | URLs whose inputs differ only by the trailing slash hash alike |
| SharePointUrls.EscapePathConcat | src/test/java/com/google/enterprise/cloudsearch/sharepoint/SharePointUrlTest.java:36-40 | escaping distributes over concatenation |
| SharePointUrls.LenientSpaceAndQuery | src/test/java/com/google/enterprise/cloudsearch/sharepoint/SharePointUrlTest.java:36-43 | for any scheme, host, path with one space and query: lenient build keeps the input as its URL, escapes the space as %20, keeps "?query", and the root URL is scheme "://" host |
| SharePointUrls.SpaceWithoutQuery | src/test/java/com/google/enterprise/cloudsearch/sharepoint/SharePointUrlTest.java:45-51 | a path with one space and no query escapes to %20 under either leniency, the root URL is scheme "://" host, and a trailing '/' changes nothing |
| SharePointUrls.StrictSpaceAndQuery | src/test/java/com/google/enterprise/cloudsearch/sharepoint/SharePointUrlTest.java:53-60 | without leniency the space becomes %20 and the '?' becomes %3F, leaving no query |
| SharePointUrls.EqualsCase | src/test/java/com/google/enterprise/cloudsearch/sharepoint/SharePointUrlTest.java:88-104 | for any scheme "://" host: default and lenient builds are equal and hash alike, the trailing-slash form equals them, and the strict build differs |
| SharePointUrls.BrowserLeniencyExample | src/test/java/com/google/enterprise/cloudsearch/sharepoint/SharePointUrlTest.java:36-43 | the lenient case of "http://sp.com/shared documents?param=value" |
| SharePointUrls.NonBrowserLeniencyExample | src/test/java/com/google/enterprise/cloudsearch/sharepoint/SharePointUrlTest.java:45-51 | the strict case of "http://sp.com/shared documents" |
| SharePointUrls.NonBrowserLeniencyQueryExample | src/test/java/com/google/enterprise/cloudsearch/sharepoint/SharePointUrlTest.java:53-60 | the strict case with the query escaped as %3F |
| SharePointUrls.NoParamExample | src/test/java/com/google/enterprise/cloudsearch/sharepoint/SharePointUrlTest.java:68-75 | "https://sp.google.com/shared documents/folder" escapes the space and has root "https://sp.google.com" |
| SharePointUrls.TrailingSlashExample | src/test/java/com/google/enterprise/cloudsearch/sharepoint/SharePointUrlTest.java:77-86 | "https://sp.google.com/shared documents/folder/" loses its slash, escapes the space and has root "https://sp.google.com" |
| SharePointUrls.EqualsExample | src/test/java/com/google/enterprise/cloudsearch/sharepoint/SharePointUrlTest.java:88-104 | "http://abc.com" is equal to its trailing-slash form and differs from its strict build |
| FileInfos.FirstHeaderWithNameIsEarliest | src/test/java/com/google/enterprise/cloudsearch/sharepoint/FileInfoTest.java:60-76 | the lookup fails exactly when no header has the name; otherwise it yields the value at the earliest index with that name |
| FileInfos.FirstHeaderWithName | src/test/java/com/google/enterprise/cloudsearch/sharepoint/FileInfoTest.java:60-76 | the lookup is absent exactly when no header has the name, and a found value belongs to a header with that name |
| FileInfos.FirstHeaderAt | src/test/java/com/google/enterprise/cloudsearch/sharepoint/FileInfoTest.java:60-76 | conversely, when k is the earliest index with the name, the lookup yields the value at k |
| FileInfos.FileInfo.GetFirstHeaderWithName | src/test/java/com/google/enterprise/cloudsearch/sharepoint/FileInfoTest.java:60-76 | null exactly when no header has the name; otherwise the value of the earliest header with that name |
| FileInfos.NewBuilder | src/test/java/com/google/enterprise/cloudsearch/sharepoint/FileInfoTest.java:36-41 | a new builder holds the given contents and an empty header list |
| FileInfos.Builder.SetHeaders | src/test/java/com/google/enterprise/cloudsearch/sharepoint/FileInfoTest.java:36-41 | replaces the headers and keeps the contents |
| FileInfos.FileInfo.GetContents | src/test/java/com/google/enterprise/cloudsearch/sharepoint/FileInfoTest.java:36-46 | the contents given back, with the headers, build this same file information again |
| FileInfos.FileInfo.GetHeaders | src/test/java/com/google/enterprise/cloudsearch/sharepoint/FileInfoTest.java:36-46 | the headers given back, order and duplicates included, with the contents build this same file information again |
| FileInfos.Builder.Build | src/test/java/com/google/enterprise/cloudsearch/sharepoint/FileInfoTest.java:48-58 | succeeds exactly when contents and headers are both non-null, returning them unchanged; otherwise a NullPointerException |
| FileInfos.SingleHeaderCase | src/test/java/com/google/enterprise/cloudsearch/sharepoint/FileInfoTest.java:36-46 | a single header is found by its name and the contents come back as given |
| FileInfos.NullCases | src/test/java/com/google/enterprise/cloudsearch/sharepoint/FileInfoTest.java:48-58 | null contents and null headers both fail with a NullPointerException |
| FileInfos.DuplicateHeadersCase | src/test/java/com/google/enterprise/cloudsearch/sharepoint/FileInfoTest.java:60-76 | with duplicate names the earlier header wins, a header between them is found, an unknown name gives null, and the headers come back unchanged |
| FileInfos.BuilderExample | src/test/java/com/google/enterprise/cloudsearch/sharepoint/FileInfoTest.java:36-46 | "golden" with the header some-header: some-value finds "some-value" and returns the contents |
| FileInfos.NullExamples | src/test/java/com/google/enterprise/cloudsearch/sharepoint/FileInfoTest.java:48-58 | null contents and null headers with "golden" fail with a NullPointerException |
| FileInfos.DuplicateHeadersExample | src/test/java/com/google/enterprise/cloudsearch/sharepoint/FileInfoTest.java:60-76 | the test's three headers give "some-value", "different-other-value", null for "unknown-header", and the list unchanged |
| SharePointConfigurations.NewBuilder | src/test/java/com/google/enterprise/cloudsearch/sharepoint/SharePointConfigurationTest.java:74-90 | a new builder starts with empty strings, 30 s socket and 180 s read timeouts, no XML validation and no site-collection flag |
| SharePointConfigurations.Builder.SetUserName | src/test/java/com/google/enterprise/cloudsearch/sharepoint/SharePointConfigurationTest.java:78-86 | replaces the user name and nothing else |
| SharePointConfigurations.Builder.SetPassword | src/test/java/com/google/enterprise/cloudsearch/sharepoint/SharePointConfigurationTest.java:78-86 | replaces the password and nothing else |
| SharePointConfigurations.Builder.SetUserAgent | src/test/java/com/google/enterprise/cloudsearch/sharepoint/SharePointConfigurationTest.java:142-157 | replaces the user agent and nothing else |
| SharePointConfigurations.Builder.SetSocketTimeoutSecs | src/test/java/com/google/enterprise/cloudsearch/sharepoint/SharePointConfigurationTest.java:122-130 | replaces the socket timeout and nothing else |
| SharePointConfigurations.Builder.SetReadTimeoutSecs | src/test/java/com/google/enterprise/cloudsearch/sharepoint/SharePointConfigurationTest.java:132-140 | replaces the read timeout and nothing else |
| SharePointConfigurations.Builder.SetPerformXmlValidation | src/test/java/com/google/enterprise/cloudsearch/sharepoint/SharePointConfigurationTest.java:62-67 | replaces the XML-validation flag and nothing else |
| SharePointConfigurations.Builder.SetSiteCollectionOnly | src/test/java/com/google/enterprise/cloudsearch/sharepoint/SharePointConfigurationTest.java:92-104 | replaces the site-collection flag and nothing else |
| SharePointConfigurations.Builder.Build | src/test/java/com/google/enterprise/cloudsearch/sharepoint/SharePointConfigurationTest.java:122-163 | builds exactly when both timeouts are non-negative (else InvalidConfigurationException "Invalid SharePoint Configuration"); copies the fields, makes milliseconds from seconds, and decides site collection by the flag if set, else by whether the URL has a path |
| SharePointConfigurations.ServerUrl | src/test/java/com/google/enterprise/cloudsearch/sharepoint/SharePointConfigurationTest.java:52-60 | the server URL builds exactly when the URL builder succeeds; otherwise the message starts "Invalid SharePoint URL " followed by the value |
| SharePointConfigurations.ReadSettings | src/test/java/com/google/enterprise/cloudsearch/sharepoint/SharePointConfigurationTest.java:142-163 | the optional settings are read with their defaults; reading succeeds exactly when every present value parses |
| SharePointConfigurations.ReadBuilder | src/test/java/com/google/enterprise/cloudsearch/sharepoint/SharePointConfigurationTest.java:44-60 | a missing server fails naming sharepoint.server; on success the URL is the server value built with the configured leniency |
| SharePointConfigurations.FromProperties | src/test/java/com/google/enterprise/cloudsearch/sharepoint/SharePointConfigurationTest.java:62-90 | a missing server fails naming sharepoint.server; once the settings read, the result is what the builder builds from them |
| SharePointConfigurations.FromConfiguration | src/test/java/com/google/enterprise/cloudsearch/sharepoint/SharePointConfigurationTest.java:38-42 | an uninitialised configuration gives IllegalStateException; otherwise the result is what the properties determine |
| SharePointConfigurations.MissingServer | src/test/java/com/google/enterprise/cloudsearch/sharepoint/SharePointConfigurationTest.java:44-50 | without sharepoint.server the error is an InvalidConfigurationException mentioning "sharepoint.server" |
| SharePointConfigurations.NotInitializedExample | src/test/java/com/google/enterprise/cloudsearch/sharepoint/SharePointConfigurationTest.java:38-42 | with no configuration at all, fromConfiguration fails with an IllegalStateException |
| SharePointConfigurations.EmptyPropertiesExample | src/test/java/com/google/enterprise/cloudsearch/sharepoint/SharePointConfigurationTest.java:44-50 | an empty Properties fails with an InvalidConfigurationException whose message names "sharepoint.server" |
| SharePointConfigurations.InvalidServer | src/test/java/com/google/enterprise/cloudsearch/sharepoint/SharePointConfigurationTest.java:52-60 | an unparsable server gives an InvalidConfigurationException mentioning "Invalid SharePoint URL" |
| SharePointConfigurations.SomethingIsInvalid | src/test/java/com/google/enterprise/cloudsearch/sharepoint/SharePointConfigurationTest.java:52-60 | the server value "something" is rejected that way |
| SharePointConfigurations.LeniencyOfUrl | src/test/java/com/google/enterprise/cloudsearch/sharepoint/SharePointConfigurationTest.java:62-72 | the configuration's leniency is the configured flag (default true), and its URL is the server built with that flag |
| SharePointConfigurations.SharePointConfiguration.IsPerformBrowserLeniency | src/test/java/com/google/enterprise/cloudsearch/sharepoint/SharePointConfigurationTest.java:62-72 | the leniency reported is the one the server URL was built with; LeniencyOfUrl ties it to the configured flag |
| SharePointConfigurations.DefaultsMatchBuilder | src/test/java/com/google/enterprise/cloudsearch/sharepoint/SharePointConfigurationTest.java:62-90 | server, user and password alone equal the default builder with user and password set: lenient, no XML validation, empty agent, 30000/180000 ms, site collection exactly when the URL has a path |
| SharePointConfigurations.BareHostIsNotSiteCollection | src/test/java/com/google/enterprise/cloudsearch/sharepoint/SharePointConfigurationTest.java:62-72 | a bare scheme "://" host server is not a site collection |
| SharePointConfigurations.PathIsSiteCollection | src/test/java/com/google/enterprise/cloudsearch/sharepoint/SharePointConfigurationTest.java:106-120 | a server with a path is a site collection |
| SharePointConfigurations.HasPath | src/test/java/com/google/enterprise/cloudsearch/sharepoint/SharePointConfigurationTest.java:106-120 | a URL has no path exactly when its URI is the root URL followed only by its query; the assumed site-collection rule |
| SharePointConfigurations.FlagIsSiteCollection | src/test/java/com/google/enterprise/cloudsearch/sharepoint/SharePointConfigurationTest.java:92-104 | sharepoint.siteCollectionOnly=true makes the configuration a site collection |
| SharePointConfigurations.FlagDecides | src/test/java/com/google/enterprise/cloudsearch/sharepoint/SharePointConfigurationTest.java:92-104 | a present flag parses as a boolean and decides site collection on its own |
| SharePointConfigurations.FlagOnBareHost | src/test/java/com/google/enterprise/cloudsearch/sharepoint/SharePointConfigurationTest.java:92-104 | with siteCollectionOnly=true a bare scheme "://" host server is a site collection, lenient, without XML validation |
| SharePointConfigurations.FlagBuilder | src/test/java/com/google/enterprise/cloudsearch/sharepoint/SharePointConfigurationTest.java:92-97 | the base properties plus the flag read into the default builder with the flag set |
| SharePointConfigurations.OneTimeoutBuilder | src/test/java/com/google/enterprise/cloudsearch/sharepoint/SharePointConfigurationTest.java:122-140 | the base properties with one timeout text read into the default builder with that timeout |
| SharePointConfigurations.NonDefaultBuilder | src/test/java/com/google/enterprise/cloudsearch/sharepoint/SharePointConfigurationTest.java:142-151 | the base properties with agent and both timeouts read into a builder with those values |
| SharePointConfigurations.NegativeTimeoutRejected | src/test/java/com/google/enterprise/cloudsearch/sharepoint/SharePointConfigurationTest.java:122-140 | a negative socket or read timeout fails with exactly "Invalid SharePoint Configuration" |
| SharePointConfigurations.MinusFiftyRejected | src/test/java/com/google/enterprise/cloudsearch/sharepoint/SharePointConfigurationTest.java:122-140 | the value "-50" for either timeout is rejected that way |
| SharePointConfigurations.TimeoutsNonNegative | src/test/java/com/google/enterprise/cloudsearch/sharepoint/SharePointConfigurationTest.java:122-163 | every accepted configuration has non-negative millisecond timeouts |
| SharePointConfigurations.ParsedTimeoutInMillis | src/test/java/com/google/enterprise/cloudsearch/sharepoint/SharePointConfigurationTest.java:142-163 | the timeouts in milliseconds are 1000 times the parsed seconds |
| SharePointConfigurations.TimeoutInMillis | src/test/java/com/google/enterprise/cloudsearch/sharepoint/SharePointConfigurationTest.java:142-163 | the decimal text of n seconds gives n * 1000 milliseconds |
| SharePointConfigurations.FiftyAndOneTwentySeconds | src/test/java/com/google/enterprise/cloudsearch/sharepoint/SharePointConfigurationTest.java:142-163 | "50" and "120" seconds give 50000 and 120000 milliseconds |
| SharePointConfigurations.DefaultsExample | src/test/java/com/google/enterprise/cloudsearch/sharepoint/SharePointConfigurationTest.java:62-90 | http://localhost, username, password: lenient, no XML validation, not a site collection, equal to the default builder with user and password |
| SharePointConfigurations.SiteCollectionOnlyExample | src/test/java/com/google/enterprise/cloudsearch/sharepoint/SharePointConfigurationTest.java:92-104 | the same with siteCollectionOnly=true is a site collection |
| SharePointConfigurations.SiteCollectionByUrlExample | src/test/java/com/google/enterprise/cloudsearch/sharepoint/SharePointConfigurationTest.java:106-120 | http://localhost/sites/collection is a site collection |
| SharePointConfigurations.NegativeTimeoutExamples | src/test/java/com/google/enterprise/cloudsearch/sharepoint/SharePointConfigurationTest.java:122-140 | "-50" for either timeout gives exactly "Invalid SharePoint Configuration" |
| SharePointConfigurations.NonDefaultsExample | src/test/java/com/google/enterprise/cloudsearch/sharepoint/SharePointConfigurationTest.java:142-163 | agent "agent", "50" and "120" give that agent, 50000 and 120000 milliseconds |
| Handshakes.AdfsBuilder.constructor | src/main/java/com/google/enterprise/cloudsearch/sharepoint/AuthenticationClientFactoryImpl.java:89-90 | the ADFS builder holds URL, user, password, STS endpoint and realm, with no login or trust-location override and the default client |
| Handshakes.AdfsBuilder.SetLoginUrl | src/main/java/com/google/enterprise/cloudsearch/sharepoint/AuthenticationClientFactoryImpl.java:91-94 | sets the login override and nothing else |
| Handshakes.AdfsBuilder.SetTrustLocation | src/main/java/com/google/enterprise/cloudsearch/sharepoint/AuthenticationClientFactoryImpl.java:95-98 | sets the trust-location override and nothing else |
| Handshakes.AdfsBuilder.SetHttpClient | src/main/java/com/google/enterprise/cloudsearch/sharepoint/LiveAuthenticationHandshakeManager.java:98 | sets the client and nothing else |
| Handshakes.AdfsBuilder.Build | src/main/java/com/google/enterprise/cloudsearch/sharepoint/AuthenticationClientFactoryImpl.java:99 | builds an ADFS manager with the builder's current settings |
| Handshakes.LiveBuilder.constructor | src/main/java/com/google/enterprise/cloudsearch/sharepoint/LiveAuthenticationHandshakeManager.java:59-67 | login defaults to URL + "/_forms/default.aspx?wa=wsignin1.0", trust location to "", STS to the Microsoft Online endpoint, client to the default |
| Handshakes.LiveBuilder.SetLoginUrl | src/main/java/com/google/enterprise/cloudsearch/sharepoint/LiveAuthenticationHandshakeManager.java:69-72 | sets the login and nothing else |
| Handshakes.LiveBuilder.SetStsendpoint | src/main/java/com/google/enterprise/cloudsearch/sharepoint/LiveAuthenticationHandshakeManager.java:74-77 | sets the STS endpoint and nothing else |
| Handshakes.LiveBuilder.SetHttpClient | src/main/java/com/google/enterprise/cloudsearch/sharepoint/LiveAuthenticationHandshakeManager.java:79-83 | sets the client and nothing else |
| Handshakes.LiveBuilder.Build | src/main/java/com/google/enterprise/cloudsearch/sharepoint/LiveAuthenticationHandshakeManager.java:85-101 | the Live manager carries the builder's URL as realm too, and forwards client, login and trust location |
| Handshakes.NewLiveManager | src/main/java/com/google/enterprise/cloudsearch/sharepoint/AuthenticationClientFactoryImpl.java:139 | a default Live manager for a URL has exactly the documented default settings |
| Handshakes.ElementsByTagNameNSExact | src/main/java/com/google/enterprise/cloudsearch/sharepoint/LiveAuthenticationHandshakeManager.java:115-118 | the lookup returns exactly the elements carrying the namespace and local name |
| Handshakes.ElementsByTagNameNS | src/main/java/com/google/enterprise/cloudsearch/sharepoint/LiveAuthenticationHandshakeManager.java:115-118 | the lookup returns no more elements than the document has, each with the namespace and local name |
| Handshakes.FirstElementByTagNameNS | src/main/java/com/google/enterprise/cloudsearch/sharepoint/LiveAuthenticationHandshakeManager.java:115-127 | the lookup is empty exactly when no element matches; otherwise its first item is the earliest match |
| Handshakes.ExtractToken | src/main/java/com/google/enterprise/cloudsearch/sharepoint/LiveAuthenticationHandshakeManager.java:105-135 | a null response fails with "tokenResponse is null"; a parse failure fails; every failure is an IOException |
| Handshakes.ExtractTokenFirstMatch | src/main/java/com/google/enterprise/cloudsearch/sharepoint/LiveAuthenticationHandshakeManager.java:115-127 | for a parsed response the token exists exactly when some element is a security token; it is the text of the earliest one, and otherwise the error is "token not available" |
| Handshakes.AuthenticationRequest | src/main/java/com/google/enterprise/cloudsearch/sharepoint/LiveAuthenticationHandshakeManager.java:138-143 | the request goes to the login URL with exactly one property, SOAPAction = STS endpoint, and the token as body; a missing or malformed login is an IOException |
| Handshakes.HeaderField | src/main/java/com/google/enterprise/cloudsearch/sharepoint/LiveAuthenticationHandshakeManager.java:144 | a header value is present exactly when the response has it, and is that value |
| Handshakes.IsUrlIff | src/main/java/com/google/enterprise/cloudsearch/sharepoint/LiveAuthenticationHandshakeManager.java:139 | text with a ':' is a URL exactly when what precedes the first ':' is a scheme |
| Handshakes.IsUrl | src/main/java/com/google/enterprise/cloudsearch/sharepoint/LiveAuthenticationHandshakeManager.java:139 | text is a URL exactly when it has a ':' and the text before the first one is a scheme |
| Handshakes.NoColonIsNotUrl | src/main/java/com/google/enterprise/cloudsearch/sharepoint/LiveAuthenticationHandshakeManager.java:139 | text without a ':' is not a URL |
| Handshakes.CookieExchange | src/main/java/com/google/enterprise/cloudsearch/sharepoint/LiveAuthenticationHandshakeManager.java:138-145 | the result is the Set-Cookie header of the response to that request; request and transport errors propagate |
| Handshakes.RequestProperties.Put | src/main/java/com/google/enterprise/cloudsearch/sharepoint/LiveAuthenticationHandshakeManager.java:140-141 | adds or replaces one entry |
| Handshakes.GetAuthenticationCookie | src/main/java/com/google/enterprise/cloudsearch/sharepoint/LiveAuthenticationHandshakeManager.java:138-145 | the method fills the property map in place and returns what CookieExchange specifies |
| Handshakes.MissingCookieIsNotAnError | src/main/java/com/google/enterprise/cloudsearch/sharepoint/LiveAuthenticationHandshakeManager.java:144 | a response without Set-Cookie gives a null cookie, not an error |
| Handshakes.LiveDefaultRequest | src/main/java/com/google/enterprise/cloudsearch/sharepoint/LiveAuthenticationHandshakeManager.java:59-67 | a default Live manager posts to URL + login path with SOAPAction set to the Microsoft Online STS |
| AuthenticationClientFactory.ParseMode | src/main/java/com/google/enterprise/cloudsearch/sharepoint/AuthenticationClientFactoryImpl.java:48-62 | accepts exactly NONE, FORMS, ADFS and LIVE, naming the mode parsed; otherwise "Invalid FormsAuthenticationMode " plus the value |
| AuthenticationClientFactory.ParseModeName | src/main/java/com/google/enterprise/cloudsearch/sharepoint/AuthenticationClientFactoryImpl.java:48-62 | every mode's name parses back to that mode (round trip) |
| AuthenticationClientFactory.ParseModeIsCaseSensitive | src/main/java/com/google/enterprise/cloudsearch/sharepoint/AuthenticationClientFactoryImpl.java:48-55 | a mode name in lower case is rejected |
| AuthenticationClientFactory.AuthenticationEndpoint | src/main/java/com/google/enterprise/cloudsearch/sharepoint/AuthenticationClientFactoryImpl.java:76-77 | the endpoint is the virtual server followed by "/_vti_bin/Authentication.asmx" |
| AuthenticationClientFactory.Override | src/main/java/com/google/enterprise/cloudsearch/sharepoint/AuthenticationClientFactoryImpl.java:87-98 | an override is present exactly when its key is set to a non-empty value |
| AuthenticationClientFactory.AdfsManagerFor | src/main/java/com/google/enterprise/cloudsearch/sharepoint/AuthenticationClientFactoryImpl.java:83-100 | succeeds exactly when STS endpoint and realm are configured (else an error naming the first missing key); the manager has those values and the non-empty login and trust-location overrides |
| AuthenticationClientFactory.GetAdfsHandshakeManager | src/main/java/com/google/enterprise/cloudsearch/sharepoint/AuthenticationClientFactoryImpl.java:83-100 | the builder-mutating method yields what AdfsManagerFor specifies |
| AuthenticationClientFactory.ConfiguredUrl | src/main/java/com/google/enterprise/cloudsearch/sharepoint/AuthenticationClientFactoryImpl.java:105-111 | the virtual server builds as a default SharePoint URL, or its URISyntaxException becomes "failed to parse SharePoint URL." |
| AuthenticationClientFactory.HandlerFor | src/main/java/com/google/enterprise/cloudsearch/sharepoint/AuthenticationClientFactoryImpl.java:103-144 | every failure is an InvalidConfigurationException; a handler needs a buildable virtual server and a valid mode, and there is none exactly for NONE |
| AuthenticationClientFactory.LiveManagerFor | src/main/java/com/google/enterprise/cloudsearch/sharepoint/AuthenticationClientFactoryImpl.java:139 | a Live manager for a URL uses it as SharePoint URL and realm, logs in at URL + the Live login path, and uses the Microsoft Online STS |
| AuthenticationClientFactory.GetFormsAuthenticationHandler | src/main/java/com/google/enterprise/cloudsearch/sharepoint/AuthenticationClientFactoryImpl.java:103-144 | the method yields the handler the dispatch specifies |
| AuthenticationClientFactory.UrlCheckedFirst | src/main/java/com/google/enterprise/cloudsearch/sharepoint/AuthenticationClientFactoryImpl.java:105-111 | an unparsable virtual server fails before the mode is read |
| AuthenticationClientFactory.NoneGivesNoHandler | src/main/java/com/google/enterprise/cloudsearch/sharepoint/AuthenticationClientFactoryImpl.java:112-122 | an absent mode or NONE gives no handler |
| AuthenticationClientFactory.InvalidModeRejected | src/main/java/com/google/enterprise/cloudsearch/sharepoint/AuthenticationClientFactoryImpl.java:112-117 | an unknown mode fails with "Invalid FormsAuthenticationMode " plus the value |
| AuthenticationClientFactory.FormsUsesVirtualServer | src/main/java/com/google/enterprise/cloudsearch/sharepoint/AuthenticationClientFactoryImpl.java:123-126 | FORMS gives a forms handler on the virtual server's authentication endpoint |
| AuthenticationClientFactory.AdfsUsesVirtualServer | src/main/java/com/google/enterprise/cloudsearch/sharepoint/AuthenticationClientFactoryImpl.java:127-133 | ADFS gives a SAML handler over an ADFS manager on the virtual server, with overrides exactly for non-empty settings |
| AuthenticationClientFactory.AdfsNeedsSts | src/main/java/com/google/enterprise/cloudsearch/sharepoint/AuthenticationClientFactoryImpl.java:85-86 | ADFS without STS endpoint or realm fails with InvalidConfigurationException |
| AuthenticationClientFactory.LiveUsesRootUrl | src/main/java/com/google/enterprise/cloudsearch/sharepoint/AuthenticationClientFactoryImpl.java:134-140 | LIVE gives a SAML handler over a default Live manager for the root URL |
| AuthenticationClientFactory.LiveManagerOfRoot | src/main/java/com/google/enterprise/cloudsearch/sharepoint/AuthenticationClientFactoryImpl.java:107-108 | that Live manager's URL and realm are scheme "://" authority, its login is that plus the Live login path |

## Left out

- AsyncCacheLoader.java: cache loading on an executor is concurrency; it is not modelled.
- HttpClient.java and the HTTP transport: the post is a parameter, so every response, error included, is covered.
- XML parsing of the token response: the parser is a parameter that yields either a failure or the document's elements in document order.
- Building the SOAP port: the forms handler is reduced to the endpoint string. The WSDL service is not modelled, nor the ASCII re-encoding of the endpoint and its failure on malformed input.
- AuthenticationClientFactory.HandlerFor and AuthenticationClientFactory.GetFormsAuthenticationHandler: every failure they state is an InvalidConfigurationException only because that re-encoding is left out; URI.create at AuthenticationClientFactoryImpl.java:73 throws IllegalArgumentException for a FORMS virtual server containing a space.
- The executor passed to the handlers, and the internals of the SharePoint forms and SAML handlers: these are outside the core.
- Logging: no effect on results.
- AdfsHandshakeManager.java is not part of this model. Its default login and trust location appear as an absent override, and its own cookie exchange is not modelled.
- Handshakes.IsUrl: accepts any scheme followed by ':'. java.net.URL also rejects a protocol it has no handler for, trims surrounding whitespace, accepts a "url:" prefix, and rejects a port that is not a number ("http://host:abc/x"), which the model accepts.
- Handshakes.HeaderField: `headerFields` stands for the answers of the response's header lookup, keyed by the name asked for. An exact map key is used, so a response whose header is keyed "set-cookie" gives no cookie in the model, whereas HTTP field names are case-insensitive (section 5.1 of RFC 9110).
- The configuration store of the connector SDK is a string map; "not initialised" is an absent map.
- Configuration.ParseBoolean: accepts exactly "true" and "false" in any case, which is an assumed rule for the SDK's boolean parser. The case folding is ASCII only; Java's equalsIgnoreCase also accepts "falſe" (U+017F).
- Configuration.MissingKeyMessage: the text "Missing configuration value for key " is an assumed SDK message; AuthenticationClientFactory.AdfsManagerFor and SharePointConfigurations.ReadBuilder state it.
- Configuration.ParseInt: ASCII digits only, while Java also accepts other Unicode digits.
- SharePointUrl.java is not part of this model. From its tests the model assumes the following:
  - which characters the path escapes;
  - that non-ASCII characters are kept;
  - the hash formula, taken over Unicode scalar values where Java's String.hashCode runs over UTF-16 code units (the two differ for characters above U+FFFF);
  - that a strict URL treats '?' as path text;
  - that all of this rests on a scheme / authority / path split close to section 3 of RFC 3986, except that a '#' does not end the authority and fragments are not recognised ("http://host#frag" has the authority "host#frag" and that whole text as root URL).
- SharePointUrls.Build: toURL is not modelled. That a failed build throws URISyntaxException is inferred from the catch at AuthenticationClientFactoryImpl.java:109; SharePointConfigurations.ServerUrl and AuthenticationClientFactory.ConfiguredUrl wrap any build failure.
- SharePointConfiguration.java is not part of this model. From its tests the model assumes the following:
  - the key names for browser leniency and XML validation;
  - the 30 s and 180 s default timeouts;
  - the empty-string defaults of the user name, password and user agent;
  - the order in which keys are read;
  - that the site-collection flag, when set, overrides the path rule.
- SharePointConfigurations.Builder.Build: the reference identity sources and toString are not modelled. The millisecond timeouts are unbounded integers rather than Java longs.
- FileInfo.java is not part of this model. The contents stream is the byte sequence it yields, and closing it is not modelled.
- FileInfos.FirstHeaderWithName: header names match exactly, case included. The tests look every name up in the case it was stored in, so they do not decide this; an `equalsIgnoreCase` lookup (HTTP field names are case-insensitive, section 5.1 of RFC 9110) would give a different answer for "Some-Header" against a stored "some-header".
- AuthenticationClientFactoryImpl.getFormsAuthenticationHandler: the default branch of the switch cannot be reached with four modes, so it is not modelled.
