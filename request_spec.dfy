/**
 * The request a YTKBaseRequest hands to the transport, chosen from its
 * subclass overrides: a custom URL request supersedes everything it covers,
 * and an absolute `requestUrl` supersedes `baseUrl`.
 */
module RequestSpec {
  import opened Common

  datatype RequestMethod = GET | POST | HEAD | PUT | DELETE | PATCH

  datatype RequestSerializerType = HTTPSerializer | JSONSerializer

  /** The default of `requestTimeoutInterval`, in whole seconds. */
  const DefaultTimeoutInterval: int := 60

  /** An `NSURLRequest` returned by `buildCustomUrlRequest`. */
  datatype UrlRequest = UrlRequest(url: string, timeoutInterval: int, httpMethod: RequestMethod,
                                   allowsCellularAccess: bool, body: Bytes)

  /** The values a request subclass returns from its override hooks. */
  datatype RequestConfig = RequestConfig(
    baseUrl: string,
    requestUrl: string,
    requestTimeoutInterval: int,
    requestArgument: Option<string>,
    allowsCellularAccess: bool,
    requestMethod: RequestMethod,
    requestSerializerType: RequestSerializerType,
    buildCustomUrlRequest: Option<UrlRequest>)

  /** The overrides a subclass that customises only its URL gets by default. */
  function DefaultConfig(baseUrl: string, requestUrl: string, httpMethod: RequestMethod,
                         serializer: RequestSerializerType): (c: RequestConfig)
    ensures c.requestTimeoutInterval == DefaultTimeoutInterval
    ensures c.allowsCellularAccess && c.requestArgument.None? && c.buildCustomUrlRequest.None?
    ensures c.baseUrl == baseUrl && c.requestUrl == requestUrl
    ensures c.requestMethod == httpMethod && c.requestSerializerType == serializer
  {
    RequestConfig(baseUrl, requestUrl, DefaultTimeoutInterval, None, true, httpMethod, serializer, None)
  }

  predicate IsLetter(ch: char) {
    ('a' <= ch <= 'z') || ('A' <= ch <= 'Z')
  }

  predicate IsSchemeChar(ch: char) {
    ('a' <= ch <= 'z') || ('A' <= ch <= 'Z') || ('0' <= ch <= '9') || ch == '+' || ch == '-' || ch == '.'
  }

  /**
   * `s` is a URL on its own: a scheme (a letter, then letters, digits, '+',
   * '-' or '.'), "://", and a non-empty host.
   * URL parsing itself belongs to Foundation; this is the shape it accepts.
   */
  predicate IsAbsoluteUrl(s: string): (r: bool)
    ensures r ==> |s| > 4 && IsLetter(s[0])
    ensures |s| > 0 && s[0] == '/' ==> !r
  {
    exists i | 0 < i < |s| :: SchemeEndsAt(s, i)
  }

  /** `s[..i]` is a non-empty scheme, followed by "://" and the first character of a host. */
  predicate SchemeEndsAt(s: string, i: int) {
    0 < i && i + 3 < |s| && s[i..i + 3] == "://" && s[i + 3] != '/' && IsLetter(s[0])
    && forall k :: 0 <= k < i ==> IsSchemeChar(s[k])
  }

  /** Where the URL of a built request comes from. */
  datatype Target = Absolute(url: string) | Relative(baseUrl: string, path: string)

  /** What the transport is asked to send. */
  datatype EffectiveRequest =
    | Custom(request: UrlRequest)
    | Built(target: Target, timeoutInterval: int, argument: Option<string>,
            allowsCellularAccess: bool, httpMethod: RequestMethod, serializer: RequestSerializerType)

  /** The request the overrides of `c` describe. */
  function Effective(c: RequestConfig): (r: EffectiveRequest)
    ensures r.Custom? <==> c.buildCustomUrlRequest.Some?
    ensures r.Custom? ==> r.request == c.buildCustomUrlRequest.value
    ensures r.Built? ==> (r.target.Absolute? <==> IsAbsoluteUrl(c.requestUrl))
    ensures r.Built? && r.target.Absolute? ==> r.target.url == c.requestUrl
    ensures r.Built? && r.target.Relative? ==> r.target == Relative(c.baseUrl, c.requestUrl)
    ensures r.Built? ==> r.timeoutInterval == c.requestTimeoutInterval && r.argument == c.requestArgument
                         && r.allowsCellularAccess == c.allowsCellularAccess
                         && r.httpMethod == c.requestMethod && r.serializer == c.requestSerializerType
  {
    match c.buildCustomUrlRequest
    case Some(custom) => Custom(custom)
    case None =>
      var target := if IsAbsoluteUrl(c.requestUrl) then Absolute(c.requestUrl)
                    else Relative(c.baseUrl, c.requestUrl);
      Built(target, c.requestTimeoutInterval, c.requestArgument, c.allowsCellularAccess,
            c.requestMethod, c.requestSerializerType)
  }

  /**
   * With a custom URL request, `requestUrl`, `requestTimeoutInterval`,
   * `requestArgument`, `allowsCellularAccess`, `requestMethod` and
   * `requestSerializerType` are all ignored.
   */
  lemma CustomRequestIgnoresOverrides(c: RequestConfig, url: string, timeout: int, argument: Option<string>,
                                      cellular: bool, httpMethod: RequestMethod, serializer: RequestSerializerType)
    requires c.buildCustomUrlRequest.Some?
    ensures Effective(c.(requestUrl := url, requestTimeoutInterval := timeout, requestArgument := argument,
                         allowsCellularAccess := cellular, requestMethod := httpMethod,
                         requestSerializerType := serializer)) == Effective(c)
  {
  }

  /** An absolute `requestUrl` is used as is, and `baseUrl` is ignored. */
  lemma AbsoluteUrlIgnoresBaseUrl(c: RequestConfig, otherBase: string)
    requires c.buildCustomUrlRequest.None? && IsAbsoluteUrl(c.requestUrl)
    ensures Effective(c) == Effective(c.(baseUrl := otherBase))
    ensures Effective(c).target == Absolute(c.requestUrl)
  {
  }

  /**
   * Otherwise `requestUrl` is a path to be resolved against `baseUrl`: the
   * request keeps both, and the resolution itself belongs to Foundation.
   */
  lemma RelativeUrlUsesBaseUrl(c: RequestConfig)
    requires c.buildCustomUrlRequest.None? && !IsAbsoluteUrl(c.requestUrl)
    ensures Effective(c).Built?
    ensures Effective(c).target == Relative(c.baseUrl, c.requestUrl)
  {
  }

  /** The documented examples: a host is absolute, a bare path is not. */
  lemma UrlShapes()
    ensures IsAbsoluteUrl("http://www.example.com")
    ensures !IsAbsoluteUrl("/v1/user")
  {
    var s := "http://www.example.com";
    assert s[4..7] == "://" && s[7] != '/';
    assert SchemeEndsAt(s, 4);
    var p := "/v1/user";
    assert !IsLetter(p[0]);
  }
}
