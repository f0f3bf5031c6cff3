/** The video-generation client (`VideoGenerationService.cs`): reading the
    endpoint and key out of the connection string, choosing between an API
    key and a bearer token, the three request URLs, and turning an HTTP
    answer into a result or an exception. The transport, the JSON decoding
    and the Azure credential come in as parameters. */
module VideoService {
  import opened Wrappers
  import opened Text
  import opened Cancellation
  import opened VideoModels

  /** The three values the constructor keeps: `_baseUrl`, `_apiKey`, `_useApiKey`. */
  datatype ServiceConfig = ServiceConfig(baseUrl: string, apiKey: Option<string>, useApiKey: bool)

  const EndpointName: string := "Endpoint"
  const KeyName: string := "Key"

  /** The segments of a connection string: `Split(';',
      StringSplitOptions.RemoveEmptyEntries)`. */
  function Segments(cs: string): (parts: seq<string>)
    ensures forall i :: 0 <= i < |parts| ==> parts[i] != "" && ';' !in parts[i]
  {
    NonEmpty(Split(cs, ';'))
  }

  function NonEmpty(pieces: seq<string>): (r: seq<string>)
    requires forall i :: 0 <= i < |pieces| ==> ';' !in pieces[i]
    ensures forall i :: 0 <= i < |r| ==> r[i] != "" && ';' !in r[i]
  {
    if pieces == [] then []
    else if pieces[0] == "" then NonEmpty(pieces[1..])
    else [pieces[0]] + NonEmpty(pieces[1..])
  }

  /** Dropping empty pieces keeps a list that has none. */
  lemma {:induction false} NonEmptyKeeps(pieces: seq<string>)
    requires forall i :: 0 <= i < |pieces| ==> pieces[i] != "" && ';' !in pieces[i]
    ensures NonEmpty(pieces) == pieces
  {
    if pieces != [] {
      NonEmptyKeeps(pieces[1..]);
    }
  }

  /** Non-empty segments without ';' joined by ';' are read back as they were. */
  lemma SegmentsOfJoin(parts: seq<string>)
    requires |parts| >= 1
    requires forall i :: 0 <= i < |parts| ==> parts[i] != "" && ';' !in parts[i]
    ensures Segments(Join(parts, ';')) == parts
  {
    SplitJoin(parts, ';');
    NonEmptyKeeps(parts);
  }

  /** One segment split at its first '=' (`part.Split('=', 2)`), both halves
      trimmed; `None` for a segment without '=', which is ignored. */
  function Setting(part: string): (r: Option<(string, string)>)
    ensures r.None? <==> '=' !in part
  {
    match SplitFirst(part, '=')
    case None => None
    case Some(pair) => Some((Trim(pair.0), Trim(pair.1)))
  }

  /** Only the first '=' separates: the value keeps any later '='. */
  lemma SettingValueKeepsEquals(name: string, value: string)
    requires '=' !in name
    ensures Setting(name + "=" + value) == Some((Trim(name), Trim(value)))
  {
    SplitFirstAt(name, value, '=');
  }

  /** Each segment's setting, in order. */
  function Settings(parts: seq<string>): (r: seq<Option<(string, string)>>)
    ensures |r| == |parts| && forall i :: 0 <= i < |parts| ==> r[i] == Setting(parts[i])
  {
    seq(|parts|, i requires 0 <= i < |parts| => Setting(parts[i]))
  }

  /** The setting is for the parameter `name` (matched case-insensitively). */
  predicate Names(setting: Option<(string, string)>, name: string) {
    setting.Some? && EqualsIgnoreCase(setting.value.0, name)
  }

  /** The value of the last setting for `name`, if any. */
  function LastValue(settings: seq<Option<(string, string)>>, name: string): Option<string> {
    if settings == [] then None
    else if Names(settings[|settings| - 1], name) then Some(settings[|settings| - 1].value.1)
    else LastValue(settings[..|settings| - 1], name)
  }

  /** One more setting: it wins when it is for `name`. */
  lemma LastValueStep(settings: seq<Option<(string, string)>>, i: nat, name: string)
    requires i < |settings|
    ensures LastValue(settings[..i + 1], name) ==
      if Names(settings[i], name) then Some(settings[i].value.1) else LastValue(settings[..i], name)
  {
    assert settings[..i + 1][..i] == settings[..i];
  }

  /** The value found is that of the setting for `name` after which no
      setting is for it again: the last occurrence wins. */
  lemma {:induction false} LastValueAt(settings: seq<Option<(string, string)>>, name: string, i: nat)
    requires i < |settings| && Names(settings[i], name)
    requires forall j :: i < j < |settings| ==> !Names(settings[j], name)
    ensures LastValue(settings, name) == Some(settings[i].value.1)
    decreases |settings|
  {
    if i < |settings| - 1 {
      var init := settings[..|settings| - 1];
      assert !Names(settings[|settings| - 1], name);
      assert forall j :: i < j < |init| ==> init[j] == settings[j];
      LastValueAt(init, name, i);
    }
  }

  /** Nothing is found exactly when no setting is for `name`. */
  lemma {:induction false} LastValueNone(settings: seq<Option<(string, string)>>, name: string)
    ensures LastValue(settings, name).None? <==> forall j :: 0 <= j < |settings| ==> !Names(settings[j], name)
  {
    if settings != [] {
      var init := settings[..|settings| - 1];
      LastValueNone(init, name);
      assert forall j :: 0 <= j < |init| ==> init[j] == settings[j];
    }
  }

  /** The configuration the constructor derives; `fallback` is what
      `ExtractBaseUrlFromClient()` returns. The base URL is the last
      Endpoint value without its trailing '/'s, or the fallback when no
      segment names an Endpoint; the key is the last Key value. */
  function Configure(connectionString: Option<string>, fallback: string): (c: ServiceConfig)
    ensures (connectionString.None? || connectionString == Some("")) ==> c == ServiceConfig(fallback, None, false)
    ensures c.useApiKey <==> c.apiKey.Some? && c.apiKey.value != ""
    ensures connectionString.Some? && connectionString.value != "" ==>
      var settings := Settings(Segments(connectionString.value));
      var endpoint := LastValue(settings, EndpointName);
      && (endpoint.None? ==> c.baseUrl == fallback)
      && (endpoint.Some? ==> (c.baseUrl == [] || c.baseUrl[|c.baseUrl| - 1] != '/') && StartsWith(endpoint.value, c.baseUrl))
      && (endpoint.Some? ==> forall i :: |c.baseUrl| <= i < |endpoint.value| ==> endpoint.value[i] == '/')
      && c.apiKey == LastValue(settings, KeyName)
  {
    if connectionString.None? || connectionString.value == "" then ServiceConfig(fallback, None, false)
    else
      var settings := Settings(Segments(connectionString.value));
      var endpoint := LastValue(settings, EndpointName);
      var key := LastValue(settings, KeyName);
      ServiceConfig(
        if endpoint.Some? then TrimEndChar(endpoint.value, '/') else fallback,
        key,
        key.Some? && key.value != "")
  }

  /** `ParseConnectionString`: the `foreach` over the segments, where a
      later Endpoint or Key overwrites an earlier one. */
  method ParseConnectionString(connectionString: Option<string>, fallback: string)
    returns (baseUrl: string, apiKey: Option<string>, useApiKey: bool)
    ensures ServiceConfig(baseUrl, apiKey, useApiKey) == Configure(connectionString, fallback)
  {
    if connectionString.None? || connectionString.value == "" {
      return fallback, None, false;
    }
    var parts := Segments(connectionString.value);
    ghost var settings := Settings(parts);
    var endpoint: Option<string> := None;
    var key: Option<string> := None;
    for i := 0 to |parts|
      invariant endpoint == (match LastValue(settings[..i], EndpointName)
                             case None => None
                             case Some(v) => Some(TrimEndChar(v, '/')))
      invariant key == LastValue(settings[..i], KeyName)
    {
      LastValueStep(settings, i, EndpointName);
      LastValueStep(settings, i, KeyName);
      var keyValue := SplitFirst(parts[i], '=');
      if keyValue.Some? {
        var paramName := Trim(keyValue.value.0);
        var paramValue := Trim(keyValue.value.1);
        assert settings[i] == Some((paramName, paramValue));
        if EqualsIgnoreCase(paramName, EndpointName) {
          endpoint := Some(TrimEndChar(paramValue, '/'));
        } else if EqualsIgnoreCase(paramName, KeyName) {
          key := Some(paramValue);
        }
      }
    }
    assert settings[..|parts|] == settings;
    baseUrl := if endpoint.Some? then endpoint.value else fallback;
    apiKey := key;
    useApiKey := key.Some? && key.value != "";
  }

  /** The header `SetAuthenticationHeaderAsync` adds. */
  datatype AuthHeader = ApiKeyHeader(key: string) | BearerHeader(token: string)

  const TokenFailureMessage: string := "Could not obtain bearer token for video generation"

  /** The authentication of one request: the `Api-key` header when an API key
      is in use, otherwise a bearer token from the credential (`credential`
      is the outcome of `DefaultAzureCredential.GetTokenAsync`), whose
      failure becomes an `InvalidOperationException`. */
  function Authenticate(config: ServiceConfig, credential: Result<string, string>): (r: Result<AuthHeader, Fault>)
    ensures (r.Success? && r.value.ApiKeyHeader?) <==> config.useApiKey && config.apiKey.Some? && config.apiKey.value != ""
    ensures r.Success? && r.value.ApiKeyHeader? ==> r.value.key == config.apiKey.value
    ensures r.Success? && r.value.BearerHeader? ==> credential == Success(r.value.token)
    ensures r.Failure? <==> !(config.useApiKey && config.apiKey.Some? && config.apiKey.value != "") && credential.Failure?
    ensures r.Failure? ==> r.error == Raised(TokenFailureMessage)
  {
    if config.useApiKey && config.apiKey.Some? && config.apiKey.value != "" then Success(ApiKeyHeader(config.apiKey.value))
    else if credential.Success? then Success(BearerHeader(credential.value))
    else Failure(Raised(TokenFailureMessage))
  }

  /** With the configuration the constructor builds, the API key is used
      exactly when a non-empty Key was found. */
  lemma ConfiguredKeyChoosesHeader(cs: Option<string>, fallback: string, credential: Result<string, string>)
    ensures var c := Configure(cs, fallback);
      (Authenticate(c, credential).Success? && Authenticate(c, credential).value.ApiKeyHeader?) <==> c.useApiKey
  {
  }

  const ApiVersionQuery: string := "?api-version=preview"
  const GenerationsPath: string := "/openai/v1/video/generations"

  function JobsUrl(baseUrl: string): string {
    baseUrl + GenerationsPath + "/jobs" + ApiVersionQuery
  }

  function JobStatusUrl(baseUrl: string, jobId: string): string {
    baseUrl + GenerationsPath + "/jobs/" + jobId + ApiVersionQuery
  }

  function VideoContentUrl(baseUrl: string, generationId: string): string {
    baseUrl + GenerationsPath + "/" + generationId + "/content/video" + ApiVersionQuery
  }

  /** `prefix + x + suffix` determines `x`. */
  lemma {:induction false} InfixDetermined(prefix: string, x: string, y: string, suffix: string)
    requires prefix + x + suffix == prefix + y + suffix
    ensures x == y
  {
    var s := prefix + x + suffix;
    assert |x| == |y|;
    forall k | 0 <= k < |x| ensures x[k] == y[k] {
      assert s[|prefix| + k] == x[k];
      assert (prefix + y + suffix)[|prefix| + k] == y[k];
    }
  }

  /** Each request URL starts with the base URL, and distinct ids give
      distinct status and content URLs. */
  lemma UrlsIdentifyTheirTarget(baseUrl: string, id1: string, id2: string)
    ensures StartsWith(JobsUrl(baseUrl), baseUrl + GenerationsPath)
    ensures StartsWith(JobStatusUrl(baseUrl, id1), baseUrl + GenerationsPath)
    ensures StartsWith(VideoContentUrl(baseUrl, id1), baseUrl + GenerationsPath)
    ensures JobStatusUrl(baseUrl, id1) == JobStatusUrl(baseUrl, id2) ==> id1 == id2
    ensures VideoContentUrl(baseUrl, id1) == VideoContentUrl(baseUrl, id2) ==> id1 == id2
  {
    var root := baseUrl + GenerationsPath;
    PrefixOfConcat(root, "/jobs" + ApiVersionQuery);
    PrefixOfConcat(root, "/jobs/" + id1 + ApiVersionQuery);
    PrefixOfConcat(root, "/" + id1 + "/content/video" + ApiVersionQuery);
    StatusUrlDetermines(baseUrl, id1, id2);
    ContentUrlDetermines(baseUrl, id1, id2);
  }

  lemma PrefixOfConcat(a: string, b: string)
    ensures StartsWith(a + b, a)
  {
    assert (a + b)[..|a|] == a;
  }

  lemma StatusUrlDetermines(baseUrl: string, id1: string, id2: string)
    ensures JobStatusUrl(baseUrl, id1) == JobStatusUrl(baseUrl, id2) ==> id1 == id2
  {
    if JobStatusUrl(baseUrl, id1) == JobStatusUrl(baseUrl, id2) {
      InfixDetermined(baseUrl + GenerationsPath + "/jobs/", id1, id2, ApiVersionQuery);
    }
  }

  lemma ContentUrlDetermines(baseUrl: string, id1: string, id2: string)
    ensures VideoContentUrl(baseUrl, id1) == VideoContentUrl(baseUrl, id2) ==> id1 == id2
  {
    if VideoContentUrl(baseUrl, id1) == VideoContentUrl(baseUrl, id2) {
      var p := baseUrl + GenerationsPath + "/";
      var q := "/content/video" + ApiVersionQuery;
      assert VideoContentUrl(baseUrl, id1) == p + id1 + q;
      assert VideoContentUrl(baseUrl, id2) == p + id2 + q;
      InfixDetermined(p, id1, id2, q);
    }
  }

  datatype Verb = Post | Get

  /** A request handed to `HttpClient.SendAsync`. */
  datatype HttpRequest = HttpRequest(verb: Verb, url: string, auth: AuthHeader, body: Option<JobRequest>)

  /** An HTTP answer: the numeric status, its `HttpStatusCode` text, and the
      body read as text and as bytes. */
  datatype HttpResponse = HttpResponse(status: int, statusName: string, text: string, bytes: seq<bv8>)

  /** `IsSuccessStatusCode`. */
  predicate IsSuccessStatus(status: int) {
    200 <= status <= 299
  }

  /** `"{prefix}: {StatusCode} - {errorContent}"`. */
  function FailureMessage(prefix: string, response: HttpResponse): (m: string)
    ensures StartsWith(m, prefix + ": ")
    ensures Contains(m, response.statusName) && Contains(m, response.text)
  {
    var m := prefix + ": " + response.statusName + " - " + response.text;
    assert m == (prefix + ": ") + response.statusName + (" - " + response.text);
    ContainsMiddle(prefix + ": ", response.statusName, " - " + response.text);
    assert m == (prefix + ": " + response.statusName + " - ") + response.text + "";
    ContainsMiddle(prefix + ": " + response.statusName + " - ", response.text, "");
    m
  }

  /** What each `*Async` method makes of the transport's outcome: a transport
      exception passes through, a non-success status raises an
      `HttpRequestException` naming the status and the body, and a success
      is decoded, a null decoding raising `undecodable`. */
  function Interpret<T>(sent: Result<HttpResponse, Fault>, decode: HttpResponse -> Option<T>, prefix: string, undecodable: string)
    : (r: Result<T, Fault>)
    ensures sent.Failure? ==> r == Failure(sent.error)
    ensures sent.Success? && !IsSuccessStatus(sent.value.status) ==>
      r.Failure? && r.error.Raised? && StartsWith(r.error.message, prefix + ": ")
      && Contains(r.error.message, sent.value.statusName) && Contains(r.error.message, sent.value.text)
    ensures sent.Success? && IsSuccessStatus(sent.value.status) ==>
      r == (if decode(sent.value).Some? then Success(decode(sent.value).value) else Failure(Raised(undecodable)))
  {
    if sent.Failure? then Failure(sent.error)
    else if !IsSuccessStatus(sent.value.status) then Failure(Raised(FailureMessage(prefix, sent.value)))
    else if decode(sent.value).Some? then Success(decode(sent.value).value)
    else Failure(Raised(undecodable))
  }

  const CreateFailurePrefix: string := "Video generation job creation failed"
  const StatusFailurePrefix: string := "Failed to get job status"
  const ContentFailurePrefix: string := "Failed to get video content"
  const UndecodableJob: string := "Failed to deserialize job response"
  const UndecodableStatus: string := "Failed to deserialize status response"

  /** `CreateVideoJobAsync`: POST the request body to the jobs URL. */
  function CreateVideoJob(config: ServiceConfig, credential: Result<string, string>, request: JobRequest,
                          send: HttpRequest -> Result<HttpResponse, Fault>, decode: string -> Option<VideoJobResponse>)
    : (r: Result<VideoJobResponse, Fault>)
    ensures Authenticate(config, credential).Failure? ==> r == Failure(Raised(TokenFailureMessage))
    ensures Authenticate(config, credential).Success? ==>
      r == Interpret(send(HttpRequest(Post, JobsUrl(config.baseUrl), Authenticate(config, credential).value, Some(request))),
                     (response: HttpResponse) => decode(response.text), CreateFailurePrefix, UndecodableJob)
  {
    match Authenticate(config, credential)
    case Failure(e) => Failure(e)
    case Success(auth) =>
      Interpret(send(HttpRequest(Post, JobsUrl(config.baseUrl), auth, Some(request))),
                (response: HttpResponse) => decode(response.text), CreateFailurePrefix, UndecodableJob)
  }

  /** `GetJobStatusAsync`: GET the job's status URL. */
  function GetJobStatus(config: ServiceConfig, credential: Result<string, string>, jobId: string,
                        send: HttpRequest -> Result<HttpResponse, Fault>, decode: string -> Option<VideoJobStatusResponse>)
    : (r: Result<VideoJobStatusResponse, Fault>)
    ensures Authenticate(config, credential).Failure? ==> r == Failure(Raised(TokenFailureMessage))
    ensures Authenticate(config, credential).Success? ==>
      r == Interpret(send(HttpRequest(Get, JobStatusUrl(config.baseUrl, jobId), Authenticate(config, credential).value, None)),
                     (response: HttpResponse) => decode(response.text), StatusFailurePrefix, UndecodableStatus)
  {
    match Authenticate(config, credential)
    case Failure(e) => Failure(e)
    case Success(auth) =>
      Interpret(send(HttpRequest(Get, JobStatusUrl(config.baseUrl, jobId), auth, None)),
                (response: HttpResponse) => decode(response.text), StatusFailurePrefix, UndecodableStatus)
  }

  /** `GetVideoContentAsync`: GET the generation's content URL; any success
      answer yields its bytes. */
  function GetVideoContent(config: ServiceConfig, credential: Result<string, string>, generationId: string,
                           send: HttpRequest -> Result<HttpResponse, Fault>)
    : (r: Result<seq<bv8>, Fault>)
    ensures Authenticate(config, credential).Failure? ==> r == Failure(Raised(TokenFailureMessage))
    ensures Authenticate(config, credential).Success? ==>
      r == Interpret(send(HttpRequest(Get, VideoContentUrl(config.baseUrl, generationId), Authenticate(config, credential).value, None)),
                     (response: HttpResponse) => Some(response.bytes), ContentFailurePrefix, "")
  {
    match Authenticate(config, credential)
    case Failure(e) => Failure(e)
    case Success(auth) =>
      Interpret(send(HttpRequest(Get, VideoContentUrl(config.baseUrl, generationId), auth, None)),
                (response: HttpResponse) => Some(response.bytes), ContentFailurePrefix, "")
  }

  /** A non-success answer never yields a result: each of the three calls
      raises an error naming the status and the body. */
  lemma NonSuccessAlwaysRaises(config: ServiceConfig, credential: Result<string, string>, request: JobRequest, id: string,
                               send: HttpRequest -> Result<HttpResponse, Fault>,
                               decodeJob: string -> Option<VideoJobResponse>, decodeStatus: string -> Option<VideoJobStatusResponse>,
                               response: HttpResponse)
    requires Authenticate(config, credential).Success?
    requires !IsSuccessStatus(response.status)
    requires forall q :: send(q) == Success(response)
    ensures var r := CreateVideoJob(config, credential, request, send, decodeJob);
      r.Failure? && r.error.Raised? && Contains(r.error.message, response.statusName) && Contains(r.error.message, response.text)
    ensures var r := GetJobStatus(config, credential, id, send, decodeStatus);
      r.Failure? && r.error.Raised? && Contains(r.error.message, response.statusName) && Contains(r.error.message, response.text)
    ensures var r := GetVideoContent(config, credential, id, send);
      r.Failure? && r.error.Raised? && Contains(r.error.message, response.statusName) && Contains(r.error.message, response.text)
  {
  }
}
