/** cmd/edge-proxy/app/config/config.go: parseRemoteServers, the validation of
    the comma-separated list of upstream API server addresses. */
module Config {
  import opened Base
  import opened Strs

  /** A parsed url.URL: its scheme and everything after it, which the
      validation does not look at. */
  datatype Url = Url(scheme: string, rest: string)

  /** url.Parse, outside the model. */
  type UrlParser = string -> Result<Url>

  const ErrServerAddrNotSet := Message("--server-addr should be set for edge proxy")
  const ErrNoServerAddress := Message("no server address is set, can not connect remote server")

  function ErrOnlyHttps(serverAddr: string): Error {
    Message("only https scheme is supported for server address(" + serverAddr + ")")
  }

  /** What one comma-separated part becomes: its parse error, the url with the
      empty scheme defaulted to https, or an error for any other scheme. */
  function Accept(parsed: Result<Url>, serverAddr: string): (r: Result<Url>)
    ensures r.Ok? ==> r.value.scheme == "https"
    ensures r.Ok? <==> parsed.Ok? && parsed.value.scheme in {"", "https"}
    ensures r.Ok? ==> r.value.rest == parsed.value.rest
  {
    match parsed
    case Err(e) => Err(e)
    case Ok(u) =>
      if u.scheme == "" then Ok(u.(scheme := "https"))
      else if u.scheme != "https" then Err(ErrOnlyHttps(serverAddr))
      else Ok(u)
  }

  /** parseRemoteServers: the urls of the parts, in order, up to the first part
      that is refused; the error for that part, if any. */
  method ParseRemoteServers(serverAddr: string, parse: UrlParser) returns (us: seq<Url>, err: Option<Error>)
    ensures serverAddr == "" ==> us == [] && err == Some(ErrServerAddrNotSet)
    ensures serverAddr != "" ==>
      var parts := Split(serverAddr, ',');
      && |us| <= |parts|
      && (forall i :: 0 <= i < |us| ==> Accept(parse(parts[i]), serverAddr) == Ok(us[i]))
      && (err.None? ==> |us| == |parts|)
      && (err.Some? ==> |us| < |parts| && Accept(parse(parts[|us|]), serverAddr) == Err(err.value))
    ensures err.None? ==> |us| >= 1 && forall i :: 0 <= i < |us| ==> us[i].scheme == "https"
  {
    if serverAddr == "" {
      return [], Some(ErrServerAddrNotSet);
    }
    var servers := Split(serverAddr, ',');
    us := [];
    var i := 0;
    while i < |servers|
      invariant 0 <= i <= |servers| && |us| == i
      invariant forall j :: 0 <= j < i ==> Accept(parse(servers[j]), serverAddr) == Ok(us[j])
    {
      var parsed := parse(servers[i]);
      if parsed.Err? {
        return us, Some(parsed.error);
      }
      var u := parsed.value;
      if u.scheme == "" {
        u := u.(scheme := "https");
      } else if u.scheme != "https" {
        return us, Some(ErrOnlyHttps(serverAddr));
      }
      us := us + [u];
      i := i + 1;
    }
    // strings.Split never yields zero parts, so the source's "no server
    // address" error is never returned.
    assert |us| >= 1;
    err := None;
  }
}
