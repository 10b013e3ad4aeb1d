/**
 * The CORS configuration (`corsOptions`): the origin predicate, which answers the
 * `cors` package's callback, and the fixed option fields that go with it.
 */
module CorsConfig {
  import opened Js

  /** The six origins a browser request may come from, compared verbatim. */
  const AllowedOrigins: seq<string> := [
    "https://frontend-production-56b7.up.railway.app",
    "https://www.evolution-x.io",
    "http://localhost:3000",
    "https://localhost:3000",
    "http://localhost:3001",
    "https://localhost:3001"
  ]

  /** The arguments the origin function passes to its callback `cb(err, allow)`. */
  datatype Callback = Callback(err: Option<string>, allow: bool)

  /**
   * `corsOptions.origin(origin, cb)`: an absent or empty origin (curl, mobile apps)
   * is allowed; any other origin is allowed only if it is one of the listed strings.
   * Refusal is `allow = false` with a null error, never an error.
   */
  function Origin(origin: Option<string>): (cb: Callback)
    ensures cb.err == None
    ensures origin == None || origin == Some("") ==> cb.allow
    ensures origin.Some? && origin.value != "" ==> (cb.allow <==> origin.value in AllowedOrigins)
  {
    if origin.None? || origin.value == "" then Callback(None, true)
    else Callback(None, Includes(AllowedOrigins, origin.value))
  }

  /** The option fields other than `origin`. */
  datatype Options = Options(
    credentials: bool,
    methods: seq<string>,
    allowedHeaders: seq<string>,
    exposedHeaders: seq<string>,
    optionsSuccessStatus: nat)

  function CorsOptions(): (o: Options)
    ensures o.credentials && o.optionsSuccessStatus == 200
    ensures o.exposedHeaders == ["X-Request-Id"]
    ensures "Authorization" in o.allowedHeaders && "Content-Type" in o.allowedHeaders
    ensures forall m :: m in o.methods <==> m in {"GET", "POST", "PUT", "DELETE", "OPTIONS", "PATCH"}
  {
    Options(
      credentials := true,
      methods := ["GET", "POST", "PUT", "DELETE", "OPTIONS", "PATCH"],
      allowedHeaders := [
        "Content-Type",
        "Authorization",
        "X-Requested-With",
        "Accept",
        "Origin",
        "Access-Control-Request-Method",
        "Access-Control-Request-Headers"
      ],
      exposedHeaders := ["X-Request-Id"],
      optionsSuccessStatus := 200)
  }

  /** Every listed origin is allowed, and the list holds six distinct entries. */
  lemma ListedOriginsAllowed()
    ensures |AllowedOrigins| == 6
    ensures forall i, j :: 0 <= i < j < |AllowedOrigins| ==> AllowedOrigins[i] != AllowedOrigins[j]
    ensures forall o :: o in AllowedOrigins ==> Origin(Some(o)).allow
  {
  }

  /** No listed origin ends in "/". */
  lemma NoListedOriginEndsInSlash()
    ensures forall i :: 0 <= i < |AllowedOrigins| ==> |AllowedOrigins[i]| > 0 && AllowedOrigins[i][|AllowedOrigins[i]| - 1] != '/'
  {
    assert AllowedOrigins[0][46] == 'p';
    assert AllowedOrigins[1][25] == 'o';
    assert AllowedOrigins[2][20] == '0';
    assert AllowedOrigins[3][21] == '0';
    assert AllowedOrigins[4][20] == '1';
    assert AllowedOrigins[5][21] == '1';
  }

  /** No trailing-slash normalisation: an origin ending in "/" is refused, listed or not. */
  lemma TrailingSlashRefused(o: string)
    ensures !Origin(Some(o + "/")).allow
  {
    var slashed := o + "/";
    assert slashed[|slashed| - 1] == '/';
    NoListedOriginEndsInSlash();
    assert slashed !in AllowedOrigins;
  }

  /** The lengths of the listed origins. */
  lemma OriginLengths()
    ensures |AllowedOrigins[0]| == 47 && |AllowedOrigins[1]| == 26
    ensures |AllowedOrigins[2]| == 21 && |AllowedOrigins[3]| == 22
    ensures |AllowedOrigins[4]| == 21 && |AllowedOrigins[5]| == 22
  {
  }

  /** No case folding in the scheme: "HTTP://localhost:3000" is refused. */
  lemma SchemeCaseSensitive()
    ensures !Origin(Some("HTTP://localhost:3000")).allow
  {
    var o := "HTTP://localhost:3000";
    OriginLengths();
    assert |o| == 21 && o[20] != AllowedOrigins[4][20] && o[0] != AllowedOrigins[2][0];
  }

  /** No case folding in the host: "http://LOCALHOST:3001" is refused. */
  lemma HostCaseSensitive()
    ensures !Origin(Some("http://LOCALHOST:3001")).allow
  {
    var o := "http://LOCALHOST:3001";
    OriginLengths();
    assert |o| == 21 && o[20] != AllowedOrigins[2][20] && o[7] != AllowedOrigins[4][7];
  }

  /** No case folding in the domain: "https://WWW.EVOLUTION-X.IO" is refused. */
  lemma DomainCaseSensitive()
    ensures !Origin(Some("https://WWW.EVOLUTION-X.IO")).allow
  {
    var o := "https://WWW.EVOLUTION-X.IO";
    OriginLengths();
    assert |o| == 26 && o[25] != AllowedOrigins[1][25];
  }
}
