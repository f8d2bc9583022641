/**
 * The request middleware: static assets and API routes pass through
 * untouched; `/state/<two-letter code>` is permanently redirected (HTTP 301,
 * RFC 9110 section 15.4.2) to the full state name; any other path longer
 * than '/' that ends in '/' is redirected to the same path without it; every
 * remaining page gets the security headers, with Strict-Transport-Security
 * (RFC 6797 section 6.1) only in production.
 *
 * A redirect location is modelled by its path; the rest of the URL is cloned
 * unchanged by the source.
 */
module Middleware {
  import opened Common

  const StaticExtensions: seq<string> :=
    ["ico", "png", "jpg", "jpeg", "svg", "gif", "webp", "woff", "woff2", "ttf", "css", "js"]

  /** The path ends in '.' followed by one of the static extensions. */
  predicate HasStaticExtension(path: string) {
    exists e | e in StaticExtensions :: EndsWith(path, "." + e)
  }

  /** Paths the middleware leaves alone. */
  predicate IsSkipped(path: string)
    ensures IsSkipped(path) ==> |path| >= 3
  {
    assert forall e :: e in StaticExtensions ==> |e| >= 2;
    StartsWith(path, "/_next") || StartsWith(path, "/api") || StartsWith(path, "/static") || HasStaticExtension(path)
  }

  predicate IsLowerLetter(c: char) {
    'a' <= c <= 'z'
  }

  /** The two letters matched by `^/state/([a-z]{2})(/|$)`, if the path matches. */
  function StateCode(path: string): (r: Option<string>)
    ensures r.Some? <==> |path| >= 9 && path[..7] == "/state/" && IsLowerLetter(path[7]) && IsLowerLetter(path[8])
                         && (|path| == 9 || path[9] == '/')
    ensures r.Some? ==> r.value == path[7..9]
  {
    if |path| >= 9 && path[..7] == "/state/" && IsLowerLetter(path[7]) && IsLowerLetter(path[8])
       && (|path| == 9 || path[9] == '/')
    then Some(path[7..9])
    else None
  }

  /** The ten abbreviations that are expanded. */
  const StateNames: map<string, string> := map[
    "CA" := "california",
    "TX" := "texas",
    "FL" := "florida",
    "NY" := "new-york",
    "PA" := "pennsylvania",
    "IL" := "illinois",
    "OH" := "ohio",
    "GA" := "georgia",
    "NC" := "north-carolina",
    "MI" := "michigan"
  ]

  /** The target of the state-abbreviation rule, when it fires. */
  function StateRedirect(path: string): (r: Option<string>)
    ensures r.Some? <==> StateCode(path).Some? && ToUpper(StateCode(path).value) in StateNames
  {
    FullNamesAreLong();
    match StateCode(path)
    case None => None
    case Some(code) =>
      var abbrev := ToUpper(code);
      if abbrev in StateNames && StateNames[abbrev] != ""
      then Some(ReplaceFirst(path, "/state/" + ToLower(abbrev), "/state/" + StateNames[abbrev]))
      else None
  }

  /** The headers of the page response. */
  function PageHeaders(nodeEnv: string, host: string): (r: map<string, string>)
    ensures "X-Frame-Options" in r && r["X-Frame-Options"] == "DENY"
    ensures "X-Content-Type-Options" in r && r["X-Content-Type-Options"] == "nosniff"
    ensures "Referrer-Policy" in r && r["Referrer-Policy"] == "strict-origin-when-cross-origin"
    ensures "Permissions-Policy" in r && r["Permissions-Policy"] == "camera=(), microphone=(), geolocation=()"
    ensures "Strict-Transport-Security" in r <==> nodeEnv == "production"
    ensures "X-Brand-Domain" in r <==> nodeEnv == "development"
    ensures nodeEnv == "production" ==> r["Strict-Transport-Security"] == "max-age=31536000; includeSubDomains"
    ensures nodeEnv == "development" ==> r["X-Brand-Domain"] == host
    ensures r.Keys == {"X-Frame-Options", "X-Content-Type-Options", "Referrer-Policy", "Permissions-Policy"}
                      + (if nodeEnv == "production" then {"Strict-Transport-Security"} else {})
                      + (if nodeEnv == "development" then {"X-Brand-Domain"} else {})
  {
    var base := map[
      "X-Frame-Options" := "DENY",
      "X-Content-Type-Options" := "nosniff",
      "Referrer-Policy" := "strict-origin-when-cross-origin",
      "Permissions-Policy" := "camera=(), microphone=(), geolocation=()"
    ];
    var withHsts := if nodeEnv == "production"
                    then base["Strict-Transport-Security" := "max-age=31536000; includeSubDomains"]
                    else base;
    if nodeEnv == "development" then withHsts["X-Brand-Domain" := host] else withHsts
  }

  datatype Outcome = PassThrough | Redirect(status: int, location: string) | Continue(headers: map<string, string>)

  function TrailingSlash(path: string): bool {
    |path| > 1 && path[|path| - 1] == '/'
  }

  /**
   * `middleware`: skipped paths pass through with no headers; the state rule
   * is tried before the trailing-slash rule; only the page response carries
   * the security headers.
   */
  function Decide(path: string, host: Option<string>, nodeEnv: string): (r: Outcome)
    ensures r.PassThrough? <==> IsSkipped(path)
    ensures r.Redirect? ==> r.status == 301
    ensures !IsSkipped(path) && StateRedirect(path).Some? ==> r == Redirect(301, StateRedirect(path).value)
    ensures !IsSkipped(path) && StateRedirect(path).None? && TrailingSlash(path)
            ==> r == Redirect(301, path[..|path| - 1])
    ensures r.Continue? <==> !IsSkipped(path) && StateRedirect(path).None? && !TrailingSlash(path)
    ensures r.Continue? ==>
      && "X-Frame-Options" in r.headers && r.headers["X-Frame-Options"] == "DENY"
      && "X-Content-Type-Options" in r.headers && r.headers["X-Content-Type-Options"] == "nosniff"
      && "Referrer-Policy" in r.headers && r.headers["Referrer-Policy"] == "strict-origin-when-cross-origin"
      && "Permissions-Policy" in r.headers && r.headers["Permissions-Policy"] == "camera=(), microphone=(), geolocation=()"
      && ("Strict-Transport-Security" in r.headers <==> nodeEnv == "production")
      && ("X-Brand-Domain" in r.headers <==> nodeEnv == "development")
      && (nodeEnv == "production" ==> r.headers["Strict-Transport-Security"] == "max-age=31536000; includeSubDomains")
      && (nodeEnv == "development" ==> r.headers["X-Brand-Domain"] == OrElse(host, ""))
  {
    if IsSkipped(path) then PassThrough
    else
      match StateRedirect(path)
      case Some(target) => Redirect(301, target)
      case None =>
        if TrailingSlash(path) then Redirect(301, path[..|path| - 1])
        else Continue(PageHeaders(nodeEnv, OrElse(host, "")))
  }

  lemma {:induction false} LowerUpperCode(code: string)
    requires |code| == 2 && IsLowerLetter(code[0]) && IsLowerLetter(code[1])
    ensures ToLower(ToUpper(code)) == code
  {
    var u := ToUpper(code);
    assert ToLower(u)[0] == code[0] && ToLower(u)[1] == code[1];
  }

  /**
   * A known lower-case code, followed by nothing or by '/…', is replaced by
   * the full state name and the rest of the path is kept.
   */
  lemma StateRedirectTarget(code: string, rest: string)
    requires |code| == 2 && IsLowerLetter(code[0]) && IsLowerLetter(code[1])
    requires ToUpper(code) in StateNames
    requires rest == "" || rest[0] == '/'
    ensures StateRedirect("/state/" + code + rest) == Some("/state/" + StateNames[ToUpper(code)] + rest)
  {
    var path := "/state/" + code + rest;
    assert path[..7] == "/state/" && path[7..9] == code;
    assert |path| == 9 || path[9] == rest[0];
    LowerUpperCode(code);
    assert path == ("/state/" + code) + rest;
    assert StartsWith(path, "/state/" + code);
  }

  /** Every full name is longer than two characters and has no '/' in third place. */
  lemma FullNamesAreLong()
    ensures forall a :: a in StateNames ==> |StateNames[a]| > 2 && StateNames[a][2] != '/'
  {
  }

  /** A redirect target of the state rule never matches the state pattern again. */
  lemma StateTargetIsStable(code: string, rest: string)
    requires |code| == 2 && IsLowerLetter(code[0]) && IsLowerLetter(code[1])
    requires ToUpper(code) in StateNames
    requires rest == "" || rest[0] == '/'
    ensures StateCode(StateRedirect("/state/" + code + rest).value).None?
  {
    var name := StateNames[ToUpper(code)];
    FullNamesAreLong();
    assert |name| > 2 && name[2] != '/';
    StateRedirectTarget(code, rest);
    var target := "/state/" + name + rest;
    assert target[9] == name[2];
    assert StateCode(target).None?;
  }

  /** A path under '/state/' that ends in '/' is neither an asset nor an API route. */
  lemma StatePathNotSkipped(code: string, rest: string)
    requires |rest| > 0 && rest[|rest| - 1] == '/'
    ensures !IsSkipped("/state/" + code + rest)
  {
    var p := "/state/" + code + rest;
    assert p[..7] == "/state/" && p[|p| - 1] == '/';
    assert p[1] == p[..7][1] == 's' && p[5] == p[..7][5] == 'e';
    NotStartsWithAt(p, "/_next", 1);
    NotStartsWithAt(p, "/api", 1);
    NotStartsWithAt(p, "/static", 5);
    forall e | e in StaticExtensions ensures !EndsWith(p, "." + e) {
      assert |e| > 0 && e[|e| - 1] != '/';
      assert ("." + e)[|"." + e| - 1] == e[|e| - 1];
    }
  }

  /**
   * A known code followed by '/' goes to the full state name with the slash
   * kept (the state rule first), never to the path without its slash:
   * '/state/ca/' becomes '/state/california/', not '/state/ca'.
   */
  lemma StateRuleBeforeTrailingSlash(code: string, host: Option<string>, nodeEnv: string)
    requires |code| == 2 && IsLowerLetter(code[0]) && IsLowerLetter(code[1])
    requires ToUpper(code) in StateNames
    ensures Decide("/state/" + code + "/", host, nodeEnv) == Redirect(301, "/state/" + StateNames[ToUpper(code)] + "/")
  {
    StatePathNotSkipped(code, "/");
    StateRedirectTarget(code, "/");
  }

  /**
   * An unmapped code, such as 'zz', followed by '/' falls through to the
   * trailing-slash rule: '/state/zz/' becomes '/state/zz'.
   */
  lemma UnknownCodeFallsThrough(code: string, host: Option<string>, nodeEnv: string)
    requires |code| == 2 && ToUpper(code) !in StateNames
    ensures Decide("/state/" + code + "/", host, nodeEnv) == Redirect(301, "/state/" + code)
  {
    StatePathNotSkipped(code, "/");
    UnknownCodeNotRedirected(code);
    var p := "/state/" + code + "/";
    assert p[..|p| - 1] == "/state/" + code;
  }

  /** The state rule does not fire for a two-character code outside the table. */
  lemma UnknownCodeNotRedirected(code: string)
    requires |code| == 2 && ToUpper(code) !in StateNames
    ensures StateRedirect("/state/" + code + "/").None?
  {
    var p := "/state/" + code + "/";
    assert p[7..9] == code;
  }

  /** The root path is never redirected. */
  lemma RootIsNeverRedirected(host: Option<string>, nodeEnv: string)
    ensures Decide("/", host, nodeEnv).Continue?
  {
    assert !StartsWith("/", "/_next") && !StartsWith("/", "/api") && !StartsWith("/", "/static");
    assert !HasStaticExtension("/") by {
      forall e | e in StaticExtensions ensures !EndsWith("/", "." + e) {
        assert |"." + e| >= 2;
      }
    }
  }

  /** The trailing-slash rule removes exactly one character, so its target is one shorter. */
  lemma TrailingSlashRemovesOne(path: string, host: Option<string>, nodeEnv: string)
    requires !IsSkipped(path) && StateRedirect(path).None? && TrailingSlash(path)
    ensures Decide(path, host, nodeEnv).Redirect?
    ensures path == Decide(path, host, nodeEnv).location + "/"
  {
  }
}
