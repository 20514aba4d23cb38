/** The origin allow-list of the HTTP server and of the socket server: a
    request without an origin is allowed; otherwise its origin must equal
    one of the listed origins or match one of the hosting-platform
    patterns. */
module Cors {
  import opened Wrappers
  import opened Text
  import opened Seqs
  import opened Config

  /** An entry of `allowedOrigins`: an exact origin, or the pattern
      `^https:\/\/.*<suffix>$` of a hosting platform. */
  datatype AllowEntry = Exact(origin: string) | Pattern(suffix: string)

  const LocalOrigins: seq<string> := [
    "http://localhost:3000",
    "http://localhost:3001",
    "https://localhost:3000",
    "https://localhost:3001"
  ]

  /** The platform suffixes, as the patterns spell them with escaped dots. */
  const PlatformSuffixes: seq<string> := [
    ".onrender.com",
    ".netlify.app",
    ".vercel.app",
    ".github.io",
    ".herokuapp.com",
    ".railway.app",
    ".surge.sh"
  ]

  const HttpsPrefix := "https://"

  /** `ADDITIONAL_FRONTEND_URLS.split(',').map(url => url.trim())`, or
      nothing when the variable is unset or empty. */
  function AdditionalOrigins(env: Env): (urls: seq<string>)
    ensures !IsSet(env.additionalFrontendUrls) ==> urls == []
    ensures IsSet(env.additionalFrontendUrls) ==> |urls| == |Split(env.additionalFrontendUrls.value, ',')|
  {
    if !IsSet(env.additionalFrontendUrls) then []
    else
      var parts := Split(env.additionalFrontendUrls.value, ',');
      seq(|parts|, i requires 0 <= i < |parts| => Trim(parts[i]))
  }

  /** Each additional origin is the matching comma-separated part of the
      variable, trimmed. */
  lemma AdditionalOriginsTrimmed(env: Env)
    requires IsSet(env.additionalFrontendUrls)
    ensures var parts := Split(env.additionalFrontendUrls.value, ',');
            |AdditionalOrigins(env)| == |parts| &&
            forall i :: 0 <= i < |parts| ==> AdditionalOrigins(env)[i] == Trim(parts[i])
  {
  }

  /** The exact origins before `.filter(Boolean)`: an unset `FRONTEND_URL`
      reads as the empty string, which the filter drops like any other
      empty entry. */
  function ExactCandidates(env: Env): seq<string> {
    LocalOrigins + [env.frontendUrl.GetOr("")] + AdditionalOrigins(env)
  }

  predicate NonEmpty(s: string) {
    s != ""
  }

  /** The exact origins of the list, in order, empty entries dropped. */
  function ExactOrigins(env: Env): (origins: seq<string>)
    ensures forall o :: o in origins <==> o in ExactCandidates(env) && o != ""
  {
    Filter(ExactCandidates(env), NonEmpty)
  }

  /** The exact origins `exact`, then the seven platform patterns. */
  function EntriesOf(exact: seq<string>): (list: seq<AllowEntry>)
    ensures |list| == |exact| + |PlatformSuffixes|
    ensures forall i :: 0 <= i < |exact| ==> list[i] == Exact(exact[i])
    ensures forall i :: 0 <= i < |PlatformSuffixes| ==> list[|exact| + i] == Pattern(PlatformSuffixes[i])
  {
    seq(|exact|, i requires 0 <= i < |exact| => Exact(exact[i]))
    + seq(|PlatformSuffixes|, i requires 0 <= i < |PlatformSuffixes| => Pattern(PlatformSuffixes[i]))
  }

  /** `allowedOrigins`. */
  function AllowedOrigins(env: Env): seq<AllowEntry> {
    EntriesOf(ExactOrigins(env))
  }

  /** The pattern `^https:\/\/.*<suffix>$` (no flags): the origin starts
      with "https://", ends with the suffix, and what lies between holds
      no line terminator, which `.` does not match. */
  predicate PatternMatches(suffix: string, origin: string) {
    && |HttpsPrefix| + |suffix| <= |origin|
    && StartsWith(origin, HttpsPrefix)
    && EndsWith(origin, suffix)
    && forall k :: |HttpsPrefix| <= k < |origin| - |suffix| ==> !IsLineTerminator(origin[k])
  }

  predicate EntryAllows(e: AllowEntry, origin: string) {
    match e
    case Exact(o) => origin == o
    case Pattern(suffix) => PatternMatches(suffix, origin)
  }

  /** `allowedOrigins.some(...)`. */
  predicate AnyAllows(list: seq<AllowEntry>, origin: string) {
    |list| > 0 && (EntryAllows(list[0], origin) || AnyAllows(list[1..], origin))
  }

  lemma {:induction false} AnyAllowsIff(list: seq<AllowEntry>, origin: string)
    ensures AnyAllows(list, origin) <==> exists i :: 0 <= i < |list| && EntryAllows(list[i], origin)
  {
    if |list| > 0 {
      AnyAllowsIff(list[1..], origin);
      if exists i :: 0 <= i < |list| && EntryAllows(list[i], origin) {
        var i :| 0 <= i < |list| && EntryAllows(list[i], origin);
        if i > 0 {
          assert list[1..][i - 1] == list[i];
        }
      }
      if exists i :: 0 <= i < |list[1..]| && EntryAllows(list[1..][i], origin) {
        var i :| 0 <= i < |list[1..]| && EntryAllows(list[1..][i], origin);
        assert list[i + 1] == list[1..][i];
      }
    }
  }

  /** `corsOptions.origin`, which the socket server uses too: `Ok(true)`
      lets the request through, `Err` carries the refusal. */
  function CheckOrigin(env: Env, origin: Option<string>): (r: Result<bool, string>)
    ensures r.Ok? ==> r.value
    ensures r.Err? ==> r.error == "Not allowed by CORS"
  {
    if origin.None? || origin.value == "" then Ok(true)
    else if AnyAllows(AllowedOrigins(env), origin.value) then Ok(true)
    else Err("Not allowed by CORS")
  }

  /** An entry of the list allows the origin exactly when the origin is
      one of the exact origins or matches a platform pattern. */
  lemma EntryOfListAllows(exact: seq<string>, origin: string)
    ensures (exists i :: 0 <= i < |EntriesOf(exact)| && EntryAllows(EntriesOf(exact)[i], origin)) <==>
      origin in exact || exists s :: s in PlatformSuffixes && PatternMatches(s, origin)
  {
    var list := EntriesOf(exact);
    if origin in exact {
      var i :| 0 <= i < |exact| && exact[i] == origin;
      assert EntryAllows(list[i], origin);
    }
    if s :| s in PlatformSuffixes && PatternMatches(s, origin) {
      PatternEntryAllows(exact, s, origin);
    }
    if i :| 0 <= i < |list| && EntryAllows(list[i], origin) {
      AllowingEntryIsListed(exact, i, origin);
    }
  }

  lemma PatternEntryAllows(exact: seq<string>, suffix: string, origin: string)
    requires suffix in PlatformSuffixes && PatternMatches(suffix, origin)
    ensures exists i :: 0 <= i < |EntriesOf(exact)| && EntryAllows(EntriesOf(exact)[i], origin)
  {
    var i :| 0 <= i < |PlatformSuffixes| && PlatformSuffixes[i] == suffix;
    assert EntriesOf(exact)[|exact| + i] == Pattern(suffix);
  }

  lemma AllowingEntryIsListed(exact: seq<string>, i: nat, origin: string)
    requires i < |EntriesOf(exact)| && EntryAllows(EntriesOf(exact)[i], origin)
    ensures origin in exact || exists s :: s in PlatformSuffixes && PatternMatches(s, origin)
  {
    var n := |exact|;
    if i < n {
      assert EntriesOf(exact)[i] == Exact(exact[i]);
    } else {
      assert EntriesOf(exact)[i] == Pattern(PlatformSuffixes[i - n]);
      assert PlatformSuffixes[i - n] in PlatformSuffixes;
    }
  }

  /** An origin is let through exactly when it is missing, equals a listed
      origin, or matches a platform pattern. */
  lemma CheckOriginIff(env: Env, origin: string)
    ensures CheckOrigin(env, Some(origin)).Ok? <==>
      origin == "" || origin in ExactOrigins(env) || exists s :: s in PlatformSuffixes && PatternMatches(s, origin)
  {
    AnyAllowsIff(AllowedOrigins(env), origin);
    EntryOfListAllows(ExactOrigins(env), origin);
  }

  /** The local development origins are always let through, and so is
      `FRONTEND_URL` when it is set. */
  lemma ConfiguredOriginsAllowed(env: Env)
    ensures forall o :: o in LocalOrigins ==> CheckOrigin(env, Some(o)).Ok?
    ensures IsSet(env.frontendUrl) ==> CheckOrigin(env, env.frontendUrl).Ok?
  {
    forall o | o in LocalOrigins
      ensures CheckOrigin(env, Some(o)).Ok?
    {
      CheckOriginIff(env, o);
      assert o in ExactCandidates(env);
    }
    if IsSet(env.frontendUrl) {
      CheckOriginIff(env, env.frontendUrl.value);
      assert ExactCandidates(env)[|LocalOrigins|] == env.frontendUrl.value;
    }
  }

  /** A comma-separated list of origins without surrounding white space and
      without commas is read back exactly. */
  lemma AdditionalOriginsRoundTrip(env: Env, urls: seq<string>)
    requires |urls| > 0 && forall i :: 0 <= i < |urls| ==> ',' !in urls[i] && Trim(urls[i]) == urls[i]
    requires env.additionalFrontendUrls == Some(Join(urls, ","))
    requires Join(urls, ",") != ""
    ensures AdditionalOrigins(env) == urls
  {
    SplitJoin(urls, ',');
  }

  /** Each listed additional origin that is not empty after trimming is let
      through. */
  lemma AdditionalOriginAllowed(env: Env, i: nat)
    requires i < |AdditionalOrigins(env)| && AdditionalOrigins(env)[i] != ""
    ensures CheckOrigin(env, Some(AdditionalOrigins(env)[i])).Ok?
  {
    var extra := AdditionalOrigins(env);
    var o := extra[i];
    assert o in extra;
    assert ExactCandidates(env) == (LocalOrigins + [env.frontendUrl.GetOr("")]) + extra;
    assert o in ExactCandidates(env);
    CheckOriginIff(env, o);
  }

  lemma LastCharAgrees(s: string, suffix: string)
    requires |suffix| > 0 && EndsWith(s, suffix)
    ensures s[|s| - 1] == suffix[|suffix| - 1]
  {
    assert s[|s| - |suffix|..][|suffix| - 1] == s[|s| - 1];
  }

  /** A Render deployment served over https is let through. */
  lemma RenderOriginAllowed(env: Env)
    ensures CheckOrigin(env, Some("https://my-app.onrender.com")).Ok?
  {
    var o := "https://my-app.onrender.com";
    assert o[..|HttpsPrefix|] == HttpsPrefix;
    assert o[|o| - |".onrender.com"|..] == ".onrender.com";
    assert PatternMatches(PlatformSuffixes[0], o);
    CheckOriginIff(env, o);
  }

  /** The same host over plain http matches no pattern. */
  lemma PlainHttpRefused(env: Env)
    requires "http://my-app.onrender.com" !in ExactOrigins(env)
    ensures CheckOrigin(env, Some("http://my-app.onrender.com")).Err?
  {
    var o := "http://my-app.onrender.com";
    assert o[..|HttpsPrefix|][4] != HttpsPrefix[4];
    assert !StartsWith(o, HttpsPrefix);
    CheckOriginIff(env, o);
  }

  /** An unlisted origin outside the hosting platforms is refused. */
  lemma UnlistedOriginRefused(env: Env)
    requires "https://example.org" !in ExactOrigins(env)
    ensures CheckOrigin(env, Some("https://example.org")).Err?
  {
    var o := "https://example.org";
    forall s | s in PlatformSuffixes
      ensures !PatternMatches(s, o)
    {
      if EndsWith(o, s) {
        LastCharAgrees(o, s);
      }
    }
    CheckOriginIff(env, o);
  }
}
