/** The CORS `origin` callback of the front door (server.js:29-64): given the
    request's Origin header and the environment, it either admits the origin
    or fails with an error. */
module OriginPolicy {
  import opened Config

  /** What the callback hands to `cors`: `callback(null, true)` or
      `callback(new Error(message))`. */
  datatype Decision = Allow | Deny(message: string)

  const CorsRejection := "Not allowed by CORS"

  /** An entry of the freshly built allow-list (server.js:37-41): the value of
      ALLOWED_ORIGIN, which may be `undefined`, a string, or one of the two
      hosting-domain regular expressions. `optionalSlash` tells the pattern
      with the optional trailing slash (`\/?`, server.js:41) from the strict
      one without it (server.js:40). */
  datatype Allowed = Undefined | Str(s: string) | DomainRegex(optionalSlash: bool)

  // ---------------------------------------------------------------------
  // The two regular expressions /^https:\/\/.*\.ondigitalocean\.app\/?$/
  // ---------------------------------------------------------------------

  const Scheme := "https://"
  const HostSuffix := ".ondigitalocean.app"

  /** The characters a JavaScript `.` refuses to match (no `s` flag). */
  predicate IsLineTerminator(c: char) {
    c == '\n' || c == '\r' || c == '\U{2028}' || c == '\U{2029}'
  }

  predicate NoLineTerminators(m: string) {
    forall i :: 0 <= i < |m| ==> !IsLineTerminator(m[i])
  }

  /** `\.ondigitalocean\.app$` or, with the optional slash, `\.ondigitalocean\.app\/?$`:
      what is left of the input after `.*` must be exactly the suffix. */
  predicate SuffixAnchored(t: string, optionalSlash: bool) {
    t == HostSuffix || (optionalSlash && t == HostSuffix + "/")
  }

  /** `.*` followed by the anchored suffix, tried the way a backtracking
      matcher does: either `.*` stops here, or it eats one character that is
      not a line terminator and tries again on the rest. */
  predicate DotStarThenSuffix(t: string, optionalSlash: bool)
    decreases |t|
  {
    SuffixAnchored(t, optionalSlash)
    || (|t| > 0 && !IsLineTerminator(t[0]) && DotStarThenSuffix(t[1..], optionalSlash))
  }

  /** `regex.test(origin)` for the strict pattern (`optionalSlash == false`)
      or the optional-slash pattern (`optionalSlash == true`). Both are anchored with `^` at the
      start, so the scheme must be a prefix of the input. */
  predicate DomainRegexTest(optionalSlash: bool, origin: string) {
    |origin| >= |Scheme| && origin[..|Scheme|] == Scheme
    && DotStarThenSuffix(origin[|Scheme|..], optionalSlash)
  }

  /** Reference reading of the patterns, independent of how a matcher runs:
      the origin is `https://`, then any run of characters other than line
      terminators, then `.ondigitalocean.app`, then (only when allowed) one `/`. */
  ghost predicate Shaped(origin: string, tail: string) {
    exists m :: NoLineTerminators(m) && origin == Scheme + m + tail
  }

  ghost predicate DomainOrigin(origin: string, optionalSlash: bool) {
    Shaped(origin, HostSuffix) || (optionalSlash && Shaped(origin, HostSuffix + "/"))
  }

  /** The matcher, run on what follows the scheme, succeeds exactly on a
      line-terminator-free run followed by the suffix. */
  lemma {:induction false} DotStarThenSuffixSound(t: string, optionalSlash: bool)
    requires DotStarThenSuffix(t, optionalSlash)
    ensures exists m :: NoLineTerminators(m)
                        && (t == m + HostSuffix || (optionalSlash && t == m + HostSuffix + "/"))
    decreases |t|
  {
    if SuffixAnchored(t, optionalSlash) {
      assert NoLineTerminators([]) && ([] + t == t);
    } else {
      DotStarThenSuffixSound(t[1..], optionalSlash);
      var m :| NoLineTerminators(m)
               && (t[1..] == m + HostSuffix || (optionalSlash && t[1..] == m + HostSuffix + "/"));
      var m' := [t[0]] + m;
      assert NoLineTerminators(m');
      assert t == [t[0]] + t[1..];
      if t[1..] == m + HostSuffix {
        assert t == m' + HostSuffix;
      } else {
        assert t == m' + HostSuffix + "/";
      }
    }
  }

  lemma {:induction false} DotStarThenSuffixComplete(m: string, tail: string, optionalSlash: bool)
    requires NoLineTerminators(m)
    requires SuffixAnchored(tail, optionalSlash)
    ensures DotStarThenSuffix(m + tail, optionalSlash)
    decreases |m|
  {
    if m == [] {
      assert m + tail == tail;
    } else {
      assert (m + tail)[1..] == m[1..] + tail;
      assert NoLineTerminators(m[1..]) by {
        forall i | 0 <= i < |m[1..]| ensures !IsLineTerminator(m[1..][i]) {
          assert m[1..][i] == m[i + 1];
        }
      }
      DotStarThenSuffixComplete(m[1..], tail, optionalSlash);
    }
  }

  lemma DomainRegexTestSound(optionalSlash: bool, origin: string)
    requires DomainRegexTest(optionalSlash, origin)
    ensures DomainOrigin(origin, optionalSlash)
  {
    var t := origin[|Scheme|..];
    DotStarThenSuffixSound(t, optionalSlash);
    var m :| NoLineTerminators(m)
             && (t == m + HostSuffix || (optionalSlash && t == m + HostSuffix + "/"));
    assert origin == Scheme + t;
    if t == m + HostSuffix {
      assert origin == Scheme + m + HostSuffix;
    } else {
      assert origin == Scheme + m + (HostSuffix + "/");
    }
  }

  lemma DomainRegexTestComplete(optionalSlash: bool, origin: string, m: string, tail: string)
    requires NoLineTerminators(m) && origin == Scheme + m + tail
    requires SuffixAnchored(tail, optionalSlash)
    ensures DomainRegexTest(optionalSlash, origin)
  {
    assert origin == Scheme + (m + tail);
    assert origin[|Scheme|..] == m + tail;
    DotStarThenSuffixComplete(m, tail, optionalSlash);
  }

  /** The matcher and the reference reading agree on every input, in both directions. */
  lemma DomainRegexTestMeaning(optionalSlash: bool, origin: string)
    ensures DomainRegexTest(optionalSlash, origin) <==> DomainOrigin(origin, optionalSlash)
  {
    if DomainRegexTest(optionalSlash, origin) {
      DomainRegexTestSound(optionalSlash, origin);
    }
    if Shaped(origin, HostSuffix) {
      var m :| NoLineTerminators(m) && origin == Scheme + m + HostSuffix;
      DomainRegexTestComplete(optionalSlash, origin, m, HostSuffix);
    } else if optionalSlash && Shaped(origin, HostSuffix + "/") {
      var m :| NoLineTerminators(m) && origin == Scheme + m + (HostSuffix + "/");
      DomainRegexTestComplete(optionalSlash, origin, m, HostSuffix + "/");
    }
  }

  /** Every origin the strict pattern accepts is accepted by the optional-slash pattern. */
  lemma {:induction false} DotStarSubsumed(t: string)
    requires DotStarThenSuffix(t, false)
    ensures DotStarThenSuffix(t, true)
    decreases |t|
  {
    if !SuffixAnchored(t, false) {
      DotStarSubsumed(t[1..]);
    }
  }

  lemma StrictPatternSubsumed(origin: string)
    ensures DomainRegexTest(false, origin) ==> DomainRegexTest(true, origin)
  {
    if DomainRegexTest(false, origin) {
      DotStarSubsumed(origin[|Scheme|..]);
    }
  }

  /** Without the optional slash, whatever `.*` leaves must end in the suffix. */
  lemma {:induction false} NoSlashEndsInSuffix(t: string)
    requires DotStarThenSuffix(t, false)
    ensures |t| >= |HostSuffix| && t[|t| - |HostSuffix|..] == HostSuffix
    decreases |t|
  {
    if !SuffixAnchored(t, false) {
      NoSlashEndsInSuffix(t[1..]);
      assert t[1..][|t[1..]| - |HostSuffix|..] == t[|t| - |HostSuffix|..];
    }
  }

  const SampleHost := "https://app.ondigitalocean.app"

  /** The bare hosting-domain origin is accepted by both patterns. */
  lemma BareHostAccepted()
    ensures DomainRegexTest(false, SampleHost) && DomainRegexTest(true, SampleHost)
  {
    assert NoLineTerminators("app");
    assert SampleHost == Scheme + "app" + HostSuffix;
    DomainRegexTestComplete(false, SampleHost, "app", HostSuffix);
    DomainRegexTestComplete(true, SampleHost, "app", HostSuffix);
  }

  /** The subsumption is proper: a trailing slash is admitted only by the optional-slash pattern. */
  lemma TrailingSlashOnlyOptionalPattern()
    ensures DomainRegexTest(true, SampleHost + "/")
    ensures !DomainRegexTest(false, SampleHost + "/")
  {
    var withSlash := SampleHost + "/";
    assert NoLineTerminators("app");
    assert withSlash == Scheme + "app" + (HostSuffix + "/");
    DomainRegexTestComplete(true, withSlash, "app", HostSuffix + "/");
    var t := withSlash[|Scheme|..];
    assert t[|t| - 1] == '/' && HostSuffix[|HostSuffix| - 1] == 'p';
    if DotStarThenSuffix(t, false) {
      NoSlashEndsInSuffix(t);
    }
  }

  /** An origin either pattern accepts contains no line terminator anywhere. */
  lemma DomainOriginsHaveNoLineTerminators(optionalSlash: bool, origin: string)
    ensures DomainRegexTest(optionalSlash, origin) ==> NoLineTerminators(origin)
  {
    if DomainRegexTest(optionalSlash, origin) {
      DomainRegexTestSound(optionalSlash, origin);
      var tail := if Shaped(origin, HostSuffix) then HostSuffix else HostSuffix + "/";
      var m :| NoLineTerminators(m) && origin == Scheme + m + tail;
      forall k | 0 <= k < |origin| ensures !IsLineTerminator(origin[k]) {
        if k < |Scheme| {
          assert origin[k] == Scheme[k];
        } else if k < |Scheme| + |m| {
          assert origin[k] == m[k - |Scheme|];
        } else {
          assert origin[k] == tail[k - |Scheme| - |m|];
        }
      }
    }
  }

  // ---------------------------------------------------------------------
  // The allow-list: `[...].filter(Boolean)` and `.some(...)`
  // ---------------------------------------------------------------------

  /** JavaScript truthiness of an entry: `undefined` and `''` are falsy,
      every other string and every RegExp object is truthy. */
  predicate Truthy(a: Allowed) {
    match a
    case Undefined => false
    case Str(s) => s != ""
    case DomainRegex(_) => true
  }

  /** `list.filter(Boolean)` (server.js:42): keeps the truthy entries in order. */
  function FilterTruthy(list: seq<Allowed>): (r: seq<Allowed>)
    ensures |r| <= |list|
    ensures forall a :: a in r <==> a in list && Truthy(a)
  {
    if list == [] then []
    else if Truthy(list[0]) then [list[0]] + FilterTruthy(list[1..])
    else FilterTruthy(list[1..])
  }

  lemma {:induction false} FilterTruthyAppend(a: seq<Allowed>, b: seq<Allowed>)
    ensures FilterTruthy(a + b) == FilterTruthy(a) + FilterTruthy(b)
    decreases |a|
  {
    if a == [] {
      assert a + b == b;
    } else {
      assert (a + b)[1..] == a[1..] + b;
      FilterTruthyAppend(a[1..], b);
    }
  }

  /** The body of the `some` callback (server.js:44-51): a string matches by
      strict equality, a RegExp by `test`, anything else never. */
  predicate EntryMatches(a: Allowed, origin: string) {
    match a
    case Str(s) => origin == s
    case DomainRegex(optionalSlash) => DomainRegexTest(optionalSlash, origin)
    case Undefined => false
  }

  /** `list.some(allowed => ...)`. */
  predicate SomeMatches(list: seq<Allowed>, origin: string) {
    if list == [] then false
    else EntryMatches(list[0], origin) || SomeMatches(list[1..], origin)
  }

  /** `some` is a disjunction over the entries. */
  lemma {:induction false} SomeMatchesMeaning(list: seq<Allowed>, origin: string)
    ensures SomeMatches(list, origin) <==> exists a :: a in list && EntryMatches(a, origin)
    decreases |list|
  {
    if list != [] {
      SomeMatchesMeaning(list[1..], origin);
      assert forall a :: a in list <==> a == list[0] || a in list[1..];
    }
  }

  lemma SomeMatchesAppend(a: seq<Allowed>, b: seq<Allowed>, origin: string)
    ensures SomeMatches(a + b, origin) <==> SomeMatches(a, origin) || SomeMatches(b, origin)
  {
    SomeMatchesMeaning(a + b, origin);
    SomeMatchesMeaning(a, origin);
    SomeMatchesMeaning(b, origin);
  }

  /** The list of server.js:37-41, before `filter(Boolean)`. */
  function RawAllowList(allowedOrigin: Option<string>): seq<Allowed> {
    [if allowedOrigin.Some? then Str(allowedOrigin.value) else Undefined,
     DomainRegex(false),
     DomainRegex(true)]
  }

  /** The callback run against an arbitrary raw allow-list; `OriginCallback`
      is this with the list of server.js:37-41. */
  function DecideWith(raw: seq<Allowed>, nodeEnv: Option<string>, origin: Option<string>): Decision {
    if origin.None? || origin.value == "" then Allow            // `!origin`
    else if IsProduction(nodeEnv) then
      if SomeMatches(FilterTruthy(raw), origin.value) then Allow else Deny(CorsRejection)
    else Allow                                                   // development: allow all
  }

  /** The `corsOptions.origin` callback (server.js:29-64). */
  function OriginCallback(env: Env, origin: Option<string>): Decision {
    DecideWith(RawAllowList(env.allowedOrigin), env.nodeEnv, origin)
  }

  // ---------------------------------------------------------------------
  // Properties of the decision
  // ---------------------------------------------------------------------

  /** The only failure the callback produces is the CORS error. */
  lemma DenyIsCorsError(env: Env, origin: Option<string>)
    ensures OriginCallback(env, origin).Deny? ==> OriginCallback(env, origin) == Deny(CorsRejection)
  {
  }

  /** `!origin`: an absent or empty Origin header is admitted in every mode,
      whatever the allow-list holds. */
  lemma AbsentOriginAllowed(raw: seq<Allowed>, nodeEnv: Option<string>, origin: Option<string>)
    requires origin == None || origin == Some("")
    ensures DecideWith(raw, nodeEnv, origin) == Allow
  {
  }

  /** Outside the exact `'production'` sentinel (unset, `'development'`,
      `'staging'`, `'Production'`, ...) every origin is admitted. */
  lemma NonProductionAllowsAll(raw: seq<Allowed>, nodeEnv: Option<string>, origin: Option<string>)
    requires nodeEnv != Some("production")
    ensures DecideWith(raw, nodeEnv, origin) == Allow
  {
  }

  /** In production, a present origin is admitted exactly when it equals a
      non-empty ALLOWED_ORIGIN or has the hosting-domain shape with at most
      one trailing slash; otherwise the callback fails with the CORS error. */
  lemma ProductionDecision(env: Env, origin: string)
    requires IsProduction(env.nodeEnv) && origin != ""
    ensures OriginCallback(env, Some(origin)) ==
            if env.allowedOrigin == Some(origin) || DomainOrigin(origin, true)
            then Allow else Deny(CorsRejection)
  {
    var raw := RawAllowList(env.allowedOrigin);
    var head := [raw[0]];
    assert |raw| == 3 && raw[1] == DomainRegex(false) && raw[2] == DomainRegex(true);
    assert raw == head + [DomainRegex(false), DomainRegex(true)];
    FilterTruthyAppend(head, [DomainRegex(false), DomainRegex(true)]);
    var list := FilterTruthy(raw);
    assert FilterTruthy([DomainRegex(false), DomainRegex(true)])
           == [DomainRegex(false), DomainRegex(true)];
    SomeMatchesMeaning(list, origin);
    StrictPatternSubsumed(origin);
    DomainRegexTestMeaning(true, origin);
    if env.allowedOrigin == Some(origin) {
      assert Str(origin) in list;
    }
    if DomainOrigin(origin, true) {
      assert DomainRegex(true) in list;
    }
  }

  /** An unset or empty ALLOWED_ORIGIN is removed by `filter(Boolean)`: only
      the two patterns remain, so the exact entry never admits anything. */
  lemma EmptyAllowedOriginDropped(env: Env)
    requires env.allowedOrigin == None || env.allowedOrigin == Some("")
    ensures FilterTruthy(RawAllowList(env.allowedOrigin)) == [DomainRegex(false), DomainRegex(true)]
  {
    var raw := RawAllowList(env.allowedOrigin);
    assert !Truthy(raw[0]);
    assert raw[1..] == [DomainRegex(false), DomainRegex(true)];
    assert FilterTruthy([DomainRegex(true)]) == [DomainRegex(true)];
  }

  lemma EmptyAllowedOriginAdmitsOnlyDomain(env: Env, origin: string)
    requires IsProduction(env.nodeEnv) && origin != ""
    requires env.allowedOrigin == None || env.allowedOrigin == Some("")
    ensures OriginCallback(env, Some(origin)) == Allow <==> DomainOrigin(origin, true)
  {
    ProductionDecision(env, origin);
  }

  /** Removing the strict pattern leaves the decision unchanged on every
      input: it is redundant beside the optional-slash pattern. */
  lemma StrictPatternRedundant(env: Env, origin: Option<string>)
    ensures OriginCallback(env, origin)
            == DecideWith([RawAllowList(env.allowedOrigin)[0], DomainRegex(true)], env.nodeEnv, origin)
  {
    var raw := RawAllowList(env.allowedOrigin);
    var head := [raw[0]];
    assert |raw| == 3 && raw[1] == DomainRegex(false) && raw[2] == DomainRegex(true);
    assert raw == head + [DomainRegex(false), DomainRegex(true)];
    FilterTruthyAppend(head, [DomainRegex(false), DomainRegex(true)]);
    FilterTruthyAppend(head, [DomainRegex(true)]);
    assert FilterTruthy([DomainRegex(false), DomainRegex(true)])
           == [DomainRegex(false)] + [DomainRegex(true)];
    assert FilterTruthy([DomainRegex(true)]) == [DomainRegex(true)];
    if origin.Some? {
      var o := origin.value;
      SomeMatchesAppend(FilterTruthy(head), [DomainRegex(false)] + [DomainRegex(true)], o);
      SomeMatchesAppend(FilterTruthy(head), [DomainRegex(true)], o);
      SomeMatchesAppend([DomainRegex(false)], [DomainRegex(true)], o);
      StrictPatternSubsumed(o);
    }
  }

  /** Allow-list monotonicity: inserting an entry anywhere in the list can
      turn a Deny into an Allow but never an Allow into a Deny. */
  lemma AllowListMonotone(before: seq<Allowed>, after: seq<Allowed>, extra: Allowed,
                          nodeEnv: Option<string>, origin: Option<string>)
    ensures DecideWith(before + after, nodeEnv, origin) == Allow
            ==> DecideWith(before + [extra] + after, nodeEnv, origin) == Allow
  {
    if origin.Some? {
      var o := origin.value;
      FilterTruthyAppend(before, after);
      FilterTruthyAppend(before + [extra], after);
      FilterTruthyAppend(before, [extra]);
      SomeMatchesAppend(FilterTruthy(before), FilterTruthy(after), o);
      SomeMatchesAppend(FilterTruthy(before) + FilterTruthy([extra]), FilterTruthy(after), o);
      SomeMatchesAppend(FilterTruthy(before), FilterTruthy([extra]), o);
    }
  }
}
