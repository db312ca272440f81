/**
 * Where events are posted: the collection endpoint chosen at `init`.
 *
 * `NormalizeApiUrl` drops one trailing "/" (the pattern `/\/$/` without the
 * global flag); `ResolveApiUrl` picks, in order, the explicit `apiUrl`, the
 * caller's per-environment table, the built-in per-environment table, and
 * finally the empty string, which `init` turns into an error.
 */
module Endpoint {
  import opened JsValues

  /** The endpoint-related part of the options given to `init`. */
  datatype EndpointOptions = EndpointOptions(
    apiUrl: Option<string>,
    env: Option<string>,
    apiUrls: map<string, string>)   // a missing `apiUrls` is the empty table

  predicate EndsWithSlash(u: string) {
    |u| > 0 && u[|u| - 1] == '/'
  }

  /** `String(u).replace(/\/$/, "")`. */
  function NormalizeApiUrl(u: string): (r: string)
    ensures u == r || u == r + "/"
    ensures r != u <==> EndsWithSlash(u)
  {
    if EndsWithSlash(u) then u[..|u| - 1] else u
  }

  /** Only one slash goes: "x//" becomes "x/", and a lone "/" becomes "". */
  lemma NormalizeStripsAtMostOne(u: string)
    ensures NormalizeApiUrl(u + "//") == u + "/"
    ensures NormalizeApiUrl("/") == ""
  {
    assert (u + "//")[..|u + "//"| - 1] == u + "/";
  }

  /** `options.env || "production"`. */
  function EnvName(o: EndpointOptions): string {
    OrElse(o.env, "production")
  }

  /** `table[key]` read as a string-or-undefined. */
  function Lookup(table: map<string, string>, key: string): Option<string> {
    if key in table then Some(table[key]) else None
  }

  /** The built-in table of the source module and of both Node builds. */
  const BetterwayUrls: map<string, string> := map[
    "development" := "https://dev-ba.betterwaysys.com",
    "staging" := "https://staging-ba.betterwaysys.com",
    "production" := "https://ba.betterwaysys.com"]

  /** The built-in table of the bundled browser build. */
  const RedprintingUrls: map<string, string> := map[
    "development" := "https://dev-ba.redprinting.net",
    "staging" := "https://stg-ba.redprinting.net",
    "production" := "https://ba.redprinting.net"]

  /** `resolveApiUrl(options)` against the given built-in table. */
  function ResolveApiUrl(o: Option<EndpointOptions>, defaults: map<string, string>): (r: string)
    ensures o.None? ==> r == ""
    ensures o.Some? && Truthy(o.value.apiUrl) ==> r == NormalizeApiUrl(o.value.apiUrl.value)
  {
    if o.None? then ""
    else if Truthy(o.value.apiUrl) then NormalizeApiUrl(o.value.apiUrl.value)
    else
      var env := EnvName(o.value);
      var own := Lookup(o.value.apiUrls, env);
      if Truthy(own) then NormalizeApiUrl(own.value)
      else
        var builtIn := Lookup(defaults, env);
        if Truthy(builtIn) then NormalizeApiUrl(builtIn.value) else ""
  }

  /** The explicit `apiUrl` wins over every table, whatever the environment. */
  lemma ExplicitApiUrlWins(o: EndpointOptions, defaults: map<string, string>, env: Option<string>, table: map<string, string>)
    requires Truthy(o.apiUrl)
    ensures ResolveApiUrl(Some(o.(env := env, apiUrls := table)), defaults) == ResolveApiUrl(Some(o), defaults)
  {
  }

  /** Without an explicit URL, the caller's table entry for the environment beats the built-in one. */
  lemma CallerTableBeatsBuiltIn(o: EndpointOptions, defaults: map<string, string>)
    requires !Truthy(o.apiUrl)
    requires EnvName(o) in o.apiUrls && o.apiUrls[EnvName(o)] != ""
    ensures ResolveApiUrl(Some(o), defaults) == NormalizeApiUrl(o.apiUrls[EnvName(o)])
  {
  }

  /**
   * Without an explicit URL and without a usable caller entry for the
   * environment (none at all, entries for other environments only, or an
   * empty one), the built-in entry is used, and "" when it is missing too.
   */
  lemma FallsBackToBuiltIn(o: EndpointOptions, defaults: map<string, string>)
    requires !Truthy(o.apiUrl)
    requires EnvName(o) !in o.apiUrls || o.apiUrls[EnvName(o)] == ""
    ensures EnvName(o) in defaults && defaults[EnvName(o)] != "" ==>
      ResolveApiUrl(Some(o), defaults) == NormalizeApiUrl(defaults[EnvName(o)])
    ensures EnvName(o) !in defaults || defaults[EnvName(o)] == "" ==> ResolveApiUrl(Some(o), defaults) == ""
  {
  }

  /** A missing or empty `env` means "production". */
  lemma EnvDefaultsToProduction(o: EndpointOptions, defaults: map<string, string>)
    requires !Truthy(o.env)
    ensures ResolveApiUrl(Some(o), defaults) == ResolveApiUrl(Some(o.(env := Some("production"))), defaults)
  {
  }

  /**
   * With nothing but a known environment name, both built-in tables give a
   * non-empty endpoint, so `init` does not fail; any other name with no
   * explicit URL and no caller table resolves to "".
   */
  lemma BuiltInTablesCoverKnownEnvs(env: string)
    ensures env in {"development", "staging", "production"} ==>
      ResolveApiUrl(Some(EndpointOptions(None, Some(env), map[])), BetterwayUrls) == BetterwayUrls[env] &&
      ResolveApiUrl(Some(EndpointOptions(None, Some(env), map[])), RedprintingUrls) == RedprintingUrls[env] &&
      BetterwayUrls[env] != "" && RedprintingUrls[env] != ""
    ensures env != "" && env !in {"development", "staging", "production"} ==>
      ResolveApiUrl(Some(EndpointOptions(None, Some(env), map[])), BetterwayUrls) == "" &&
      ResolveApiUrl(Some(EndpointOptions(None, Some(env), map[])), RedprintingUrls) == ""
  {
    if env in {"development", "staging", "production"} {
      assert !EndsWithSlash(BetterwayUrls[env]) && !EndsWithSlash(RedprintingUrls[env]);
    }
  }

  /** An explicit URL made only of "/" resolves to "" and so still fails `init`. */
  lemma SlashOnlyApiUrlResolvesEmpty(o: EndpointOptions, defaults: map<string, string>)
    requires o.apiUrl == Some("/")
    ensures ResolveApiUrl(Some(o), defaults) == ""
  {
  }
}
