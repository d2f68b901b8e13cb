/**
 * The server address the client talks to: the configured URL without a trailing `/api`, or the
 * local development server when nothing is configured. The configured value is a parameter.
 */
module ApiConfig {
  import opened Wrappers

  const DefaultBaseUrl: string := "http://localhost:8000"
  const ApiSuffix: string := "/api"

  predicate EndsWith(s: string, suffix: string) {
    |suffix| <= |s| && s[|s| - |suffix|..] == suffix
  }

  /** `getApiBaseUrl`: an empty or missing setting falls back to the default; one trailing `/api` is removed. */
  function GetApiBaseUrl(env: Option<string>): (r: string)
    ensures env.None? || env == Some("") ==> r == DefaultBaseUrl
    ensures env.Some? && EndsWith(env.value, ApiSuffix) ==> r + ApiSuffix == env.value
    ensures env.Some? && env.value != "" && !EndsWith(env.value, ApiSuffix) ==> r == env.value
  {
    match env
    case None => DefaultBaseUrl
    case Some(url) =>
      if url == "" then DefaultBaseUrl
      else if EndsWith(url, ApiSuffix) then url[..|url| - 4]
      else url
  }

  /** `getAuthUrl`: the authentication routes under the base URL. */
  function GetAuthUrl(env: Option<string>): (r: string)
    ensures env.None? || env == Some("") ==> r == "http://localhost:8000/api/auth"
    ensures env.Some? && EndsWith(env.value, ApiSuffix) ==> r == env.value + "/auth"
    ensures env.Some? && env.value != "" && !EndsWith(env.value, ApiSuffix) ==> r == env.value + "/api/auth"
  {
    var base := GetApiBaseUrl(env);
    assert env.Some? && EndsWith(env.value, ApiSuffix) ==> base + "/api/auth" == (base + ApiSuffix) + "/auth";
    base + "/api/auth"
  }

  /** Configuring a server either with or without the `/api` suffix gives the same base URL. */
  lemma {:induction false} SuffixIsOptional(base: string)
    requires base != "" && !EndsWith(base, ApiSuffix)
    ensures GetApiBaseUrl(Some(base + ApiSuffix)) == GetApiBaseUrl(Some(base)) == base
  {
    var url := base + ApiSuffix;
    assert url[|url| - 4..] == ApiSuffix;
    assert url[..|url| - 4] == base;
  }

  /** Only one suffix is removed: a URL ending in `/api/api` keeps one `/api`. */
  lemma OneSuffixRemoved()
    ensures GetApiBaseUrl(Some("http://h/api/api")) == "http://h/api"
  {
    var url := "http://h/api/api";
    assert url[|url| - 4..] == ApiSuffix;
    assert url[..|url| - 4] == "http://h/api";
  }
}
