/**
 * `client.py`: `GithubOrgClient`, which fetches an organisation's payload,
 * reads its `repos_url`, fetches the repository listing there and returns
 * the repository names, optionally only those with a given license key.
 *
 * The network is a parameter: `fetch(url)` is what `get_json(url)` returns,
 * or `None` when it raises. Each operation reports, besides its result, the
 * arguments it handed to `get_json`, in call order.
 */
module Client {
  import opened Json

  /** `get_json` as an oracle: the decoded body, or `None` when the call raises. */
  type Fetcher = Json -> Option<Json>

  /** The outcome of an operation and the `get_json` arguments it used. */
  datatype Fetched<+T> = Fetched(value: Result<T>, requests: seq<Json>)

  /** `GithubOrgClient.ORG_URL`, a `str.format` template. */
  const ORG_URL := "https://api.github.com/orgs/{}"

  /** `get_json(url)`: an exception in the call becomes `RequestFailed(url)`. */
  function GetJson(fetch: Fetcher, url: Json): Result<Json> {
    match fetch(url)
    case Some(payload) => Ok(payload)
    case None => Err(RequestFailed(url))
  }

  // ---------------------------------------------------------------------------
  // The URL template

  /**
   * `template.format(arg)` for a template whose only braces are a single
   * `{}` field: the first `{}` is replaced by `arg`, the rest is copied.
   * Escaped braces (`{{`, `}}`), numbered or named fields and stray braces
   * are not interpreted; `FormatFillsField` states where this agrees with
   * `str.format`.
   */
  function Format(template: string, arg: string): string
    decreases |template|
  {
    if |template| < 2 then template
    else if template[0] == '{' && template[1] == '}' then arg + template[2..]
    else [template[0]] + Format(template[1..], arg)
  }

  /**
   * On a template whose only braces are one `{}` field, formatting puts the
   * argument exactly where the field was.
   */
  lemma {:induction false} FormatFillsField(prefix: string, suffix: string, arg: string)
    requires NoBraces(prefix) && NoBraces(suffix)
    ensures Format(prefix + "{}" + suffix, arg) == prefix + arg + suffix
    decreases |prefix|
  {
    var t := prefix + "{}" + suffix;
    if prefix == [] {
      assert t == "{}" + suffix;
      assert t[2..] == suffix;
    } else {
      assert t[0] == prefix[0] != '{';
      assert t[1..] == prefix[1..] + "{}" + suffix;
      FormatFillsField(prefix[1..], suffix, arg);
      assert [prefix[0]] + (prefix[1..] + arg + suffix) == prefix + arg + suffix;
    }
  }

  /** `ORG_URL` is a brace-free prefix followed by one `{}` field and nothing else. */
  lemma OrgUrlTemplate()
    ensures ORG_URL == "https://api.github.com/orgs/" + "{}" + ""
    ensures NoBraces("https://api.github.com/orgs/") && NoBraces("")
  {
  }

  /** `s` has no `{` and no `}`. */
  predicate NoBraces(s: string) {
    forall i :: 0 <= i < |s| ==> s[i] != '{' && s[i] != '}'
  }

  /** The organisation URL is the API prefix followed by the organisation name. */
  lemma OrgUrlIsPrefixPlusName(orgName: string)
    ensures Format(ORG_URL, orgName) == "https://api.github.com/orgs/" + orgName
  {
    OrgUrlTemplate();
    FormatFillsField("https://api.github.com/orgs/", "", orgName);
  }

  // ---------------------------------------------------------------------------
  // Repository payloads

  /** `[repo["name"] for repo in repos]` over a list of repositories. */
  function NamesOf(repos: seq<Json>): (r: Result<seq<Json>>)
    ensures r.Ok? <==> forall i :: 0 <= i < |repos| ==> repos[i].JObject? && "name" in repos[i].fields
    ensures r.Ok? ==> |r.value| == |repos|
    ensures r.Ok? ==> forall i :: 0 <= i < |repos| ==> r.value[i] == repos[i].fields["name"]
  {
    if repos == [] then Ok([])
    else match Subscript(repos[0], "name")
      case Err(e) => Err(e)
      case Ok(name) =>
        match NamesOf(repos[1..])
        case Err(e) => Err(e)
        case Ok(names) => Ok([name] + names)
  }

  /** The filter `repo.get("license") and repo["license"].get("key") == licenseKey`. */
  function LicenseMatches(repo: Json, licenseKey: string): Result<bool> {
    match DictGet(repo, "license")
    case Err(e) => Err(e)
    case Ok(license) =>
      if !Truthy(license) then Ok(false)
      else match DictGet(license, "key")
        case Err(e) => Err(e)
        case Ok(key) => Ok(key == JStr(licenseKey))
  }

  /**
   * The filtered comprehension over a list of repositories: the condition is
   * evaluated first and `repo["name"]` only for repositories that pass it.
   */
  function LicensedNamesOf(repos: seq<Json>, licenseKey: string): (r: Result<seq<Json>>)
    ensures r.Ok? ==> |r.value| <= |repos|
  {
    if repos == [] then Ok([])
    else match LicenseMatches(repos[0], licenseKey)
      case Err(e) => Err(e)
      case Ok(false) => LicensedNamesOf(repos[1..], licenseKey)
      case Ok(true) =>
        match Subscript(repos[0], "name")
        case Err(e) => Err(e)
        case Ok(name) =>
          match LicensedNamesOf(repos[1..], licenseKey)
          case Err(e) => Err(e)
          case Ok(names) => Ok([name] + names)
  }

  /**
   * Iterating the fetched payload. A list is visited item by item. Iterating
   * a dict or a string visits strings (its keys or characters), on which both
   * `repo["name"]` (a `TypeError`) and `repo.get` (an `AttributeError`) fail,
   * so only an empty one gets through; any other value is not iterable.
   */
  function ListNames(payload: Json, licenseKey: Option<string>): Result<seq<Json>> {
    var failure := if licenseKey.None? then TypeError else AttributeError;
    match payload
    case JArray(repos) =>
      if licenseKey.None? then NamesOf(repos) else LicensedNamesOf(repos, licenseKey.value)
    case JObject(fields) => if fields == map[] then Ok([]) else Err(failure)
    case JStr(s) => if s == "" then Ok([]) else Err(failure)
    case _ => Err(TypeError)
  }

  /** `b` keeps every element of `a`, in the same order. */
  predicate IsSubsequence(a: seq<Json>, b: seq<Json>)
    decreases |b|
  {
    a == [] || (b != [] && ((a[0] == b[0] && IsSubsequence(a[1..], b[1..])) || IsSubsequence(a, b[1..])))
  }

  // ---------------------------------------------------------------------------
  // The client

  datatype GithubOrgClient = GithubOrgClient(orgName: string) {

    /**
     * `org`: one `get_json` call on the organisation URL, whose payload is
     * returned unchanged. It is a plain property: every read fetches again.
     */
    function Org(fetch: Fetcher): (r: Fetched<Json>)
      ensures r.requests == [JStr("https://api.github.com/orgs/" + orgName)]
      ensures r.value == GetJson(fetch, JStr("https://api.github.com/orgs/" + orgName))
    {
      OrgUrlIsPrefixPlusName(orgName);
      var url := JStr(Format(ORG_URL, orgName));
      Fetched(GetJson(fetch, url), [url])
    }

    /**
     * `_public_repos_url`: `self.org.get("repos_url")`, a fresh read of `org`;
     * a missing entry reads as `None`, a payload that is not a dict raises.
     */
    function PublicReposUrl(fetch: Fetcher): (r: Fetched<Json>)
      ensures r.requests == Org(fetch).requests
      ensures Org(fetch).value.Err? ==> r.value == Err(Org(fetch).value.error)
      ensures Org(fetch).value.Ok? ==>
                var payload := Org(fetch).value.value;
                if payload.JObject? then
                  r.value.Ok? &&
                  ("repos_url" in payload.fields ==> r.value.value == payload.fields["repos_url"]) &&
                  ("repos_url" !in payload.fields ==> r.value.value == JNull)
                else r.value == Err(AttributeError)
    {
      var org := Org(fetch);
      match org.value
      case Err(e) => Fetched(Err(e), org.requests)
      case Ok(payload) => Fetched(DictGet(payload, "repos_url"), org.requests)
    }

    /**
     * `public_repos(license_key)`: reads `_public_repos_url`, fetches the
     * listing there once, and returns the repository names, all of them or
     * those with the given license key.
     */
    function PublicRepos(fetch: Fetcher, licenseKey: Option<string>): (r: Fetched<seq<Json>>)
      ensures 1 <= |r.requests| <= 2
      ensures r.requests[0] == JStr("https://api.github.com/orgs/" + orgName)
      ensures var url := PublicReposUrl(fetch);
              && (url.value.Err? ==> r == Fetched(Err(url.value.error), url.requests))
              && (url.value.Ok? ==> r.requests == url.requests + [url.value.value])
              && (r.value.Ok? ==> url.value.Ok? && fetch(url.value.value).Some?)
    {
      var url := PublicReposUrl(fetch);
      match url.value
      case Err(e) => Fetched(Err(e), url.requests)
      case Ok(reposUrl) =>
        var requests := url.requests + [reposUrl];
        match GetJson(fetch, reposUrl)
        case Err(e) => Fetched(Err(e), requests)
        case Ok(payload) => Fetched(ListNames(payload, licenseKey), requests)
    }

    /**
     * `has_license(repo, license_key)`: a repository without a license, or
     * with `None`, has none; otherwise the license's `key` must equal
     * `licenseKey` exactly. Only a non-dict repository, or a license that is
     * neither `None` nor a dict, raises.
     */
    static function HasLicense(repo: Json, licenseKey: string): (r: Result<bool>)
      ensures r.Err? <==>
                !repo.JObject? ||
                (Lookup(repo.fields, "license") != JNull && !Lookup(repo.fields, "license").JObject?)
      ensures r.Err? ==> r.error == AttributeError
      ensures r == Ok(true) <==>
                repo.JObject? && Lookup(repo.fields, "license").JObject? &&
                Lookup(Lookup(repo.fields, "license").fields, "key") == JStr(licenseKey)
    {
      match DictGet(repo, "license")
      case Err(e) => Err(e)
      case Ok(licenseInfo) =>
        if licenseInfo == JNull then Ok(false)
        else match DictGet(licenseInfo, "key")
          case Err(e) => Err(e)
          case Ok(key) => Ok(key == JStr(licenseKey))
    }
  }

  // ---------------------------------------------------------------------------
  // Properties of the filter

  /** A dict repository whose `license` is absent, `None` or a dict. */
  predicate LicenseIsNullOrMapping(repo: Json) {
    repo.JObject? && (Lookup(repo.fields, "license") == JNull || Lookup(repo.fields, "license").JObject?)
  }

  /** The repositories `has_license` accepts for `licenseKey`, in order. */
  function WithLicense(repos: seq<Json>, licenseKey: string): seq<Json> {
    if repos == [] then []
    else
      (if GithubOrgClient.HasLicense(repos[0], licenseKey) == Ok(true) then [repos[0]] else []) +
      WithLicense(repos[1..], licenseKey)
  }

  /**
   * On repositories whose license is absent, `None` or a dict, the filtered
   * comprehension gives exactly the names of the repositories `has_license`
   * accepts, and fails exactly when one of those has no name.
   */
  lemma {:induction false} FilterAgreesWithHasLicense(repos: seq<Json>, licenseKey: string)
    requires forall i :: 0 <= i < |repos| ==> LicenseIsNullOrMapping(repos[i])
    ensures LicensedNamesOf(repos, licenseKey) == NamesOf(WithLicense(repos, licenseKey))
    decreases |repos|
  {
    if repos != [] {
      var repo, rest := repos[0], repos[1..];
      FilterAgreesWithHasLicense(rest, licenseKey);
      var accepted := GithubOrgClient.HasLicense(repo, licenseKey) == Ok(true);
      assert LicenseMatches(repo, licenseKey) == Ok(accepted);
      if accepted {
        var w := [repo] + WithLicense(rest, licenseKey);
        assert WithLicense(repos, licenseKey) == w;
        assert w[0] == repo && w[1..] == WithLicense(rest, licenseKey);
      } else {
        assert WithLicense(repos, licenseKey) == WithLicense(rest, licenseKey);
      }
    }
  }

  /** Whenever both succeed, the filtered names keep the unfiltered names' order. */
  lemma {:induction false} LicensedNamesAreSubsequence(repos: seq<Json>, licenseKey: string)
    requires NamesOf(repos).Ok? && LicensedNamesOf(repos, licenseKey).Ok?
    ensures IsSubsequence(LicensedNamesOf(repos, licenseKey).value, NamesOf(repos).value)
    decreases |repos|
  {
    if repos != [] {
      var rest := repos[1..];
      LicensedNamesAreSubsequence(rest, licenseKey);
      var all, kept := NamesOf(repos).value, LicensedNamesOf(repos, licenseKey).value;
      assert all == [repos[0].fields["name"]] + NamesOf(rest).value;
      assert all[1..] == NamesOf(rest).value;
      if LicenseMatches(repos[0], licenseKey) == Ok(true) {
        assert kept == [repos[0].fields["name"]] + LicensedNamesOf(rest, licenseKey).value;
        assert kept[1..] == LicensedNamesOf(rest, licenseKey).value;
      }
    }
  }

  /**
   * A repository whose `license` is falsy (absent, `None`, an empty dict, ...)
   * is skipped by the filter without raising: removing it changes nothing.
   */
  lemma {:induction false} UnlicensedRepoIgnored(repos: seq<Json>, i: nat, licenseKey: string)
    requires i < |repos|
    requires repos[i].JObject? && !Truthy(Lookup(repos[i].fields, "license"))
    ensures LicensedNamesOf(repos, licenseKey) == LicensedNamesOf(repos[..i] + repos[i + 1..], licenseKey)
    decreases i
  {
    if i == 0 {
      assert repos[..0] + repos[1..] == repos[1..];
    } else {
      var rest := repos[1..];
      UnlicensedRepoIgnored(rest, i - 1, licenseKey);
      var shorter := repos[..i] + repos[i + 1..];
      assert shorter[0] == repos[0];
      assert shorter[1..] == rest[..i - 1] + rest[i..];
    }
  }

  /**
   * Once `_public_repos_url` has given `url` and the listing there is
   * `payload`, `public_repos` lists the names in `payload` after exactly one
   * more request, for `url`.
   */
  lemma PublicReposOfListing(client: GithubOrgClient, fetch: Fetcher, licenseKey: Option<string>, url: Json, payload: Json)
    requires client.PublicReposUrl(fetch).value == Ok(url)
    requires fetch(url) == Some(payload)
    ensures client.PublicRepos(fetch, licenseKey) ==
            Fetched(ListNames(payload, licenseKey), client.PublicReposUrl(fetch).requests + [url])
  {
  }

  /**
   * Without a license key, `public_repos` returns the `name` of every fetched
   * repository in fetched order, and fails exactly when one has no name.
   */
  lemma PublicReposAllNames(client: GithubOrgClient, fetch: Fetcher, repos: seq<Json>)
    requires client.PublicReposUrl(fetch).value.Ok?
    requires fetch(client.PublicReposUrl(fetch).value.value) == Some(JArray(repos))
    ensures var r := client.PublicRepos(fetch, None).value;
            && (r.Ok? <==> forall i :: 0 <= i < |repos| ==> repos[i].JObject? && "name" in repos[i].fields)
            && (r.Ok? ==> |r.value| == |repos|)
            && (r.Ok? ==> forall i :: 0 <= i < |repos| ==> r.value[i] == repos[i].fields["name"])
  {
  }

  /** With a license key, `public_repos` keeps a subsequence of the unfiltered names. */
  lemma PublicReposFilterIsSubsequence(client: GithubOrgClient, fetch: Fetcher, licenseKey: string)
    requires client.PublicRepos(fetch, None).value.Ok?
    requires client.PublicRepos(fetch, Some(licenseKey)).value.Ok?
    ensures IsSubsequence(client.PublicRepos(fetch, Some(licenseKey)).value.value,
                          client.PublicRepos(fetch, None).value.value)
  {
    var url := client.PublicReposUrl(fetch).value.value;
    ListNamesFilterIsSubsequence(fetch(url).value, licenseKey);
  }

  /** The same for whatever payload the listing request returned. */
  lemma ListNamesFilterIsSubsequence(payload: Json, licenseKey: string)
    requires ListNames(payload, None).Ok? && ListNames(payload, Some(licenseKey)).Ok?
    ensures IsSubsequence(ListNames(payload, Some(licenseKey)).value, ListNames(payload, None).value)
  {
    if payload.JArray? {
      LicensedNamesAreSubsequence(payload.items, licenseKey);
    }
  }

  /**
   * With a license key, and a listing whose licenses are absent, `None` or
   * dicts, `public_repos` returns the names of the repositories `has_license`
   * accepts.
   */
  lemma PublicReposMatchesHasLicense(client: GithubOrgClient, fetch: Fetcher, licenseKey: string, repos: seq<Json>)
    requires client.PublicReposUrl(fetch).value.Ok?
    requires fetch(client.PublicReposUrl(fetch).value.value) == Some(JArray(repos))
    requires forall i :: 0 <= i < |repos| ==> LicenseIsNullOrMapping(repos[i])
    ensures client.PublicRepos(fetch, Some(licenseKey)).value == NamesOf(WithLicense(repos, licenseKey))
  {
    FilterAgreesWithHasLicense(repos, licenseKey);
  }

  /**
   * `org` is not cached: two calls of `public_repos` on one client request
   * the organisation twice.
   */
  lemma PublicReposTwice(client: GithubOrgClient, fetch: Fetcher, licenseKey: Option<string>)
    ensures var first, second := client.PublicRepos(fetch, licenseKey), client.PublicRepos(fetch, licenseKey);
            multiset(first.requests + second.requests)[JStr("https://api.github.com/orgs/" + client.orgName)] >= 2
  {
    var r := client.PublicRepos(fetch, licenseKey);
    var org := JStr("https://api.github.com/orgs/" + client.orgName);
    assert (r.requests + r.requests)[0] == org && (r.requests + r.requests)[|r.requests|] == org;
  }

  /**
   * Every call follows what the organisation URL answers at that call: the
   * listing is requested at the `repos_url` of that answer, so an
   * organisation whose `repos_url` changed between two calls is listed at
   * the new URL.
   */
  lemma PublicReposFollowsOrgPayload(client: GithubOrgClient, fetch: Fetcher, licenseKey: Option<string>, payload: Json)
    requires fetch(JStr("https://api.github.com/orgs/" + client.orgName)) == Some(payload)
    requires payload.JObject? && "repos_url" in payload.fields
    ensures client.PublicRepos(fetch, licenseKey).requests ==
            [JStr("https://api.github.com/orgs/" + client.orgName), payload.fields["repos_url"]]
  {
  }

  /**
   * An organisation payload without `repos_url` makes `public_repos` call
   * `get_json(None)`; when that raises, as `requests.get(None)` does, the
   * call fails with that failure after the two requests.
   */
  lemma MissingReposUrlFails(client: GithubOrgClient, fetch: Fetcher, licenseKey: Option<string>, payload: Json)
    requires fetch(JStr("https://api.github.com/orgs/" + client.orgName)) == Some(payload)
    requires payload.JObject? && "repos_url" !in payload.fields
    requires fetch(JNull) == None
    ensures client.PublicRepos(fetch, licenseKey) ==
            Fetched(Err(RequestFailed(JNull)), [JStr("https://api.github.com/orgs/" + client.orgName), JNull])
  {
  }
}
