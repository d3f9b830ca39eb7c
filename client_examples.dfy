/**
 * The concrete cases the client's tests and fixtures exercise, stated as
 * lemmas about the model of `GithubOrgClient`.
 */
module ClientExamples {
  import opened Json
  import opened Client

  function Repo(name: string, license: Json): Json {
    JObject(map["name" := JStr(name), "license" := license])
  }

  function License(key: string): Json {
    JObject(map["key" := JStr(key)])
  }

  const ORG_PAYLOAD := JObject(map[
    "login" := JStr("google"),
    "id" := JNum(1342004),
    "repos_url" := JStr("https://api.github.com/orgs/google/repos")])

  const REPOS_PAYLOAD := JArray([
    Repo("repo1", License("apache-2.0")),
    Repo("repo2", License("mit")),
    Repo("repo3", License("apache-2.0")),
    Repo("repo4", JNull)])

  /** A `get_json` that serves the fixtures' organisation and listing payloads. */
  predicate ServesFixtures(fetch: Fetcher) {
    && fetch(JStr("https://api.github.com/orgs/google")) == Some(ORG_PAYLOAD)
    && fetch(JStr("https://api.github.com/orgs/google/repos")) == Some(REPOS_PAYLOAD)
  }

  /** One step of the filtered comprehension over `[repo] + rest`. */
  lemma LicensedNamesStep(repo: Json, rest: seq<Json>, licenseKey: string)
    requires repo.JObject? && "name" in repo.fields && LicenseMatches(repo, licenseKey).Ok?
    requires LicensedNamesOf(rest, licenseKey).Ok?
    ensures LicensedNamesOf([repo] + rest, licenseKey) ==
            Ok((if LicenseMatches(repo, licenseKey).value then [repo.fields["name"]] else []) +
               LicensedNamesOf(rest, licenseKey).value)
  {
    var repos := [repo] + rest;
    assert repos[0] == repo && repos[1..] == rest;
    var names := LicensedNamesOf(rest, licenseKey).value;
    if LicenseMatches(repo, licenseKey).value {
      assert Subscript(repo, "name") == Ok(repo.fields["name"]);
      assert LicensedNamesOf(repos, licenseKey) == Ok([repo.fields["name"]] + names);
    } else {
      assert LicensedNamesOf(repos, licenseKey) == Ok(names);
      assert [] + names == names;
    }
  }

  /** How the filter and `has_license` see a repository built by `Repo`. */
  lemma RepoFacts(name: string, license: Json, licenseKey: string)
    ensures Repo(name, license).JObject? && "name" in Repo(name, license).fields
    ensures Repo(name, license).fields["name"] == JStr(name)
    ensures Lookup(Repo(name, license).fields, "license") == license
    ensures license == JNull ==> LicenseMatches(Repo(name, license), licenseKey) == Ok(false)
    ensures license.JObject? && "key" in license.fields && |license.fields| != 0 ==>
              LicenseMatches(Repo(name, license), licenseKey) == Ok(license.fields["key"] == JStr(licenseKey))
  {
  }

  lemma LicenseFacts(key: string)
    ensures License(key).JObject? && "key" in License(key).fields && |License(key).fields| != 0
    ensures License(key).fields["key"] == JStr(key)
  {
  }

  /** The fixture listing: all four names, and `repo1`, `repo3` for `apache-2.0`. */
  lemma FixtureListing()
    ensures NamesOf(REPOS_PAYLOAD.items) == Ok([JStr("repo1"), JStr("repo2"), JStr("repo3"), JStr("repo4")])
    ensures LicensedNamesOf(REPOS_PAYLOAD.items, "apache-2.0") == Ok([JStr("repo1"), JStr("repo3")])
  {
    FixtureNames();
    FixtureApacheNames();
  }

  /** The names of the fixture listing, in order. */
  lemma FixtureNames()
    ensures NamesOf(REPOS_PAYLOAD.items) == Ok([JStr("repo1"), JStr("repo2"), JStr("repo3"), JStr("repo4")])
  {
    FourRepoNames("repo1", "repo2", "repo3", "repo4", License("apache-2.0"), License("mit"));
  }

  /** The fixture repositories with the `apache-2.0` license, in order. */
  lemma FixtureApacheNames()
    ensures LicensedNamesOf(REPOS_PAYLOAD.items, "apache-2.0") == Ok([JStr("repo1"), JStr("repo3")])
  {
    assert "mit"[0] != "apache-2.0"[0];
    FourReposLicensed("repo1", "repo2", "repo3", "repo4", "apache-2.0", "mit");
  }

  /** A listing shaped like the fixture's: every repository has a name. */
  lemma FourRepoNames(n1: string, n2: string, n3: string, n4: string, l1: Json, l2: Json)
    ensures NamesOf([Repo(n1, l1), Repo(n2, l2), Repo(n3, l1), Repo(n4, JNull)]) ==
            Ok([JStr(n1), JStr(n2), JStr(n3), JStr(n4)])
  {
    var all := NamesOf([Repo(n1, l1), Repo(n2, l2), Repo(n3, l1), Repo(n4, JNull)]);
    assert all.Ok?;
    assert all.value == [JStr(n1), JStr(n2), JStr(n3), JStr(n4)];
  }

  /** A listing shaped like the fixture's: the first and third repositories carry key `k`, the second another key. */
  lemma FourReposLicensed(n1: string, n2: string, n3: string, n4: string, k: string, other: string)
    requires other != k
    ensures LicensedNamesOf([Repo(n1, License(k)), Repo(n2, License(other)), Repo(n3, License(k)), Repo(n4, JNull)], k) ==
            Ok([JStr(n1), JStr(n3)])
  {
    var r1, r2, r3, r4 := Repo(n1, License(k)), Repo(n2, License(other)), Repo(n3, License(k)), Repo(n4, JNull);
    LicenseFacts(k);
    LicenseFacts(other);
    RepoFacts(n1, License(k), k);
    RepoFacts(n2, License(other), k);
    RepoFacts(n3, License(k), k);
    RepoFacts(n4, JNull, k);
    LicensedNamesStep(r4, [], k);
    assert [r4] + [] == [r4];
    assert LicensedNamesOf([r4], k) == Ok([]);
    assert [r3] + [r4] == [r3, r4];
    LicensedNamesStep(r3, [r4], k);
    assert [JStr(n3)] + [] == [JStr(n3)];
    assert LicensedNamesOf([r3, r4], k) == Ok([JStr(n3)]);
    LicensedNamesStep(r2, [r3, r4], k);
    assert [r2] + [r3, r4] == [r2, r3, r4];
    assert LicensedNamesOf([r2, r3, r4], k) == Ok([JStr(n3)]);
    LicensedNamesStep(r1, [r2, r3, r4], k);
    assert [r1] + [r2, r3, r4] == [r1, r2, r3, r4];
    assert [JStr(n1)] + [JStr(n3)] == [JStr(n1), JStr(n3)];
  }

  /**
   * `org` for `google`: exactly one request, for
   * `https://api.github.com/orgs/google`, whose payload comes back unchanged.
   */
  lemma GoogleOrg(client: GithubOrgClient, fetch: Fetcher, payload: Json)
    requires client.orgName == "google"
    requires fetch(JStr("https://api.github.com/orgs/google")) == Some(payload)
    ensures client.Org(fetch) == Fetched(Ok(payload), [JStr("https://api.github.com/orgs/google")])
  {
    assert "https://api.github.com/orgs/" + "google" == "https://api.github.com/orgs/google";
  }

  /** `_public_repos_url` against the fixtures: the organisation's `repos_url`. */
  lemma FixtureReposUrl(client: GithubOrgClient, fetch: Fetcher)
    requires client.orgName == "google" && ServesFixtures(fetch)
    ensures client.PublicReposUrl(fetch) ==
            Fetched(Ok(JStr("https://api.github.com/orgs/google/repos")), [JStr("https://api.github.com/orgs/google")])
  {
    GoogleOrg(client, fetch, ORG_PAYLOAD);
  }

  /** `public_repos()` against the fixtures: all four names, in fixture order. */
  lemma FixturePublicRepos(client: GithubOrgClient, fetch: Fetcher)
    requires client.orgName == "google" && ServesFixtures(fetch)
    ensures client.PublicRepos(fetch, None).value ==
            Ok([JStr("repo1"), JStr("repo2"), JStr("repo3"), JStr("repo4")])
  {
    FixtureReposUrl(client, fetch);
    FixtureListing();
    ListingOf(client, fetch, None, JStr("https://api.github.com/orgs/google/repos"), REPOS_PAYLOAD.items);
  }

  /** `public_repos` against the fixtures requests the organisation, then its `repos_url`. */
  lemma FixtureRequests(client: GithubOrgClient, fetch: Fetcher, licenseKey: Option<string>)
    requires client.orgName == "google" && ServesFixtures(fetch)
    ensures var requests := client.PublicRepos(fetch, licenseKey).requests;
            && |requests| == 2
            && requests[0] == JStr("https://api.github.com/orgs/google")
            && requests[1] == JStr("https://api.github.com/orgs/google/repos")
  {
    var reposUrl := JStr("https://api.github.com/orgs/google/repos");
    FixtureReposUrl(client, fetch);
    PublicReposOfListing(client, fetch, licenseKey, reposUrl, REPOS_PAYLOAD);
  }

  /** `public_repos("apache-2.0")` against the fixtures: `repo1` and `repo3`. */
  lemma FixturePublicReposApache(client: GithubOrgClient, fetch: Fetcher)
    requires client.orgName == "google" && ServesFixtures(fetch)
    ensures client.PublicRepos(fetch, Some("apache-2.0")).value == Ok([JStr("repo1"), JStr("repo3")])
  {
    var reposUrl := JStr("https://api.github.com/orgs/google/repos");
    FixtureReposUrl(client, fetch);
    FixtureListing();
    ListingOf(client, fetch, Some("apache-2.0"), reposUrl, REPOS_PAYLOAD.items);
  }

  /** `public_repos` over a listing that is a list of repositories. */
  lemma ListingOf(client: GithubOrgClient, fetch: Fetcher, licenseKey: Option<string>, url: Json, repos: seq<Json>)
    requires client.PublicReposUrl(fetch).value == Ok(url)
    requires fetch(url) == Some(JArray(repos))
    ensures client.PublicRepos(fetch, licenseKey).requests == client.PublicReposUrl(fetch).requests + [url]
    ensures client.PublicRepos(fetch, licenseKey).value ==
            if licenseKey.None? then NamesOf(repos) else LicensedNamesOf(repos, licenseKey.value)
  {
    PublicReposOfListing(client, fetch, licenseKey, url, JArray(repos));
  }

  /** The license key is compared exactly: `mit` matches, `MIT` does not. */
  lemma LicenseKeyIsCaseSensitive()
    ensures GithubOrgClient.HasLicense(Repo("a", License("mit")), "mit") == Ok(true)
    ensures GithubOrgClient.HasLicense(Repo("a", License("mit")), "MIT") == Ok(false)
    ensures LicensedNamesOf([Repo("a", License("mit")), Repo("b", License("apache-2.0")), Repo("c", JNull)], "mit") ==
            Ok([JStr("a")])
    ensures LicensedNamesOf([Repo("a", License("mit")), Repo("b", License("apache-2.0")), Repo("c", JNull)], "MIT") ==
            Ok([])
  {
    var a, b, c := Repo("a", License("mit")), Repo("b", License("apache-2.0")), Repo("c", JNull);
    LicenseFacts("apache-2.0");
    LicenseFacts("mit");
    RepoFacts("a", License("mit"), "mit");
    RepoFacts("b", License("apache-2.0"), "mit");
    RepoFacts("c", JNull, "mit");
    RepoFacts("a", License("mit"), "MIT");
    RepoFacts("b", License("apache-2.0"), "MIT");
    RepoFacts("c", JNull, "MIT");
    assert [c] + [] == [c] && [b] + [c] == [b, c] && [a] + [b, c] == [a, b, c];
    LicensedNamesStep(c, [], "mit");
    LicensedNamesStep(c, [], "MIT");
    assert LicensedNamesOf([c], "mit") == Ok([]) && LicensedNamesOf([c], "MIT") == Ok([]);
    LicensedNamesStep(b, [c], "mit");
    LicensedNamesStep(b, [c], "MIT");
    assert LicensedNamesOf([b, c], "mit") == Ok([]) && LicensedNamesOf([b, c], "MIT") == Ok([]);
    LicensedNamesStep(a, [b, c], "mit");
    LicensedNamesStep(a, [b, c], "MIT");
    assert [JStr("a")] + [] == [JStr("a")];
  }

  /** The listing of the license-filter test: only `repo1` carries `my_license`. */
  lemma MyLicenseListing()
    ensures LicensedNamesOf([Repo("repo1", License("my_license")), Repo("repo2", License("other_license")),
                             Repo("repo3", JNull)], "my_license") == Ok([JStr("repo1")])
  {
    var k := "my_license";
    var a, b, c := Repo("repo1", License(k)), Repo("repo2", License("other_license")), Repo("repo3", JNull);
    LicenseFacts(k);
    LicenseFacts("other_license");
    RepoFacts("repo1", License(k), k);
    RepoFacts("repo2", License("other_license"), k);
    RepoFacts("repo3", JNull, k);
    assert [c] + [] == [c] && [b] + [c] == [b, c] && [a] + [b, c] == [a, b, c];
    LicensedNamesStep(c, [], k);
    assert LicensedNamesOf([c], k) == Ok([]);
    LicensedNamesStep(b, [c], k);
    assert LicensedNamesOf([b, c], k) == Ok([]);
    LicensedNamesStep(a, [b, c], k);
    assert [JStr("repo1")] + [] == [JStr("repo1")];
  }

  /** The three repositories of the `has_license` test: only the matching key is accepted. */
  lemma HasLicenseCases()
    ensures GithubOrgClient.HasLicense(JObject(map["license" := License("my_license")]), "my_license") == Ok(true)
    ensures GithubOrgClient.HasLicense(JObject(map["license" := License("other_license")]), "my_license") == Ok(false)
    ensures GithubOrgClient.HasLicense(JObject(map["license" := JNull]), "my_license") == Ok(false)
  {
    LicenseFacts("my_license");
    LicenseFacts("other_license");
  }

  /** `has_license` on a `None` license, or on a repository with no `license` entry, is false. */
  lemma NoLicenseIsNoMatch(licenseKey: string)
    ensures GithubOrgClient.HasLicense(JObject(map["license" := JNull]), licenseKey) == Ok(false)
    ensures GithubOrgClient.HasLicense(JObject(map["name" := JStr("repo1")]), licenseKey) == Ok(false)
  {
  }

  /**
   * The filter tests truthiness where `has_license` tests `is None`: for a
   * license that is an empty string the filter skips the repository while
   * `has_license` raises, so their agreement needs licenses that are absent,
   * `None` or dicts.
   */
  lemma FilterAndHasLicenseDifferOnFalsyLicense()
    ensures LicensedNamesOf([Repo("a", JStr(""))], "mit") == Ok([])
    ensures GithubOrgClient.HasLicense(Repo("a", JStr("")), "mit") == Err(AttributeError)
  {
  }
}
