# alx-backend-python, modelled in Dafny

This project models four pieces of the `alx-backend-python` exercises and
proves their properties:

- **`GithubOrgClient`** (`client.py`, module `Client`). It builds the
  organisation URL from `ORG_URL` and fetches the organisation payload
  (`org`). It reads its `repos_url` (`_public_repos_url`), fetches the
  repository listing and returns the repository names (`public_repos`),
  optionally only those with a given license key (`has_license` and the
  filtered comprehension). `get_json` is an oracle `fetch: Json -> Option<Json>`;
  `None` stands for a call that raises. Every operation also returns the
  `get_json` arguments it used, in order, so "one request for the listing" and
  "`org` is fetched again on each read" can be stated.
- **`utils.py`** (module `Utils`). `access_nested_map` is a loop proved against
  the recursive walk `Walk`. `memoize` is a class `Instance` whose attribute
  dictionary holds the cached values, with a ghost count of how often each
  wrapped method ran.
- **`1-batch_processing.py`** (module `BatchProcessing`). The table is a
  fixed sequence of rows. `paginate_users(b, o)` is the `LIMIT b OFFSET o`
  window of that sequence. `stream_users_in_batches` is a method whose loop
  collects the batches the generator yields. `batch_processing` is two nested
  loops proved to print exactly the users older than 25.
- **`chats/middleware.py`** (module `Middleware`). `RestrictAccessByTimeMiddleware`
  forwards a request only between 18:00 and 21:00, both ends included.
  `RequestLoggingMiddleware` labels the user for its log line and always
  forwards the request. The clock reading is a parameter.

The decoded JSON values and the Python behaviour the client and `utils.py` rely
on are in module `Json`:
- truthiness,
- `d.get(k)`, `d[k]`,
- the exceptions `KeyError`, `TypeError`, `AttributeError` and a failed request.

`client_examples.dfy` (module `ClientExamples`) states the cases of
`test_client.py` and `fixtures.py` as lemmas.

`GithubOrgClient.org` is a plain property (`client.py:25-29`), not memoized: every read
fetches again (`Client.PublicReposTwice`, `Client.PublicReposFollowsOrgPayload`).

## Model

| member | source | states |
|---|---|---|
| Json.DictGet | 0x03-Unittests_and_integration_tests/client.py:34 | `.get` fails with `AttributeError` exactly on non-dicts; on a dict it gives the entry under the key, or `None` when the key is absent |
| Json.Subscript | 0x03-Unittests_and_integration_tests/client.py:49 | `v[key]` succeeds exactly on a dict holding the key and returns that entry; `KeyError(key)` on a dict without it; `TypeError` on anything else |
| Utils.Walk | 0x03-Unittests_and_integration_tests/utils.py:3-9 | whenever the walk raises, the error is a `KeyError` whose key is one of the path's keys |
| Utils.AccessNestedMap | 0x03-Unittests_and_integration_tests/utils.py:5-9 | the loop rebinding the current value returns or raises exactly what the recursive walk does |
| Utils.WalkEmpty | 0x03-Unittests_and_integration_tests/utils.py:5-9 | the empty path returns the mapping unchanged |
| Utils.WalkStep | 0x03-Unittests_and_integration_tests/utils.py:5-8 | for a dict holding `k`, walking `[k] + rest` is walking `rest` from `m[k]` |
| Utils.WalkNotMapping | 0x03-Unittests_and_integration_tests/utils.py:6-7 | a current value that is not a dict raises `KeyError` with the key about to be looked up |
| Utils.WalkMissingKey | 0x03-Unittests_and_integration_tests/utils.py:8 | a dict lacking the key raises `KeyError` with that key |
| Utils.WalkAppend | 0x03-Unittests_and_integration_tests/utils.py:5-9 | walking `p1 + p2` is walking `p2` from where `p1` ended, and a failure on `p1` is the failure of the whole walk |
| Utils.WalkFailsAt | 0x03-Unittests_and_integration_tests/utils.py:5-8 | a failing walk fails at a position whose prefix succeeds and whose value is not a dict or lacks the key, and raises that key |
| Utils.AttrNamesDistinct | 0x03-Unittests_and_integration_tests/utils.py:20 | differently named methods get different cache attributes `"_" + name` |
| Utils.Instance.constructor | 0x03-Unittests_and_integration_tests/utils.py:24 | a new object has no cached attribute and no method has run |
| Utils.Instance.Memoized | 0x03-Unittests_and_integration_tests/utils.py:22-26 | without a stored value the method runs once: a returned value is stored under `"_" + name` and returned, a raised exception propagates and nothing is stored; with a stored value that value is returned, nothing changes and nothing runs |
| Utils.ReadTwice | 0x03-Unittests_and_integration_tests/utils.py:24-26 | two reads on a new object: when the first run returns, both reads give its value and the method runs once; when it raises, the second read runs the method again and gives that run's outcome |
| Utils.SeparateInstances | 0x03-Unittests_and_integration_tests/utils.py:25 | each object runs its own method and keeps its own value; another object's cache does not leak into it |
| Client.FormatFillsField | 0x03-Unittests_and_integration_tests/client.py:28 | on a template whose only braces are one `{}` field, `str.format` puts the argument in place of the field and copies the rest |
| Client.OrgUrlTemplate | 0x03-Unittests_and_integration_tests/client.py:19 | `ORG_URL` is a brace-free API prefix followed by a single `{}` and nothing else |
| Client.OrgUrlIsPrefixPlusName | 0x03-Unittests_and_integration_tests/client.py:19-28 | the organisation URL is `"https://api.github.com/orgs/"` followed by the organisation name |
| Client.NamesOf | 0x03-Unittests_and_integration_tests/client.py:49 | the unfiltered comprehension succeeds exactly when every repository is a dict with a `name`; it then has one name per repository, in order |
| Client.LicensedNamesOf | 0x03-Unittests_and_integration_tests/client.py:51-55 | the filtered comprehension returns at most as many names as there are repositories |
| Client.GithubOrgClient.Org | 0x03-Unittests_and_integration_tests/client.py:25-29 | `org` makes one request, for the organisation URL, and returns its payload unchanged or its failure |
| Client.GithubOrgClient.PublicReposUrl | 0x03-Unittests_and_integration_tests/client.py:31-34 | `_public_repos_url` makes `org`'s request and returns the payload's `repos_url`; `None` when absent; `AttributeError` for a payload that is not a dict; `org`'s failure otherwise |
| Client.GithubOrgClient.PublicRepos | 0x03-Unittests_and_integration_tests/client.py:36-55 | `public_repos` first requests the organisation; a failing `_public_repos_url` fails it with no further request; otherwise exactly one more request follows, for that URL; a result needs that request to have succeeded |
| Client.GithubOrgClient.HasLicense | 0x03-Unittests_and_integration_tests/client.py:57-70 | `has_license` raises exactly for a non-dict repository or a license that is neither `None` nor a dict; it is true exactly when the license is a dict whose `key` equals the given key |
| Client.FilterAgreesWithHasLicense | 0x03-Unittests_and_integration_tests/client.py:51-70 | on licenses that are absent, `None` or dicts, the filtered comprehension equals the names of the repositories `has_license` accepts |
| Client.LicensedNamesAreSubsequence | 0x03-Unittests_and_integration_tests/client.py:48-55 | the filtered names are a subsequence of the unfiltered names |
| Client.UnlicensedRepoIgnored | 0x03-Unittests_and_integration_tests/client.py:54 | a repository with a falsy license is skipped without error: removing it leaves the filtered result unchanged |
| Client.PublicReposOfListing | 0x03-Unittests_and_integration_tests/client.py:47-55 | once `_public_repos_url` gives `url`, `public_repos` lists the payload fetched at `url`, after exactly that one extra request |
| Client.PublicReposAllNames | 0x03-Unittests_and_integration_tests/client.py:47-49 | without a key, `public_repos` returns the name of every fetched repository, in fetched order, with the same length |
| Client.PublicReposFilterIsSubsequence | 0x03-Unittests_and_integration_tests/client.py:47-55 | with a key, `public_repos` returns a subsequence of what it returns without one |
| Client.ListNamesFilterIsSubsequence | 0x03-Unittests_and_integration_tests/client.py:48-55 | for any listing payload, the filtered names are a subsequence of the unfiltered names |
| Client.PublicReposMatchesHasLicense | 0x03-Unittests_and_integration_tests/client.py:51-70 | with a key, and licenses that are absent, `None` or dicts, `public_repos` returns the names of the repositories `has_license` accepts |
| Client.PublicReposTwice | 0x03-Unittests_and_integration_tests/client.py:25-29 | `org` is not cached: two `public_repos` calls on one client request the organisation URL twice |
| Client.PublicReposFollowsOrgPayload | 0x03-Unittests_and_integration_tests/client.py:31-34 | each `public_repos` call requests the organisation and then the `repos_url` of the payload that request returns |
| Client.MissingReposUrlFails | 0x03-Unittests_and_integration_tests/client.py:34 | an organisation payload without `repos_url` makes `public_repos` request `None`, and a raising request fails the call with that failure |
| ClientExamples.LicensedNamesStep | 0x03-Unittests_and_integration_tests/client.py:51-55 | the filter over `[repo] + rest` keeps `repo`'s name first exactly when its license matches |
| ClientExamples.RepoFacts | 0x03-Unittests_and_integration_tests/client.py:54 | a `None` license never matches; a non-empty license dict matches exactly when its key is the given key |
| ClientExamples.LicenseFacts | 0x03-Unittests_and_integration_tests/fixtures.py:12 | a license dict `{"key": k}` is a non-empty dict with key `k` |
| ClientExamples.FixtureListing | 0x03-Unittests_and_integration_tests/fixtures.py:11-20 | the fixture listing has names `repo1`…`repo4`; `apache-2.0` keeps `repo1` and `repo3` |
| ClientExamples.FixtureNames | 0x03-Unittests_and_integration_tests/fixtures.py:11-18 | the names of the fixture listing are `repo1`…`repo4`, in order |
| ClientExamples.FixtureApacheNames | 0x03-Unittests_and_integration_tests/fixtures.py:11-20 | the fixture repositories with `apache-2.0` are `repo1` and `repo3` |
| ClientExamples.FourRepoNames | 0x03-Unittests_and_integration_tests/client.py:49 | a listing of four named repositories gives their four names in order, whatever their licenses |
| ClientExamples.FourReposLicensed | 0x03-Unittests_and_integration_tests/client.py:51-55 | in a listing shaped like the fixture's, the filter keeps the first and third names, which carry the key, and skips another key and a `None` license |
| ClientExamples.GoogleOrg | 0x03-Unittests_and_integration_tests/test_client.py:34-42 | `org` for `google` makes one request, for `https://api.github.com/orgs/google`, and returns its payload unchanged |
| ClientExamples.FixtureReposUrl | 0x03-Unittests_and_integration_tests/test_client.py:44-56 | against the fixtures, `_public_repos_url` is the `repos_url` of the `google` payload, after one request |
| ClientExamples.FixturePublicRepos | 0x03-Unittests_and_integration_tests/fixtures.py:18 | against the fixtures, `public_repos()` returns all four names in order |
| ClientExamples.FixtureRequests | 0x03-Unittests_and_integration_tests/test_client.py:76-77 | against the fixtures, `public_repos` requests the organisation and then its `repos_url`, once each |
| ClientExamples.FixturePublicReposApache | 0x03-Unittests_and_integration_tests/fixtures.py:20 | against the fixtures, `public_repos("apache-2.0")` returns `repo1`, `repo3` |
| ClientExamples.ListingOf | 0x03-Unittests_and_integration_tests/client.py:47-55 | over a list listing, `public_repos` is the unfiltered or filtered comprehension on it |
| ClientExamples.LicenseKeyIsCaseSensitive | 0x03-Unittests_and_integration_tests/client.py:70 | license keys compare exactly: `mit` matches `mit`, not `MIT` |
| ClientExamples.MyLicenseListing | 0x03-Unittests_and_integration_tests/test_client.py:79-94 | in the license-filter test's listing only `repo1` has `my_license` |
| ClientExamples.HasLicenseCases | 0x03-Unittests_and_integration_tests/test_client.py:96-105 | `has_license` accepts the matching key and refuses another key and a `None` license |
| ClientExamples.NoLicenseIsNoMatch | 0x03-Unittests_and_integration_tests/client.py:67-69 | `has_license` is false for a `None` or missing license |
| ClientExamples.FilterAndHasLicenseDifferOnFalsyLicense | 0x03-Unittests_and_integration_tests/client.py:54 | for a license `""` the filter skips the repository while `has_license` raises `AttributeError` |
| BatchProcessing.PaginateUsers | python-generators-0x00/1-batch_processing.py:9 | a page past the end is empty; otherwise it has `min(batch_size, rows left)` rows |
| BatchProcessing.PageRows | python-generators-0x00/1-batch_processing.py:9 | row `i` of the page at `offset` is row `offset + i` of the table |
| BatchProcessing.ConcatSnoc | python-generators-0x00/1-batch_processing.py:22 | yielding one more batch appends its rows to the rows yielded so far |
| BatchProcessing.StreamUsersInBatches | python-generators-0x00/1-batch_processing.py:15-23 | the offsets are 0, b, 2b, …; each yielded batch is the page at its offset and is non-empty with at most b rows; the page after the last is empty; for b > 0 the batches laid end to end are the whole table in order; b = 0 yields nothing |
| BatchProcessing.OffsetsSnoc | python-generators-0x00/1-batch_processing.py:17-23 | the next offset queried is the next multiple of the batch size |
| BatchProcessing.NextPage | python-generators-0x00/1-batch_processing.py:19-23 | a non-empty page at `offset` extends the rows read so far to the first `offset + b` rows, or to the whole table |
| BatchProcessing.Over25 | python-generators-0x00/1-batch_processing.py:30 | no more users are printed than rows read |
| BatchProcessing.Over25AreOlder | python-generators-0x00/1-batch_processing.py:30 | every printed user is older than 25 |
| BatchProcessing.BatchProcessing | python-generators-0x00/1-batch_processing.py:26-31 | for b > 0, exactly the users of the table older than 25 are printed, in table order; for b = 0 nothing is |
| BatchProcessing.PrintOlderUsers | python-generators-0x00/1-batch_processing.py:28-31 | the nested loops print the over-25 users of the batches laid end to end, in order |
| BatchProcessing.Over25Step | python-generators-0x00/1-batch_processing.py:29-31 | one more row of the batch is printed after the others exactly when its age is over 25 |
| BatchProcessing.ConcatPrefix | python-generators-0x00/1-batch_processing.py:28 | the rows of the first i + 1 batches are those of the first i followed by batch i |
| BatchProcessing.Over25Snoc | python-generators-0x00/1-batch_processing.py:29-31 | one more row is printed last exactly when it is over 25 |
| BatchProcessing.Over25Append | python-generators-0x00/1-batch_processing.py:28-31 | the filter of a concatenation is the concatenation of the filters, so how the rows are batched does not change what is printed |
| BatchProcessing.Over25Counts | python-generators-0x00/1-batch_processing.py:30 | each user older than 25 is printed as often as it occurs, any other user never |
| Middleware.Micros | Django-Middleware-0x03/chats/middleware.py:33 | a clock time is less than a day of microseconds after midnight |
| Middleware.FromMicros | Django-Middleware-0x03/chats/middleware.py:33 | turning microseconds since midnight into a time of day and back gives the same count |
| Middleware.FromMicrosOfMicros | Django-Middleware-0x03/chats/middleware.py:33 | a time of day is determined by its microseconds since midnight |
| Middleware.MicrosInjective | Django-Middleware-0x03/chats/middleware.py:33 | different times of day have different microsecond counts |
| Middleware.LessEqIsMicros | Django-Middleware-0x03/chats/middleware.py:40 | the field-by-field `<=` of `datetime.time` is `<=` on microseconds since midnight, both directions |
| Middleware.SecondsOrder | Django-Middleware-0x03/chats/middleware.py:40 | earlier in whole seconds means earlier by the field order and in microseconds |
| Middleware.InWindowIsMicros | Django-Middleware-0x03/chats/middleware.py:36-40 | a time passes the gate exactly when it lies between 18:00 and 21:00 inclusive |
| Middleware.InWindowByFields | Django-Middleware-0x03/chats/middleware.py:36-40 | the window is every time from 18:00 to 20:59:59.999999, plus exactly 21:00:00.000000 |
| Middleware.WindowEdges | Django-Middleware-0x03/chats/middleware.py:36-40 | 18:00:00.000000 and 21:00:00.000000 pass; 17:59:59.999999 and 21:00:00.000001 are refused |
| Middleware.RestrictAccessByTimeMiddleware.Call | Django-Middleware-0x03/chats/middleware.py:31-46 | refused exactly outside [18:00, 21:00], with the fixed message and without calling `get_response`; inside, `get_response` is called once and its response returned |
| Middleware.GateIgnoresRequest | Django-Middleware-0x03/chats/middleware.py:40 | whether the gate refuses depends only on the time, not on the request or the next handler |
| Middleware.UserLabel | Django-Middleware-0x03/chats/middleware.py:19 | the user's name when authenticated, `Anonymous` otherwise |
| Middleware.LogMessage | Django-Middleware-0x03/chats/middleware.py:20 | the log line is the clock reading, then ` - User: `, the user label and ` - Path: `, then the request path |
| Middleware.RequestLoggingMiddleware.Call | Django-Middleware-0x03/chats/middleware.py:18-23 | `get_response` is called exactly once and its response returned unchanged, with the log line for the request |
| Middleware.LoggingInFrontOfGate | Django-Middleware-0x03/chats/middleware.py:18-46 | the logging middleware in front of the gate returns the gate's decision unchanged and logs every request, refused or not |

## Left out

- `get_json` in `client.py` and `utils.py`, with its HTTP request, status check and JSON decoding. It is the oracle `fetch`. A raising call, whatever the cause, is the single error `RequestFailed(url)`.
- The oracle is not constrained on URLs that are not strings. `requests.get(None)` always raises, so `public_repos` for an organisation without `repos_url` always fails; the general lemmas also admit an oracle that returns a payload for `None`, and `Client.MissingReposUrlFails` states the outcome for one that raises.
- Client.FormatFillsField: `str.format` is modelled only for templates whose braces are one `{}` field; escaped braces (`{{`, `}}`), numbered or named fields and the `ValueError` of a stray brace are not modelled. `ORG_URL` is such a template.
- JSON numbers are integers; floating-point values are not modelled.
- Iteration order of dict keys: a listing that is a dict is modelled only by whether it is empty, since iterating a non-empty one fails on its first key whichever key comes first.
- Utils.Instance.Memoized: attributes found on the class rather than the instance (`hasattr` also sees those) are not modelled; the cache is the instance's own attribute dictionary.
- The database connection, cursor and SQL text of `paginate_users`; a query without `ORDER BY` is taken to return rows in a fixed order, and the table does not change between queries.
- The laziness of the generator: the model collects the batches it would yield; a consumer stopping early is not modelled.
- A negative `batch_size`: `batchSize` is a `nat`, since MySQL rejects a negative `LIMIT`.
- `age` is a `DECIMAL` column; the model takes whole numbers, which is what `seed.py` stores.
- `print(user)` is modelled as appending the user to the output sequence.
- `datetime.now()` is the parameter `now`; time zones are not modelled.
- The file logger of `middleware.py` (handler, formatter, level and the write itself); the log line is returned instead of written, and the rendering of the timestamp is a string parameter.
- `str(request.user)` for an authenticated user is taken to be the user name.
- The status code of `HttpResponseForbidden` belongs to Django and is not modelled; the response carries only its body.
- `seed.py`, `0-stream_users.py`, `4-stream_ages.py`, the context-manager and decorator exercises, and the Django views, models, signals, serializers, permissions, filters, pagination and URL configurations are not part of this model.
