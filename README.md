# sentry-loader, modelled in Dafny

sentry-loader serves the Sentry JavaScript SDK loader script for a
self-hosted Sentry. A request for `/js-sdk-loader/<public key>.js` (or
`.min.js`) is resolved as follows:

1. The handler requests the upstream's project listing, once, with no
   pagination.
2. It lists each project's client keys, in order, and stops at the first
   project that holds the requested public key.
3. It builds that project's DSN and renders the loader template with the
   key, the SDK bundle URL and a JSON configuration that embeds the DSN.

The project models the four pieces of that logic:

- `dsn_builder.dfy` (`module DsnBuilder`) is the DSN builder of
  `src/sentry_dsn_builder.rs`: `<scheme>://<key>@<host>/<project>`. It
  proves the scheme rule, where each part lands, the default builder, and a
  round trip through a DSN reader in both directions.
- `templates.dfy` (`module Templates`) covers `build` / `build_minified` of
  `src/template_files.rs`:
  - the serialised `SentryJavascriptConfig`, with the JSON string escaping
    of the DSN and a reader that undoes it;
  - the five `str::replace` calls in their fixed order.

  For templates made of inert literal text and placeholder slots, it proves
  that rendering fills every slot with its value, leaves no placeholder
  behind, and shows the DSN verbatim.
- `sentry_client.dfy` (`module Client`) covers the client of
  `src/sentry_client.rs`:
  - `new`, with its authorization-header rule, as a method;
  - the four `list_*` operations as functions from the response the
    upstream gave to the result the client returns;
  - the request URLs, with a proof that the key-listing URL identifies its
    project.
- `loader.dfy` (`module Loader`) is the handler `loader_with_public_key` of
  `src/main.rs`, written as a method with the handler's nested loops over
  projects and keys.
  - It returns the outcome and the log of URLs it requested.
  - It is proved equal to a specification function `Resolve`. Lemmas about
    `Resolve` state the first-match rule, the 404 and panic conditions, and
    the request order.
- `text.dfy` (`module Text`) holds the string operations the code relies
  on: `str::replace` as a left-to-right, non-overlapping replace-all, plus
  `starts_with`, `ends_with` and `contains`.
- `results.dfy` (`module Results`) holds `Option` and `Result`.

The upstream Sentry API is a parameter of the handler: a pair of functions
from request URL to the response received. Each response is either a
transport failure or a status code with the outcome of decoding the body.
An `unwrap` on an upstream error is the outcome `Panic(error)`.

Rendering is pure: `Build` and `BuildMinified` are functions of the
template pair and the three inserted values. Repeated calls with equal
arguments therefore agree, and the templates are never changed.

## Model

| member | source | states |
|---|---|---|
| DsnBuilder.Default | src/sentry_dsn_builder.rs:7-14 | definition: hostname `localhost:9000`, not secure |
| DsnBuilder.BuildDsn | src/sentry_dsn_builder.rs:17-28 | the DSN is exactly as long as its scheme, key, hostname and project identifier together, plus the five characters `://`, `@` and `/`; `DsnAfterScheme` splits it into the scheme prefix chosen by the flag and `<key>@<hostname>/<project>` |
| DsnBuilder.SchemeFollowsSecure | src/sentry_dsn_builder.rs:20-23 | the DSN starts with `https://` exactly when the builder is secure, and with `http://` exactly when it is not, whatever the key, host and project |
| DsnBuilder.DsnEmbedsParts | src/sentry_dsn_builder.rs:17-28 | the key sits right after the scheme prefix, then `@`, the hostname and `/` at fixed positions, and the DSN ends with the project identifier; nothing is escaped |
| DsnBuilder.DefaultDsn | src/sentry_dsn_builder.rs:7-14 | the default builder composes `http://<key>@localhost:9000/<project>` |
| DsnBuilder.DefaultDsnExample | src/sentry_dsn_builder.rs:7-28 | the default builder with key `pub123` and project `proj1` gives `http://pub123@localhost:9000/proj1` |
| DsnBuilder.ParseBuildDsn | src/sentry_dsn_builder.rs:17-28 | a DSN built from a key without `@` and a hostname without `/` reads back as the security flag, key, hostname and project it was built from |
| DsnBuilder.BuildParsedDsn | src/sentry_dsn_builder.rs:17-28 | every string that reads as a DSN is the DSN that the builder composes from the parts it reads as |
| Templates.JsonEscape | src/template_files.rs:21-27 | definition: serde_json's string escaping, character by character; `UnescapeJsonEscape` proves a reader undoes it |
| Templates.ConfigJson | src/template_files.rs:9-27 | definition: the serialised `SentryJavascriptConfig`, `{"dsn":` and the quoted escaped DSN, then the three sampling fields; its shape is stated by `ConfigJsonShape` |
| Templates.Render | src/template_files.rs:29-35 | definition: the five `replace` calls in the source's order: key, SDK URL, configuration of the DSN, `false`, and the empty string for the load directive; `RenderFillsSlots` states what it yields |
| Templates.Build | src/template_files.rs:20-36 | definition: `Render` on the standard template body |
| Templates.BuildMinified | src/template_files.rs:38-54 | definition: `Render` on the minified template body |
| Templates.ConfigJsonShape | src/template_files.rs:9-27 | the configuration is `{"dsn":"`, the escaped DSN, then `","tracesSampleRate":1,"replaysSessionSampleRate":0.1,"replaysOnErrorSampleRate":1}` in field order, and the quoted part reads back as the DSN |
| Templates.UnescapeJsonEscape | src/template_files.rs:21-27 | the JSON string escaping of any DSN reads back as that DSN |
| Templates.ConfigJsonPlain | src/template_files.rs:21-27 | a DSN with nothing to escape appears verbatim in the configuration, right after `{"dsn":"` |
| Templates.ConfigJsonInert | src/template_files.rs:21-27 | the configuration of a DSN without `{` cannot begin a placeholder |
| Templates.MinifiedIsBuildOfMinBody | src/template_files.rs:38-54 | `build_minified` is `build` run on the minified template body; the two agree when the bodies do |
| Templates.RenderWithoutPlaceholders | src/template_files.rs:29-35 | a template that contains none of the five placeholders is returned unchanged |
| Templates.SubstituteStep | src/template_files.rs:31-35 | one `replace` of the chain fills exactly the slots of its own placeholder and leaves later placeholders in place |
| Templates.ChainFills | src/template_files.rs:29-35 | the five replacements, in the source's order, fill every slot of a template made of inert text and placeholders |
| Templates.RenderFillsSlots | src/template_files.rs:20-36 | on such a template, with inert values, the output is the template with each placeholder replaced by its value: the key, the SDK URL, the configuration, `false`, and nothing for the load directive |
| Templates.RenderWithoutBraces | src/template_files.rs:20-36 | values without `{` are inserted as they are |
| Templates.RenderLeavesNoPlaceholder | src/template_files.rs:29-35 | under the same conditions no placeholder is left in the output |
| Templates.RenderShowsDsn | src/template_files.rs:20-35 | with a config slot and a DSN without `{` and without characters to escape, the DSN appears verbatim in the rendered loader |
| Templates.TokensDiffer | src/template_files.rs:31-35 | the five placeholder strings are pairwise different, and differ early (at their second or fourth character) |
| Client.ProjectsUrl | src/sentry_client.rs:107 | definition: `<upstream>/api/0/projects/` |
| Client.KeysUrl | src/sentry_client.rs:160-163 | definition: `<upstream>/api/0/projects/<org>/<project>/keys/`; `ParseKeysUrlOfKeysUrl` reads it back |
| Client.Default | src/sentry_client.rs:13-20 | the default client sends no authorization header |
| Client.New | src/sentry_client.rs:61-79 | an authorization header `Bearer <token>`, marked sensitive, is installed exactly when the token is non-empty; there are no other headers; a token that is not a valid header value makes `new` fail |
| Client.ListOrganization | src/sentry_client.rs:80-104 | `Ok` exactly on a 2xx response whose body decoded, with one slug per record in order; otherwise the error the response explains: `RequestError`, `JsonParsingError`, or `StatusCodeNotSuccessful` with the status, 404 included |
| Client.ListProjects | src/sentry_client.rs:106-129 | `Ok` exactly on a decoded 2xx response, with one (organization slug, project slug) pair per record, same length and order; every other status, 404 included, is `StatusCodeNotSuccessful` |
| Client.ListProjectsByOrganizationId | src/sentry_client.rs:130-153 | the same classification, with one project slug per record in order |
| Client.ListProjectClientKeys | src/sentry_client.rs:155-191 | `Ok` exactly on a decoded 2xx response or a 404; the public keys in order on success; `Ok([])` on 404; any other failure is the error the response explains |
| Client.ListingsDifferOnlyOnNotFound | src/sentry_client.rs:179-187 | the key listing and the project listing classify the same response alike, except a 404: there the key listing gives `Ok([])` and the project listing `StatusCodeNotSuccessful(404)` |
| Client.NeverResponseError | src/sentry_client.rs:21-27 | no listing ever fails with `ResponseError` |
| Client.ParseKeysUrlOfKeysUrl | src/sentry_client.rs:160-163 | the key-listing URL `<upstream>/api/0/projects/<org>/<project>/keys/` reads back as its organization and project, for slugs without `/` |
| Client.KeysUrlInjective | src/sentry_client.rs:160-163 | different projects are asked for at different key-listing URLs |
| Loader.ParseSegment | src/main.rs:105-118 | the segment is a loader request exactly when it ends with `.js`, and asks for the minified loader exactly when it ends with `.min.js` |
| Loader.ParseSegmentOfKey | src/main.rs:105-111 | `<key>.js` and `<key>.min.js` give back the key, for a key without `.` |
| Loader.ParseSegmentKeepsOut | src/main.rs:106-110 | stripping the suffix adds no character to the key |
| Loader.ParseMinifiedExample | src/main.rs:105-108 | `abc123.min.js` is the minified loader of key `abc123` |
| Loader.ParseRepeatedSuffixExample | src/main.rs:109-110 | every occurrence of `.js` is removed, so `k.js.js` names key `k` |
| Loader.ParseNoSuffixExample | src/main.rs:111-118 | `abc123` is not a loader request |
| Loader.ParsePlainExamples | src/main.rs:109-110 | `abc123.js` and `zzz.js` are plain loader requests for `abc123` and `zzz` |
| Loader.Search | src/main.rs:130-172 | definition: the search over projects in order; each project's key listing is requested, and an error ends it as `Aborted`, a listing holding the key as `Found`, and running out of projects as `Exhausted`; the log is the key-listing URLs in order |
| Loader.SearchStop | src/main.rs:130-172 | the search stops at the first project whose key listing fails or holds the key. Before that it has requested the key listings of exactly the projects up to that one, in order. It is exhausted, having requested every project's keys, when there is no such project |
| Loader.SearchExhaustedIff | src/main.rs:130-172 | the search is exhausted exactly when every key listing succeeds without the key, and then every project's keys were requested once, in order |
| Loader.SearchEndsAt | src/main.rs:130-170 | the first project that fails or holds the key ends the search there, with `Found` or with `Aborted` and its error, after requesting exactly the listings up to it |
| Loader.KeyListingStatus | src/main.rs:132-136 | a 404 from a key listing moves on to the next project; a 5xx aborts the search with that status |
| Loader.SdkUrl | src/main.rs:145-154 | the SDK URL starts with `https://` exactly when HTTPS is used, has the public hostname right after the scheme, and ends with `/<version>/bundle.tracing.replay.min.js` |
| Loader.SearchProjects | src/main.rs:130-172 | the nested loops over projects and keys end as the search does, with the same key-listing URLs requested in the same order |
| Loader.LoaderBody | src/main.rs:142-167 | definition: the minified template rendered when `.min.js` was asked for and the standard one otherwise, with the key, the SDK URL and the DSN of the project's slug (`LoaderBodyTemplate` unfolds it to `Render`) |
| Loader.Resolve | src/main.rs:101-180 | definition: the reply and request log of the handler; no `.js` suffix gives 404 with no request; a failed project listing panics after that one request; otherwise the search decides between 200 with the loader, 404, and a panic (`ResolveListed` unfolds the listed case) |
| Loader.LoaderWithPublicKey | src/main.rs:101-180 | the handler's outcome and request log are those of `Resolve`; a segment without `.js` gets the 404 before any request |
| Loader.ResolveReplies | src/main.rs:101-180 | every reply is either 200 `text/javascript` or 404 `text/plain` `Not found` |
| Loader.ResolveWithoutSuffix | src/main.rs:111-118 | a segment without `.js` gets `Not found` with no upstream request |
| Loader.ResolveServesFirstMatch | src/main.rs:139-169 | the first project listing the key is served with 200 and the loader for that project's slug; only the project listing and the key listings up to that project were requested, in order |
| Loader.ResolveNotFound | src/main.rs:174-179 | 404 exactly when the segment has no `.js` suffix, or the projects are listed and no key listing fails or holds the key; in the latter case every project's keys were requested once, in order |
| Loader.ResolveAborts | src/main.rs:123-136 | a failed project listing, or a failed key listing reached before a match, makes the request panic with that error, never a 404 |
| Loader.DsnAndSdkUrlAgree | src/main.rs:142-154 | with the DSN builder configured from the public hostname and the HTTPS flag, the DSN and the SDK URL share scheme and hostname |
| Loader.ServedBodyShowsDsn | src/main.rs:142-167 | for a template of inert text and placeholders with a config slot, the served body contains the matching project's DSN verbatim |
| Loader.DefaultsOfMain | src/main.rs:33-75 | building the state as `main` does with no environment set, with the client made by `new` from `http://web:9000` and an empty token, gives `DefaultState` |
| Loader.DefaultState | src/main.rs:33-66 | with no environment set, the DSN builder uses the public hostname, HTTPS is off, and the client sends no headers |
| Loader.ExampleServed | src/main.rs:130-169 | with the defaults and projects `frontend`, `web`, `mobile`, key `abc123` held by `web` is served from `web` after listing the keys of `frontend` and `web` only |
| Loader.ExampleAborted | src/main.rs:132-136 | an unknown key runs into a 500 from `mobile`'s key listing and panics with it instead of answering 404 |
| Loader.ExampleDsn | src/main.rs:142-144 | with the defaults, key `abc123` of project `web` has DSN `http://abc123@selfhosted.sentry.dev/web` |
| Text.ReplaceAll | src/template_files.rs:31-35 | definition: `str::replace` with a non-empty pattern, a left-to-right scan replacing non-overlapping occurrences (also used at src/main.rs:108 and 110) |
| Text.StripSuffix | src/main.rs:106-110 | removing a suffix whose first character does not occur before it leaves exactly the text before the suffix |
| Text.ReplaceAllNoMatch | src/template_files.rs:29-35 | `str::replace` returns a string without the pattern unchanged |
| Text.ReplaceAllOnce | src/template_files.rs:29-35 | `str::replace` on a string with one occurrence replaces it and keeps everything around it |
| Text.ReplaceAllKeepsOut | src/main.rs:106-110 | `str::replace` introduces no character absent from its input and replacement |

## Left out

- `main` (src/main.rs:29-99) is not modelled. It reads the environment and the template files, sets up the router, CORS and the bundle directory, and binds the listener. Its configuration is a parameter `AppState`; `DefaultState` is the configuration built when no variable is set.
- The reqwest transport, `async`/`await` and the client builder are not modelled. A response is a transport failure or a status with a decoding outcome. `ClientBuilder::build().unwrap()` is treated as never failing.
- The serde decoding of upstream bodies is not modelled; a body is the decoded records or a failure message.
- Each upstream response is determined by the request URL alone. Headers, timing and changes between requests are not modelled.
- The error text carried by `RequestError` and `JsonParsingError` is not modelled; it is an arbitrary string.
- The `Display` implementation of `SentryError` and the `debug!` logging are not modelled; they are diagnostics only.
- The HTTP status a panicking request ends with is left abstract: the outcome is `Panic(error)`.
- The f32 `0.1` is serialised as the literal `0.1`, the text serde_json writes for it. No floating-point formatting is modelled.
- A header value is modelled as its text and the sensitivity flag only.
- `Client.New`: a header value that fails validation is the `None` result. The character test follows what the HTTP library accepts (tab, and printable characters other than DEL). Any other rejection rule of the library is not modelled.
- `Loader.LoaderWithPublicKey`: the body is rendered after the loops end rather than inside them. Rendering has no effect, so the outcome is the same.
- `Templates.RenderFillsSlots`: the property is not stated as "each placeholder occurs once and no inserted value contains placeholder text". It is stated for templates laid out as literal text and placeholder slots, where no `{` in the text or in a value is followed by `{` or `%`. That hypothesis rules out a placeholder formed across a boundary.
- `Templates.RenderLeavesNoPlaceholder` is stated under that same hypothesis.
- `Loader.ServedBodyShowsDsn` requires a DSN, key and SDK URL without `{`, and a DSN without characters JSON escapes. For other DSNs, `Templates.ConfigJsonShape` states what the configuration holds.
- `list_organization` and `list_projects_by_organization_id` are not called by the handler. They are modelled as classification functions only. Their request URLs (src/sentry_client.rs:81 and 131) are not modelled, because nothing in the model requests them.
