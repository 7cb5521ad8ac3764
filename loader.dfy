/**
 * The request handler `loader_with_public_key` of src/main.rs: from the last
 * path segment to a reply, by way of the upstream's project list and the key
 * list of each project in turn. The upstream is a pair of functions from
 * request URL to the response it gives, and the handler returns, beside its
 * outcome, the URLs it requested in order.
 */
module Loader {
  import opened Results
  import opened Text
  import opened Client
  import DsnBuilder
  import Templates

  /** The configuration the handler reads; `main` fills it from the environment. */
  datatype AppState = AppState(
    sentryPublicHostname: string,
    jsSdkVersion: string,
    useHttps: bool,
    sentryDsnBuilder: DsnBuilder.SentryDsnBuilder,
    sentryClient: SentryClient,
    templateFiles: Templates.TemplateFiles)

  /** What the upstream answers to each GET of a project listing and of a key listing. */
  datatype Upstream = Upstream(
    projectsAt: string -> Response<ListProjectResponse>,
    keysAt: string -> Response<ListProjectClientKeysResponse>)

  /** (organization slug, project slug), as `list_projects` yields them. */
  type ProjectRef = (string, string)

  /** A reply (status, content type, body), or the panic of an `unwrap` on an upstream error. */
  datatype Outcome = Reply(status: StatusCode, contentType: string, body: string) | Panic(error: SentryError)

  const NotFoundReply := Reply(404, "text/plain", "Not found")

  // ----- The path segment -----

  /** The public key the segment names and whether the minified loader was asked for. */
  datatype LoaderRequest = LoaderRequest(publicKey: string, minified: bool)

  /**
   * `.min.js` is tested before `.js`; the suffix is then removed with a
   * replace-all, so every occurrence of it goes, not only the trailing one.
   */
  function ParseSegment(segment: string): (r: Option<LoaderRequest>)
    ensures r.Some? <==> EndsWith(segment, ".js")
    ensures r.Some? ==> (r.value.minified <==> EndsWith(segment, ".min.js"))
  {
    if EndsWith(segment, ".min.js") then
      EndsWithShorter(segment, ".min", ".js");
      Some(LoaderRequest(ReplaceAll(segment, ".min.js", ""), true))
    else if EndsWith(segment, ".js") then Some(LoaderRequest(ReplaceAll(segment, ".js", ""), false))
    else None
  }

  /** Round trip: a key without `.` comes back out of `<key>.js` and `<key>.min.js`. */
  lemma ParseSegmentOfKey(publicKey: string, minified: bool)
    requires '.' !in publicKey
    ensures ParseSegment(publicKey + (if minified then ".min.js" else ".js")) == Some(LoaderRequest(publicKey, minified))
  {
    if minified {
      StripSuffix(publicKey, ".min.js");
    } else {
      StripSuffix(publicKey, ".js");
      var s := publicKey + ".js";
      if |s| >= 7 {
        assert s[|s| - 7..][0] == publicKey[|s| - 7] != '.';
      }
    }
  }

  /** Stripping adds nothing: a character the segment lacks is not in the key either. */
  lemma ParseSegmentKeepsOut(segment: string, c: char)
    requires ParseSegment(segment).Some? && c !in segment
    ensures c !in ParseSegment(segment).value.publicKey
  {
    if EndsWith(segment, ".min.js") {
      ReplaceAllKeepsOut(segment, ".min.js", "", c);
    } else {
      ReplaceAllKeepsOut(segment, ".js", "", c);
    }
  }

  /** `abc123.min.js` asks for the minified loader of key `abc123`. */
  lemma ParseMinifiedExample()
    ensures ParseSegment("abc123.min.js") == Some(LoaderRequest("abc123", true))
  {
    ParseSegmentOfKey("abc123", true);
    assert "abc123" + ".min.js" == "abc123.min.js";
  }

  /** Every `.js` goes, so `k.js.js` names the key `k`. */
  lemma ParseRepeatedSuffixExample()
    ensures ParseSegment("k.js.js") == Some(LoaderRequest("k", false))
  {
    var s := "k.js.js";
    assert !EndsWith(s, ".min.js") && EndsWith(s, ".js") by {
      assert s[0] != '.';
      assert s[4..] == ".js";
    }
    var twice := ".js" + ".js";
    assert s == "k" + twice;
    calc {
      ReplaceAll(s, ".js", "");
      { assert !OccursAt(s, ".js", 0) by { assert s[0] != '.'; }
        ReplaceAllSkip("k", twice, ".js", ""); }
      "k" + ReplaceAll(twice, ".js", "");
      { ReplaceAllHead(".js", ".js", ""); }
      "k" + ("" + ReplaceAll(".js", ".js", ""));
      { assert ".js" == ".js" + [];
        ReplaceAllHead(".js", [], ""); }
      "k" + ("" + ("" + ReplaceAll([], ".js", "")));
      "k";
    }
  }

  /** A segment without a `.js` suffix is not a loader request. */
  lemma ParseNoSuffixExample()
    ensures ParseSegment("abc123") == None
  {
    assert "abc123"[3..] != ".js" by { assert "abc123"[3] != '.'; }
  }

  // ----- The search over projects and keys -----

  /** The key listing of one project, as the client classifies the upstream's answer. */
  function KeysListing(client: SentryClient, up: Upstream, project: ProjectRef): Result<seq<string>, SentryError> {
    ListProjectClientKeys(up.keysAt(KeysUrl(client.upstreamUrl, project.0, project.1)))
  }

  /** The key-listing URLs of the given projects, in order. */
  function KeysRequests(client: SentryClient, projects: seq<ProjectRef>): seq<string> {
    seq(|projects|, j requires 0 <= j < |projects| => KeysUrl(client.upstreamUrl, projects[j].0, projects[j].1))
  }

  /** How the search over the projects ended. */
  datatype SearchOutcome = Found(project: ProjectRef) | Exhausted | Aborted(error: SentryError)

  /** The end of a search and the key-listing URLs it requested, in order. */
  datatype SearchRun = SearchRun(outcome: SearchOutcome, requested: seq<string>)

  /** The nested loops of the handler, one project at a time. */
  function Search(client: SentryClient, up: Upstream, projects: seq<ProjectRef>, publicKey: string): SearchRun
    decreases |projects|
  {
    if projects == [] then SearchRun(Exhausted, [])
    else
      var url := KeysUrl(client.upstreamUrl, projects[0].0, projects[0].1);
      match ListProjectClientKeys(up.keysAt(url))
      case Err(e) => SearchRun(Aborted(e), [url])
      case Ok(keys) =>
        if publicKey in keys then SearchRun(Found(projects[0]), [url])
        else
          var rest := Search(client, up, projects[1..], publicKey);
          SearchRun(rest.outcome, [url] + rest.requested)
  }

  /** The project's keys were listed and the key is not among them, so the search goes on. */
  predicate Passes(client: SentryClient, up: Upstream, project: ProjectRef, publicKey: string) {
    KeysListing(client, up, project).Ok? && publicKey !in KeysListing(client, up, project).value
  }

  /** Every project before the `k`-th lets the search go on. */
  predicate PassedBefore(client: SentryClient, up: Upstream, projects: seq<ProjectRef>, publicKey: string, k: nat)
    requires k <= |projects|
  {
    forall j :: 0 <= j < k ==> Passes(client, up, projects[j], publicKey)
  }

  /**
   * The search stops at the first project whose listing fails or holds the
   * key, having requested the key listings of exactly the projects up to it,
   * in order; it is exhausted when there is no such project.
   */
  lemma {:induction false} SearchStop(client: SentryClient, up: Upstream, projects: seq<ProjectRef>, publicKey: string)
    returns (k: nat)
    ensures k <= |projects| && PassedBefore(client, up, projects, publicKey, k)
    ensures k == |projects| ==> Search(client, up, projects, publicKey) == SearchRun(Exhausted, KeysRequests(client, projects))
    ensures k < |projects| ==> Search(client, up, projects, publicKey).requested == KeysRequests(client, projects[..k + 1])
    ensures k < |projects| ==>
      var listing := KeysListing(client, up, projects[k]);
      || (listing.Err? && Search(client, up, projects, publicKey).outcome == Aborted(listing.error))
      || (listing.Ok? && publicKey in listing.value && Search(client, up, projects, publicKey).outcome == Found(projects[k]))
    decreases |projects|
  {
    if projects == [] {
      k := 0;
    } else {
      var listing := KeysListing(client, up, projects[0]);
      if listing.Err? || publicKey in listing.value {
        k := 0;
        assert KeysRequests(client, projects[..1]) == [KeysUrl(client.upstreamUrl, projects[0].0, projects[0].1)];
      } else {
        var k' := SearchStop(client, up, projects[1..], publicKey);
        k := k' + 1;
        var url := KeysUrl(client.upstreamUrl, projects[0].0, projects[0].1);
        forall j | 0 <= j < k
          ensures Passes(client, up, projects[j], publicKey)
        {
          if j > 0 {
            assert projects[j] == projects[1..][j - 1];
          }
        }
        if k' == |projects[1..]| {
          assert KeysRequests(client, projects) == [url] + KeysRequests(client, projects[1..]);
        } else {
          assert projects[1..][..k' + 1] == projects[..k + 1][1..];
          assert KeysRequests(client, projects[..k + 1]) == [url] + KeysRequests(client, projects[1..][..k' + 1]);
          assert projects[1..][k'] == projects[k];
        }
      }
    }
  }

  /** The search is exhausted exactly when every listing succeeds without the key. */
  lemma SearchExhaustedIff(client: SentryClient, up: Upstream, projects: seq<ProjectRef>, publicKey: string)
    ensures Search(client, up, projects, publicKey).outcome.Exhausted?
        <==> PassedBefore(client, up, projects, publicKey, |projects|)
    ensures Search(client, up, projects, publicKey).outcome.Exhausted?
        ==> Search(client, up, projects, publicKey).requested == KeysRequests(client, projects)
  {
    var k := SearchStop(client, up, projects, publicKey);
    if k < |projects| {
      assert !Passes(client, up, projects[k], publicKey);
    }
  }

  /** The first project whose listing fails or holds the key ends the search there. */
  lemma SearchEndsAt(client: SentryClient, up: Upstream, projects: seq<ProjectRef>, publicKey: string, k: nat)
    requires k < |projects| && PassedBefore(client, up, projects, publicKey, k)
    requires !Passes(client, up, projects[k], publicKey)
    ensures Search(client, up, projects, publicKey).requested == KeysRequests(client, projects[..k + 1])
    ensures KeysListing(client, up, projects[k]).Ok? ==> Search(client, up, projects, publicKey).outcome == Found(projects[k])
    ensures KeysListing(client, up, projects[k]).Err? ==>
      Search(client, up, projects, publicKey).outcome == Aborted(KeysListing(client, up, projects[k]).error)
  {
    var stop := SearchStop(client, up, projects, publicKey);
    if stop < |projects| {
      assert !Passes(client, up, projects[stop], publicKey);
    }
    assert stop == k;
  }

  /** A project whose keys are not found upstream (404) is skipped; a server error ends the search. */
  lemma KeyListingStatus(client: SentryClient, up: Upstream, projects: seq<ProjectRef>, publicKey: string)
    requires projects != [] && up.keysAt(KeysUrl(client.upstreamUrl, projects[0].0, projects[0].1)).Received?
    ensures var response := up.keysAt(KeysUrl(client.upstreamUrl, projects[0].0, projects[0].1));
      var rest := Search(client, up, projects[1..], publicKey);
      && (response.status == NOT_FOUND ==>
            Search(client, up, projects, publicKey)
            == SearchRun(rest.outcome, [KeysUrl(client.upstreamUrl, projects[0].0, projects[0].1)] + rest.requested))
      && (500 <= response.status <= 599 ==>
            Search(client, up, projects, publicKey).outcome == Aborted(StatusCodeNotSuccessful(response.status)))
  {
  }

  /** The key-listing log grows by one URL per project. */
  lemma KeysRequestsStep(client: SentryClient, projects: seq<ProjectRef>, i: nat)
    requires i < |projects|
    ensures KeysRequests(client, projects[..i + 1])
         == KeysRequests(client, projects[..i]) + [KeysUrl(client.upstreamUrl, projects[i].0, projects[i].1)]
  {
  }

  // ----- The reply -----

  /** Where the bundle lives under the version directory. */
  const BUNDLE_PATH := "/bundle.tracing.replay.min.js"

  /** The SDK bundle URL served alongside the loader. */
  function SdkUrl(state: AppState): (url: string)
    ensures StartsWith(url, DsnBuilder.SchemePrefix(state.useHttps))
    ensures StartsWith(url, "https://") <==> state.useHttps
    ensures OccursAt(url, state.sentryPublicHostname, |DsnBuilder.SchemePrefix(state.useHttps)|)
    ensures EndsWith(url, "/" + state.jsSdkVersion + BUNDLE_PATH)
  {
    var protocol := if state.useHttps then "https" else "http";
    var path := "/" + state.jsSdkVersion + BUNDLE_PATH;
    var url := (protocol + "://") + state.sentryPublicHostname + path;
    assert protocol + "://" == DsnBuilder.SchemePrefix(state.useHttps);
    Framed(protocol + "://", state.sentryPublicHostname, path);
    DsnBuilder.SchemeOfPrefixed(state.useHttps, url);
    url
  }

  /** The template body the request asks for. */
  function TemplateFor(files: Templates.TemplateFiles, minified: bool): string {
    if minified then files.jsSdkMinLoader else files.jsSdkLoader
  }

  /** The rendered loader for the matching project. */
  function LoaderBody(state: AppState, request: LoaderRequest, projectId: string): string {
    var dsn := DsnBuilder.BuildDsn(state.sentryDsnBuilder, request.publicKey, projectId);
    if request.minified then Templates.BuildMinified(state.templateFiles, request.publicKey, SdkUrl(state), dsn)
    else Templates.Build(state.templateFiles, request.publicKey, SdkUrl(state), dsn)
  }

  /** The reply for the way the search ended. */
  function Answer(state: AppState, request: LoaderRequest, outcome: SearchOutcome): Outcome {
    match outcome
    case Found(project) => Reply(200, "text/javascript", LoaderBody(state, request, project.1))
    case Exhausted => NotFoundReply
    case Aborted(e) => Panic(e)
  }

  /** What the handler answers to a path segment, and the URLs it requests on the way. */
  function Resolve(state: AppState, up: Upstream, segment: string): (Outcome, seq<string>) {
    match ParseSegment(segment)
    case None => (NotFoundReply, [])
    case Some(request) =>
      var projectsUrl := ProjectsUrl(state.sentryClient.upstreamUrl);
      match ListProjects(up.projectsAt(projectsUrl))
      case Err(e) => (Panic(e), [projectsUrl])
      case Ok(projects) =>
        var run := Search(state.sentryClient, up, projects, request.publicKey);
        (Answer(state, request, run.outcome), [projectsUrl] + run.requested)
  }

  /** Once the segment is read and the projects are listed, the reply is the search's. */
  lemma ResolveListed(state: AppState, up: Upstream, segment: string, request: LoaderRequest, projects: seq<ProjectRef>)
    requires ParseSegment(segment) == Some(request)
    requires ListProjects(up.projectsAt(ProjectsUrl(state.sentryClient.upstreamUrl))) == Ok(projects)
    ensures var run := Search(state.sentryClient, up, projects, request.publicKey);
      Resolve(state, up, segment) == (Answer(state, request, run.outcome), [ProjectsUrl(state.sentryClient.upstreamUrl)] + run.requested)
  {
  }

  /**
   * The nested loops of `loader_with_public_key`: for each project in order,
   * list its keys and compare them in order with the requested one, stopping
   * at the first equal key or the first upstream error.
   */
  method SearchProjects(client: SentryClient, up: Upstream, projects: seq<ProjectRef>, publicKey: string)
    returns (outcome: SearchOutcome, requested: seq<string>)
    ensures SearchRun(outcome, requested) == Search(client, up, projects, publicKey)
  {
    requested := [];
    var i := 0;
    while i < |projects|
      invariant 0 <= i <= |projects|
      invariant PassedBefore(client, up, projects, publicKey, i)
      invariant requested == KeysRequests(client, projects[..i])
    {
      var (organizationId, projectId) := projects[i];
      var keysUrl := KeysUrl(client.upstreamUrl, organizationId, projectId);
      KeysRequestsStep(client, projects, i);
      requested := requested + [keysUrl];
      var clientKeys := ListProjectClientKeys(up.keysAt(keysUrl));
      if clientKeys.Err? {
        SearchEndsAt(client, up, projects, publicKey, i);
        return Aborted(clientKeys.error), requested;
      }
      var keys := clientKeys.value;
      var j := 0;
      while j < |keys|
        invariant 0 <= j <= |keys|
        invariant publicKey !in keys[..j]
      {
        if keys[j] == publicKey {
          SearchEndsAt(client, up, projects, publicKey, i);
          return Found(projects[i]), requested;
        }
        j := j + 1;
      }
      assert keys[..j] == keys;
      i := i + 1;
    }
    SearchExhaustedIff(client, up, projects, publicKey);
    assert projects[..i] == projects;
    return Exhausted, requested;
  }

  /**
   * `loader_with_public_key`: reads the key and the wanted variant off the
   * segment, lists the projects, searches them, and renders the loader for
   * the project whose keys hold the requested one.
   */
  method LoaderWithPublicKey(state: AppState, up: Upstream, segment: string) returns (outcome: Outcome, requested: seq<string>)
    ensures (outcome, requested) == Resolve(state, up, segment)
    ensures !EndsWith(segment, ".js") ==> outcome == NotFoundReply && requested == []
  {
    var minifiedVersion := EndsWith(segment, ".min.js");
    var publicKey := segment;
    if EndsWith(publicKey, ".min.js") {
      publicKey := ReplaceAll(publicKey, ".min.js", "");
    } else if EndsWith(publicKey, ".js") {
      publicKey := ReplaceAll(publicKey, ".js", "");
    } else {
      return NotFoundReply, [];
    }
    var request := LoaderRequest(publicKey, minifiedVersion);
    assert ParseSegment(segment) == Some(request);

    var client := state.sentryClient;
    var projectsUrl := ProjectsUrl(client.upstreamUrl);
    var projectIds := ListProjects(up.projectsAt(projectsUrl));
    if projectIds.Err? {
      return Panic(projectIds.error), [projectsUrl];
    }
    var projects := projectIds.value;
    ResolveListed(state, up, segment, request, projects);
    var searched, keyRequests := SearchProjects(client, up, projects, publicKey);
    requested := [projectsUrl] + keyRequests;
    match searched {
      case Found((_, projectId)) =>
        outcome := Reply(200, "text/javascript", LoaderBody(state, request, projectId));
      case Exhausted =>
        outcome := NotFoundReply;
      case Aborted(error) =>
        outcome := Panic(error);
    }
  }

  // ----- Properties of the handler -----

  /** Every reply is either the loader script (200) or the plain `Not found` (404). */
  lemma ResolveReplies(state: AppState, up: Upstream, segment: string)
    ensures Resolve(state, up, segment).0.Reply? ==>
      || (Resolve(state, up, segment).0.status == 200 && Resolve(state, up, segment).0.contentType == "text/javascript")
      || Resolve(state, up, segment).0 == NotFoundReply
  {
  }

  /** A segment without `.js` is answered 404 before anything is asked of the upstream. */
  lemma ResolveWithoutSuffix(state: AppState, up: Upstream, segment: string)
    requires !EndsWith(segment, ".js")
    ensures Resolve(state, up, segment) == (NotFoundReply, [])
  {
  }

  /**
   * The first project listing the key is served: status 200, the minified or
   * plain loader as asked, with that project's slug in the DSN, after the
   * key listings of exactly the projects up to it were requested in order.
   */
  lemma ResolveServesFirstMatch(state: AppState, up: Upstream, segment: string, projects: seq<ProjectRef>, k: nat)
    requires ParseSegment(segment).Some?
    requires ListProjects(up.projectsAt(ProjectsUrl(state.sentryClient.upstreamUrl))) == Ok(projects)
    requires k < |projects| && PassedBefore(state.sentryClient, up, projects, ParseSegment(segment).value.publicKey, k)
    requires KeysListing(state.sentryClient, up, projects[k]).Ok?
    requires ParseSegment(segment).value.publicKey in KeysListing(state.sentryClient, up, projects[k]).value
    ensures var request := ParseSegment(segment).value;
      Resolve(state, up, segment)
      == (Reply(200, "text/javascript", LoaderBody(state, request, projects[k].1)),
          [ProjectsUrl(state.sentryClient.upstreamUrl)] + KeysRequests(state.sentryClient, projects[..k + 1]))
  {
    SearchEndsAt(state.sentryClient, up, projects, ParseSegment(segment).value.publicKey, k);
  }

  /**
   * The loader body is the minified template when the segment ends in
   * `.min.js` and the plain one otherwise, rendered with the key, the SDK URL
   * and the DSN of the project.
   */
  lemma LoaderBodyTemplate(state: AppState, request: LoaderRequest, projectId: string)
    ensures LoaderBody(state, request, projectId)
         == Templates.Render(TemplateFor(state.templateFiles, request.minified), request.publicKey, SdkUrl(state),
                             DsnBuilder.BuildDsn(state.sentryDsnBuilder, request.publicKey, projectId))
  {
  }

  /**
   * 404 exactly when the segment has no `.js` suffix, or the projects are
   * listed and every key listing succeeds without the key; in the latter case
   * every project's keys were requested once, in order.
   */
  lemma ResolveNotFound(state: AppState, up: Upstream, segment: string)
    ensures Resolve(state, up, segment).0 == NotFoundReply <==>
      || ParseSegment(segment).None?
      || (&& ListProjects(up.projectsAt(ProjectsUrl(state.sentryClient.upstreamUrl))).Ok?
          && var projects := ListProjects(up.projectsAt(ProjectsUrl(state.sentryClient.upstreamUrl))).value;
             PassedBefore(state.sentryClient, up, projects, ParseSegment(segment).value.publicKey, |projects|))
    ensures ParseSegment(segment).Some? && Resolve(state, up, segment).0 == NotFoundReply ==>
      var projects := ListProjects(up.projectsAt(ProjectsUrl(state.sentryClient.upstreamUrl))).value;
      Resolve(state, up, segment).1 == [ProjectsUrl(state.sentryClient.upstreamUrl)] + KeysRequests(state.sentryClient, projects)
  {
    if ParseSegment(segment).Some? {
      var listed := ListProjects(up.projectsAt(ProjectsUrl(state.sentryClient.upstreamUrl)));
      if listed.Ok? {
        SearchExhaustedIff(state.sentryClient, up, listed.value, ParseSegment(segment).value.publicKey);
      }
    }
  }

  /**
   * An upstream error met before a match is never a 404: a failed project
   * listing, or a failed key listing of a project reached by the search,
   * makes the handler panic with that error.
   */
  lemma ResolveAborts(state: AppState, up: Upstream, segment: string)
    requires ParseSegment(segment).Some?
    ensures var listed := ListProjects(up.projectsAt(ProjectsUrl(state.sentryClient.upstreamUrl)));
      listed.Err? ==> Resolve(state, up, segment) == (Panic(listed.error), [ProjectsUrl(state.sentryClient.upstreamUrl)])
    ensures var listed := ListProjects(up.projectsAt(ProjectsUrl(state.sentryClient.upstreamUrl)));
      var publicKey := ParseSegment(segment).value.publicKey;
      forall k: nat | listed.Ok? && k < |listed.value| && PassedBefore(state.sentryClient, up, listed.value, publicKey, k)
                      && KeysListing(state.sentryClient, up, listed.value[k]).Err? ::
        Resolve(state, up, segment).0 == Panic(KeysListing(state.sentryClient, up, listed.value[k]).error)
  {
    var listed := ListProjects(up.projectsAt(ProjectsUrl(state.sentryClient.upstreamUrl)));
    var publicKey := ParseSegment(segment).value.publicKey;
    forall k: nat | listed.Ok? && k < |listed.value| && PassedBefore(state.sentryClient, up, listed.value, publicKey, k)
                    && KeysListing(state.sentryClient, up, listed.value[k]).Err?
      ensures Resolve(state, up, segment).0 == Panic(KeysListing(state.sentryClient, up, listed.value[k]).error)
    {
      SearchEndsAt(state.sentryClient, up, listed.value, publicKey, k);
    }
  }

  /**
   * With the DSN builder configured as `main` does (public hostname, secure
   * exactly when HTTPS is used), the DSN and the SDK URL share scheme and host.
   */
  lemma DsnAndSdkUrlAgree(state: AppState, publicKey: string, projectId: string)
    requires state.sentryDsnBuilder == DsnBuilder.SentryDsnBuilder(state.sentryPublicHostname, state.useHttps)
    ensures var dsn := DsnBuilder.BuildDsn(state.sentryDsnBuilder, publicKey, projectId);
      var prefix := DsnBuilder.SchemePrefix(state.useHttps);
      && StartsWith(dsn, prefix) && StartsWith(SdkUrl(state), prefix)
      && OccursAt(dsn, state.sentryPublicHostname, |prefix| + |publicKey| + 1)
      && OccursAt(SdkUrl(state), state.sentryPublicHostname, |prefix|)
  {
    DsnBuilder.DsnEmbedsParts(state.sentryDsnBuilder, publicKey, projectId);
  }

  /**
   * A template made of inert text and placeholders, with a config slot, serves
   * a body in which the DSN of the matching project appears verbatim.
   */
  lemma ServedBodyShowsDsn(state: AppState, request: LoaderRequest, projectId: string, pieces: seq<Templates.Piece>, k: nat)
    requires TemplateFor(state.templateFiles, request.minified) == Templates.Layout(pieces)
    requires Templates.LitsInert(pieces) && k < |pieces| && pieces[k] == Templates.Slot(Templates.Config)
    requires '{' !in request.publicKey && '{' !in SdkUrl(state)
    requires var dsn := DsnBuilder.BuildDsn(state.sentryDsnBuilder, request.publicKey, projectId);
      '{' !in dsn && forall i :: 0 <= i < |dsn| ==> !Templates.NeedsEscape(dsn[i])
    ensures Contains(LoaderBody(state, request, projectId), DsnBuilder.BuildDsn(state.sentryDsnBuilder, request.publicKey, projectId))
  {
    var dsn := DsnBuilder.BuildDsn(state.sentryDsnBuilder, request.publicKey, projectId);
    var url := SdkUrl(state);
    LoaderBodyTemplate(state, request, projectId);
    var body := Templates.Render(TemplateFor(state.templateFiles, request.minified), request.publicKey, url, dsn);
    assert LoaderBody(state, request, projectId) == body;
    var at := Templates.RenderShowsDsn(pieces, k, request.publicKey, url, dsn);
  }

  // ----- A worked scenario -----

  /** The configuration `main` builds when no environment variable is set. */
  function DefaultState(files: Templates.TemplateFiles): (state: AppState)
    ensures state.sentryDsnBuilder == DsnBuilder.SentryDsnBuilder(state.sentryPublicHostname, state.useHttps)
    ensures !state.useHttps && state.sentryClient.defaultHeaders == map[]
  {
    AppState("selfhosted.sentry.dev", "latest", false,
             DsnBuilder.SentryDsnBuilder("selfhosted.sentry.dev", false),
             Client.Default(), files)
  }

  /**
   * The state `main` assembles when no environment variable is set: the
   * client made by `new` with the compose-internal upstream and an empty
   * token, and the DSN builder over the public hostname and the HTTPS flag.
   * It is the configuration `DefaultState` describes.
   */
  method DefaultsOfMain(files: Templates.TemplateFiles) returns (state: AppState)
    ensures state == DefaultState(files)
  {
    var sentryPublicHostname := "selfhosted.sentry.dev";
    var useHttps := false;
    var sentryAuthToken := "";
    var jsSdkVersion := "latest";
    var sentryClient := Client.New("http://web:9000", sentryAuthToken);
    var sentryDsnBuilder := DsnBuilder.SentryDsnBuilder(sentryPublicHostname, useHttps);
    state := AppState(sentryPublicHostname, jsSdkVersion, useHttps, sentryDsnBuilder, sentryClient.value, files);
  }

  const EXAMPLE_PROJECTS: seq<ProjectRef> := [("acme", "frontend"), ("acme", "web"), ("acme", "mobile")]

  /**
   * An upstream with three projects of organization `acme`: `frontend` holds
   * key `other`, `web` holds `abc123`, and listing the keys of any other
   * project fails with status 500.
   */
  function ExampleUpstream(): Upstream {
    var organization := ListOrganizationResponse("acme");
    var upstreamUrl := Client.Default().upstreamUrl;
    Upstream(
      url => Received(200, Decoded([ListProjectResponse("frontend", organization),
                                    ListProjectResponse("web", organization),
                                    ListProjectResponse("mobile", organization)])),
      url =>
        if url == KeysUrl(upstreamUrl, "acme", "frontend") then Received(200, Decoded([ListProjectClientKeysResponse("other")]))
        else if url == KeysUrl(upstreamUrl, "acme", "web") then Received(200, Decoded([ListProjectClientKeysResponse("abc123")]))
        else Received(500, Undecodable("Internal Server Error")))
  }

  lemma ExampleProjectListing()
    ensures ListProjects(ExampleUpstream().projectsAt(ProjectsUrl(Client.Default().upstreamUrl))) == Ok(EXAMPLE_PROJECTS)
  {
    var organization := ListOrganizationResponse("acme");
    var response := ExampleUpstream().projectsAt(ProjectsUrl(Client.Default().upstreamUrl));
    assert response == Received(200, Decoded([ListProjectResponse("frontend", organization),
                                              ListProjectResponse("web", organization),
                                              ListProjectResponse("mobile", organization)]));
    var listed := ListProjects(response);
    assert listed.Ok? && |listed.value| == 3;
    assert listed.value[0] == EXAMPLE_PROJECTS[0];
    assert listed.value[1] == EXAMPLE_PROJECTS[1];
    assert listed.value[2] == EXAMPLE_PROJECTS[2];
    assert listed.value == EXAMPLE_PROJECTS;
  }

  lemma ExampleKeysOfFrontend()
    ensures KeysListing(Client.Default(), ExampleUpstream(), ("acme", "frontend")) == Ok(["other"])
  {
    var url := KeysUrl(Client.Default().upstreamUrl, "acme", "frontend");
    assert ExampleUpstream().keysAt(url) == Received(200, Decoded([ListProjectClientKeysResponse("other")]));
    var listed := KeysListing(Client.Default(), ExampleUpstream(), ("acme", "frontend"));
    assert listed.Ok? && |listed.value| == 1 && listed.value[0] == "other";
    assert listed.value == ["other"];
  }

  lemma ExampleKeysOfWeb()
    ensures KeysListing(Client.Default(), ExampleUpstream(), ("acme", "web")) == Ok(["abc123"])
  {
    var u := Client.Default().upstreamUrl;
    var url := KeysUrl(u, "acme", "web");
    assert |url| != |KeysUrl(u, "acme", "frontend")|;
    assert ExampleUpstream().keysAt(url) == Received(200, Decoded([ListProjectClientKeysResponse("abc123")]));
    var listed := KeysListing(Client.Default(), ExampleUpstream(), ("acme", "web"));
    assert listed.Ok? && |listed.value| == 1 && listed.value[0] == "abc123";
    assert listed.value == ["abc123"];
  }

  lemma ExampleKeysOfMobile()
    ensures KeysListing(Client.Default(), ExampleUpstream(), ("acme", "mobile")) == Err(StatusCodeNotSuccessful(500))
  {
    var u := Client.Default().upstreamUrl;
    var url := KeysUrl(u, "acme", "mobile");
    assert |url| != |KeysUrl(u, "acme", "frontend")| && |url| != |KeysUrl(u, "acme", "web")|;
    assert ExampleUpstream().keysAt(url) == Received(500, Undecodable("Internal Server Error"));
  }

  /** `abc123.js` asks for the plain loader of key `abc123`; `zzz.js` for that of `zzz`. */
  lemma ParsePlainExamples()
    ensures ParseSegment("abc123.js") == Some(LoaderRequest("abc123", false))
    ensures ParseSegment("zzz.js") == Some(LoaderRequest("zzz", false))
  {
    ParseSegmentOfKey("abc123", false);
    assert "abc123" + ".js" == "abc123.js";
    ParseSegmentOfKey("zzz", false);
    assert "zzz" + ".js" == "zzz.js";
  }

  /**
   * With `main`'s defaults, `abc123.js` is served from project `web` after the
   * keys of `frontend` and `web` were listed; `mobile` is never asked.
   */
  lemma ExampleServed(files: Templates.TemplateFiles)
    ensures Resolve(DefaultState(files), ExampleUpstream(), "abc123.js")
         == (Reply(200, "text/javascript", LoaderBody(DefaultState(files), LoaderRequest("abc123", false), "web")),
             [ProjectsUrl(Client.Default().upstreamUrl)] + KeysRequests(Client.Default(), EXAMPLE_PROJECTS[..2]))
  {
    var state := DefaultState(files);
    var client := state.sentryClient;
    var up := ExampleUpstream();
    assert ParseSegment("abc123.js") == Some(LoaderRequest("abc123", false)) by { ParsePlainExamples(); }
    assert ListProjects(up.projectsAt(ProjectsUrl(client.upstreamUrl))) == Ok(EXAMPLE_PROJECTS) by { ExampleProjectListing(); }
    assert PassedBefore(client, up, EXAMPLE_PROJECTS, "abc123", 1) by { ExampleKeysOfFrontend(); }
    assert KeysListing(client, up, EXAMPLE_PROJECTS[1]) == Ok(["abc123"]) by { ExampleKeysOfWeb(); }
    ResolveServesFirstMatch(state, up, "abc123.js", EXAMPLE_PROJECTS, 1);
  }

  /**
   * An unknown key runs into the failing key listing of `mobile`, after those
   * of `frontend` and `web`, and the request panics with that status instead
   * of answering 404.
   */
  lemma ExampleAborted(files: Templates.TemplateFiles)
    ensures Resolve(DefaultState(files), ExampleUpstream(), "zzz.js")
         == (Panic(StatusCodeNotSuccessful(500)),
             [ProjectsUrl(Client.Default().upstreamUrl)] + KeysRequests(Client.Default(), EXAMPLE_PROJECTS))
  {
    var state := DefaultState(files);
    var client := state.sentryClient;
    var up := ExampleUpstream();
    var request := LoaderRequest("zzz", false);
    var run := Search(client, up, EXAMPLE_PROJECTS, "zzz");
    assert run == SearchRun(Aborted(StatusCodeNotSuccessful(500)), KeysRequests(client, EXAMPLE_PROJECTS)) by {
      assert PassedBefore(client, up, EXAMPLE_PROJECTS, "zzz", 2) by {
        ExampleKeysOfFrontend();
        ExampleKeysOfWeb();
      }
      assert KeysListing(client, up, EXAMPLE_PROJECTS[2]) == Err(StatusCodeNotSuccessful(500)) by { ExampleKeysOfMobile(); }
      assert EXAMPLE_PROJECTS[..3] == EXAMPLE_PROJECTS;
      SearchEndsAt(client, up, EXAMPLE_PROJECTS, "zzz", 2);
    }
    assert ParseSegment("zzz.js") == Some(request) by { ParsePlainExamples(); }
    assert ListProjects(up.projectsAt(ProjectsUrl(client.upstreamUrl))) == Ok(EXAMPLE_PROJECTS) by { ExampleProjectListing(); }
    ResolveListed(state, up, "zzz.js", request, EXAMPLE_PROJECTS);
  }

  /** With `main`'s defaults the DSN served for key `abc123` of project `web`. */
  lemma ExampleDsn(files: Templates.TemplateFiles)
    ensures DsnBuilder.BuildDsn(DefaultState(files).sentryDsnBuilder, "abc123", "web") == "http://abc123@selfhosted.sentry.dev/web"
  {
  }
}
