/** The schema-review endpoint of the migration web app: it turns a pull
    request URL into the GitHub "list files" API URL, picks the first changed
    schema file, fills the review prompt with its patch and streams the
    language model's answer back. The GitHub fetch and the model chain are
    function parameters; the handler returns the outbound calls it makes, in
    order, together with its response. */
module ReviewRoute {
  import opened JsSemantics

  const SchemafileMarker := "Schemafile"
  const SchemaRbMarker := "schema.rb"

  const InvalidUrlError := "Pull Request URL is not provided or is invalid"
  const NoSchemaChangesError := "No Schemafile changes found in the PR"
  const GenericReviewError := "An error occurred while reviewing the schema changes"

  /** The review prompt, split around its single `{schema_changes}` slot. */
  const TemplateIntro :=
    "You are a database design expert. Please analyze the following database schema changes and provide a detailed review.\n"
    + "\n"
    + "Include the following points in your review:\n"
    + "1. Overall evaluation of the changes\n"
    + "2. Issues with table design (normalization, naming conventions, etc.)\n"
    + "3. Evaluation and recommendations for index design\n"
    + "4. Performance concerns\n"
    + "5. Security concerns\n"
    + "6. Specific suggestions for improvement\n"
    + "\n"
    + "Schema Changes:\n"
  const OpenDelimiter := "\"\"\"\n"
  const Placeholder := "{schema_changes}"
  const CloseDelimiter := "\n\"\"\""
  const TemplateOutro := "\n\nPlease output the review results in Markdown format in English."
  const TemplateHead := TemplateIntro + OpenDelimiter
  const TemplateTail := CloseDelimiter + TemplateOutro
  const ReviewTemplate := TemplateHead + Placeholder + TemplateTail

  /** One entry of the GitHub "list pull request files" answer. */
  datatype ChangedFile = ChangedFile(filename: string, patch: Option<string>)

  /** What `fetch` of the files URL yields: a rejected promise, or a response
      with its status and, when the body parses as a list of files, that list. */
  datatype FilesResponse =
    | NetworkFailure
    | HttpResponse(status: int, files: Option<seq<ChangedFile>>)

  /** `response.ok`. */
  predicate IsOkStatus(status: int)
  {
    200 <= status <= 299
  }

  /** The GitHub API URL that is fetched for a pull request URL. */
  function FilesUrl(prUrl: string): (r: string)
    ensures |r| >= 6 && r[|r| - 6..] == "/files"
  {
    ReplaceFirst(ReplaceFirst(prUrl, "github.com", "api.github.com/repos"), "/pull/", "/pulls/") + "/files"
  }

  /** A URL with neither `github.com` nor `/pull/` in it is fetched as is,
      with only `/files` appended. */
  lemma FilesUrlOfOtherUrl(prUrl: string)
    requires forall i :: !OccursAt(prUrl, "github.com", i)
    requires forall i :: !OccursAt(prUrl, "/pull/", i)
    ensures FilesUrl(prUrl) == prUrl + "/files"
  {
  }

  predicate NoSlash(s: string)
  {
    forall j :: 0 <= j < |s| ==> s[j] != '/'
  }

  /** A path segment that is not `pull`, seen between two slashes, is not
      where `/pull/` occurs. */
  lemma SegmentIsNotPull(v: string, i: nat, segment: string)
    requires i + 1 + |segment| < |v|
    requires v[i + 1..i + 1 + |segment|] == segment && v[i + 1 + |segment|] == '/'
    requires NoSlash(segment) && segment != "pull"
    ensures !OccursAt(v, "/pull/", i)
  {
    if i + 6 <= |v| {
      var w := v[i..i + 6];
      if |segment| >= 5 {
        assert w[5] == segment[4];
      } else if |segment| == 4 {
        assert forall j :: 0 <= j < 4 ==> w[1 + j] == v[i + 1 + j] == segment[j];
        assert w[1..5] == segment;
      } else {
        assert w[1 + |segment|] == '/';
      }
    }
  }

  /** In a canonical URL, the first `github.com` is the host, at index 8. */
  lemma HostIsFirstOccurrence(rest: string)
    ensures OccursAt("https://github.com/" + rest, "github.com", 8)
    ensures forall i :: 0 <= i < 8 ==> !OccursAt("https://github.com/" + rest, "github.com", i)
  {
    var u := "https://github.com/" + rest;
    assert u[8..18] == "github.com";
    forall i | 0 <= i < 8 ensures !OccursAt(u, "github.com", i) {
      assert u[i] == "https://"[i];
      assert u[i..i + 10][0] == u[i];
    }
  }

  /** The first rewrite turns the host of a canonical URL into the API host
      and its `/repos` prefix. */
  lemma HostRewrite(rest: string)
    ensures ReplaceFirst("https://github.com/" + rest, "github.com", "api.github.com/repos")
         == "https://api.github.com/repos/" + rest
  {
    var u := "https://github.com/" + rest;
    HostIsFirstOccurrence(rest);
    ReplaceFirstAtFirstOccurrence(u, "github.com", "api.github.com/repos", 8);
    HostParts(rest);
    ApiPrefix(rest);
  }

  lemma HostParts(rest: string)
    ensures ("https://github.com/" + rest)[..8] == "https://"
    ensures ("https://github.com/" + rest)[18..] == "/" + rest
  {
    var u := "https://github.com/" + rest;
    assert u[..8] == "https://";
    assert u[18..] == "/" + rest;
  }

  lemma ApiPrefix(rest: string)
    ensures "https://" + "api.github.com/repos" + ("/" + rest) == "https://api.github.com/repos/" + rest
  {
    assert "https://" + "api.github.com/repos" + "/" == "https://api.github.com/repos/";
  }

  /** No `/pull/` starts inside the fixed API prefix. */
  lemma NoPullInApiPrefix(v: string, i: nat)
    requires |v| > 29 && v[..29] == "https://api.github.com/repos/"
    requires i < 28
    ensures !OccursAt(v, "/pull/", i)
  {
    var p := "https://api.github.com/repos/";
    assert v[i] == p[i] && v[i + 1] == p[i + 1];
    if i + 6 <= |v| {
      assert v[i..i + 6][0] == v[i] && v[i..i + 6][1] == v[i + 1];
    }
  }

  /** The second rewrite finds the `/pull/` that follows owner and repository. */
  lemma PullRewrite(owner: string, repo: string, number: string)
    requires NoSlash(owner) && NoSlash(repo) && owner != "pull" && repo != "pull"
    ensures ReplaceFirst("https://api.github.com/repos/" + owner + "/" + repo + "/pull/" + number, "/pull/", "/pulls/")
         == "https://api.github.com/repos/" + owner + "/" + repo + "/pulls/" + number
  {
    var p := "https://api.github.com/repos/";
    var v := p + owner + "/" + repo + "/pull/" + number;
    var k := |p| + |owner| + 1 + |repo|;
    var o := |p|;
    var r := |p| + |owner| + 1;
    assert v[..29] == p;
    assert v[k..k + 6] == "/pull/";
    assert OccursAt(v, "/pull/", k);
    assert v[o..o + |owner|] == owner && v[o + |owner|] == '/';
    assert v[r..r + |repo|] == repo && v[r + |repo|] == '/';
    NoPullBeforeRepoEnd(v, owner, repo);
    assert v[..k] == p + owner + "/" + repo;
    assert v[k + 6..] == number;
    assert ReplaceFirst(v, "/pull/", "/pulls/") == v[..k] + "/pulls/" + v[k + 6..];
  }

  /** A character other than `/` does not start `/pull/`. */
  lemma NotSlashNoPull(v: string, i: nat)
    requires i < |v| && v[i] != '/'
    ensures !OccursAt(v, "/pull/", i)
  {
    if i + 6 <= |v| {
      assert v[i..i + 6][0] == v[i];
    }
  }

  /** No `/pull/` starts in the API prefix, the owner or the repository of
      `https://api.github.com/repos/` + owner + `/` + repo + `/`... */
  lemma NoPullBeforeRepoEnd(v: string, owner: string, repo: string)
    requires NoSlash(owner) && NoSlash(repo) && owner != "pull" && repo != "pull"
    requires 29 + |owner| + 1 + |repo| < |v| && v[..29] == "https://api.github.com/repos/"
    requires v[29..29 + |owner|] == owner && v[29 + |owner|] == '/'
    requires v[30 + |owner|..30 + |owner| + |repo|] == repo && v[30 + |owner| + |repo|] == '/'
    ensures forall i :: 0 <= i < 30 + |owner| + |repo| ==> !OccursAt(v, "/pull/", i)
  {
    var o := 29;
    var r := 30 + |owner|;
    forall i | 0 <= i < r + |repo| ensures !OccursAt(v, "/pull/", i) {
      if i < o - 1 {
        NoPullInApiPrefix(v, i);
      } else if i == o - 1 {
        assert v[i + 1..i + 1 + |owner|] == owner && v[i + 1 + |owner|] == '/';
        SegmentIsNotPull(v, i, owner);
      } else if i < o + |owner| {
        assert v[i] == v[o..o + |owner|][i - o] == owner[i - o];
        NotSlashNoPull(v, i);
      } else if i == o + |owner| {
        assert v[i + 1..i + 1 + |repo|] == repo && v[i + 1 + |repo|] == '/';
        SegmentIsNotPull(v, i, repo);
      } else {
        assert v[i] == v[r..r + |repo|][i - r] == repo[i - r];
        NotSlashNoPull(v, i);
      }
    }
  }

  /** For a canonical pull request URL the rewrite yields the REST endpoint
      that lists the pull request's files, provided neither the owner nor the
      repository is itself named `pull`. */
  lemma CanonicalFilesUrl(owner: string, repo: string, number: string)
    requires NoSlash(owner) && NoSlash(repo) && owner != "pull" && repo != "pull"
    ensures FilesUrl("https://github.com/" + owner + "/" + repo + "/pull/" + number)
         == "https://api.github.com/repos/" + owner + "/" + repo + "/pulls/" + number + "/files"
  {
    var rest := owner + "/" + repo + "/pull/" + number;
    RegroupPath("https://github.com/", owner, repo, "/pull/", number);
    HostRewrite(rest);
    RegroupPath("https://api.github.com/repos/", owner, repo, "/pull/", number);
    PullRewrite(owner, repo, number);
  }

  lemma RegroupPath(head: string, owner: string, repo: string, marker: string, number: string)
    ensures head + owner + "/" + repo + marker + number == head + (owner + "/" + repo + marker + number)
  {
  }

  /** The test given to `find`: the file name contains either marker. */
  function IsSchemaFile(f: ChangedFile): (b: bool)
    ensures b <==> (exists i :: OccursAt(f.filename, SchemafileMarker, i)) || (exists i :: OccursAt(f.filename, SchemaRbMarker, i))
  {
    Includes(f.filename, SchemafileMarker) || Includes(f.filename, SchemaRbMarker)
  }

  /** `files.find(IsSchemaFile)`: the first schema file in list order. */
  function FindSchemaFile(files: seq<ChangedFile>): (r: Option<ChangedFile>)
    ensures r == None <==> forall i :: 0 <= i < |files| ==> !IsSchemaFile(files[i])
    ensures r != None ==> exists i :: 0 <= i < |files| && files[i] == r.value && IsSchemaFile(files[i])
                                      && forall j :: 0 <= j < i ==> !IsSchemaFile(files[j])
  {
    Find(files, IsSchemaFile)
  }

  /** Once a schema file has been found, whatever follows it in the list
      never changes the choice. */
  lemma FindSchemaFileIgnoresLaterFiles(files: seq<ChangedFile>, later: seq<ChangedFile>)
    requires FindSchemaFile(files) != None
    ensures FindSchemaFile(files + later) == FindSchemaFile(files)
  {
    FindIgnoresLater(files, later, IsSchemaFile);
  }

  /** `fetchSchemaChanges`: the patch of the first schema file, or `null` when
      the fetch fails, the status is not 2xx, the body is not a file list or
      no file matches. It never throws. */
  function FetchSchemaChanges(prUrl: string, github: string -> FilesResponse): (r: Option<string>)
    ensures github(FilesUrl(prUrl)).NetworkFailure? ==> r == None
    ensures github(FilesUrl(prUrl)).HttpResponse? && !IsOkStatus(github(FilesUrl(prUrl)).status) ==> r == None
    ensures var resp := github(FilesUrl(prUrl));
      resp.HttpResponse? && resp.files.Some? && FindSchemaFile(resp.files.value) == None ==> r == None
    ensures var resp := github(FilesUrl(prUrl));
      r != None ==>
        && resp.HttpResponse? && IsOkStatus(resp.status) && resp.files.Some?
        && FindSchemaFile(resp.files.value) != None && FindSchemaFile(resp.files.value).value.patch == r
    ensures var resp := github(FilesUrl(prUrl));
      resp.HttpResponse? && IsOkStatus(resp.status) && resp.files.Some? && FindSchemaFile(resp.files.value).Some? ==>
        r == FindSchemaFile(resp.files.value).value.patch
  {
    match github(FilesUrl(prUrl))
    case NetworkFailure => None
    case HttpResponse(status, files) =>
      if !IsOkStatus(status) then None
      else if files.None? then None
      else
        match FindSchemaFile(files.value)
        case None => None
        case Some(f) => f.patch
  }

  /** The prompt handed to the model: the template with the slot filled by
      the patch, verbatim. */
  function Prompt(schemaChanges: string): (r: string)
    ensures SchemaChangesOf(r) == Some(schemaChanges)
  {
    UnwrapWrap(TemplateHead, schemaChanges, TemplateTail);
    TemplateHead + schemaChanges + TemplateTail
  }

  /** Filling the `{schema_changes}` slot of a template whose text before the
      slot has no `{` replaces exactly that slot and leaves every other
      character of the template as it was. `Prompt` is this with the review
      template's own head and tail. */
  lemma {:induction false} FillSlot(head: string, tail: string, value: string)
    requires forall i :: 0 <= i < |head| ==> head[i] != '{'
    ensures ReplaceFirst(head + Placeholder + tail, Placeholder, value) == head + value + tail
  {
    var t := head + Placeholder + tail;
    var k := |head|;
    assert t[k..k + |Placeholder|] == Placeholder;
    assert OccursAt(t, Placeholder, k);
    forall i | 0 <= i < k ensures !OccursAt(t, Placeholder, i) {
      assert t[i] == head[i];
      if i + |Placeholder| <= |t| {
        assert t[i..i + |Placeholder|][0] == t[i];
        assert Placeholder[0] == '{';
      }
    }
    assert t[..k] == head;
    assert t[k + |Placeholder|..] == tail;
    assert ReplaceFirst(t, Placeholder, value) == t[..k] + value + t[k + |Placeholder|..];
  }

  /** Recovers the patch from a prompt: the inverse of `Prompt`. */
  function SchemaChangesOf(prompt: string): (r: Option<string>)
    ensures r.Some? ==> TemplateHead + r.value + TemplateTail == prompt
  {
    Unwrap(prompt, TemplateHead, TemplateTail)
  }

  /** The patch sits between the `"""` delimiters, after the fixed
      instructions and before the closing request, and can be read back
      unchanged: the prompt neither adds to nor drops from it. */
  lemma PromptRoundTrip(schemaChanges: string)
    ensures SchemaChangesOf(Prompt(schemaChanges)) == Some(schemaChanges)
    ensures Prompt(schemaChanges) == TemplateIntro + (OpenDelimiter + schemaChanges + CloseDelimiter) + TemplateOutro
  {
    UnwrapWrap(TemplateHead, schemaChanges, TemplateTail);
    Enclose(TemplateIntro, OpenDelimiter, schemaChanges, CloseDelimiter, TemplateOutro);
  }

  /** The `prUrl` member of the parsed request body. */
  datatype PrUrlField = StringField(s: string) | NonStringField

  /** The request body: `req.json()` rejects or yields `null` (destructuring
      then throws), or it yields a value whose `prUrl` member is read. */
  datatype RequestBody = UnreadableBody | JsonBody(prUrl: PrUrlField)

  /** `chain.stream(...)`: a stream of text chunks, or a rejection. */
  datatype ChainOutcome = Streams(chunks: seq<string>) | ChainFails

  datatype OutboundCall = FetchFiles(url: string) | RunChain(prompt: string)

  datatype ReviewResponse = JsonError(status: int, error: string) | TextStream(chunks: seq<string>)

  datatype Handled = Handled(calls: seq<OutboundCall>, response: ReviewResponse)

  /** `!prUrl || typeof prUrl !== 'string'` fails exactly for these. */
  function IsValidPrUrl(f: PrUrlField): (b: bool)
    ensures b <==> f.StringField? && !IsFalsy(Some(f.s))
  {
    f.StringField? && f.s != ""
  }

  /** The POST handler. Validation comes first, then the single file-list
      fetch, then the single model call; each stage that fails stops the
      rest, and an exception anywhere is the fixed 500 answer. */
  function Post(body: RequestBody, github: string -> FilesResponse, chain: string -> ChainOutcome): (h: Handled)
    ensures body.UnreadableBody? ==> h == Handled([], JsonError(500, GenericReviewError))
    ensures body.JsonBody? && !IsValidPrUrl(body.prUrl) ==> h == Handled([], JsonError(400, InvalidUrlError))
    ensures body.JsonBody? && IsValidPrUrl(body.prUrl) ==>
      var first := FetchFiles(FilesUrl(body.prUrl.s));
      var patch := FetchSchemaChanges(body.prUrl.s, github);
      && (IsFalsy(patch) <==> h.response == JsonError(400, NoSchemaChangesError))
      && (IsFalsy(patch) ==> h == Handled([first], JsonError(400, NoSchemaChangesError)))
      && (!IsFalsy(patch) ==>
            var prompt := Prompt(patch.value);
            && h.calls == [first, RunChain(prompt)]
            && h.response == match chain(prompt)
                             case Streams(chunks) => TextStream(chunks)
                             case ChainFails => JsonError(500, GenericReviewError))
    ensures (exists i :: 0 <= i < |h.calls| && h.calls[i].RunChain?) <==>
      body.JsonBody? && IsValidPrUrl(body.prUrl) && !IsFalsy(FetchSchemaChanges(body.prUrl.s, github))
    ensures h.response.TextStream? ==> body.JsonBody? && IsValidPrUrl(body.prUrl)
    ensures |h.calls| <= 2
  {
    match body
    case UnreadableBody => Handled([], JsonError(500, GenericReviewError))
    case JsonBody(field) =>
      if !IsValidPrUrl(field) then Handled([], JsonError(400, InvalidUrlError))
      else
        var url := field.s;
        var fetched := [FetchFiles(FilesUrl(url))];
        var schemaChanges := FetchSchemaChanges(url, github);
        if IsFalsy(schemaChanges) then Handled(fetched, JsonError(400, NoSchemaChangesError))
        else
          var prompt := Prompt(schemaChanges.value);
          var calls := fetched + [RunChain(prompt)];
          assert calls[1].RunChain?;
          match chain(prompt)
          case ChainFails => Handled(calls, JsonError(500, GenericReviewError))
          case Streams(chunks) => Handled(calls, TextStream(chunks))
  }
}
