/** The database-webhook endpoint of the migration web app: on a row INSERT
    it authenticates as a GitHub App installation, looks up the pull
    request's head commit and posts the record's text as an inline review
    comment. The process environment is a map; the token exchange and the two
    GitHub REST requests are function parameters. The handler returns the
    outbound calls it makes, in order, together with its response. */
module PrCommentRoute {
  import opened JsSemantics

  const InsertType := "INSERT"
  const OwnerVar := "GITHUB_OWNER"
  const RepoVar := "GITHUB_REPO"
  const AppIdVar := "GITHUB_APP_ID"
  const PrivateKeyVar := "GITHUB_PRIVATE_KEY"
  const InstallationIdVar := "GITHUB_INSTALLATION_ID"

  const OwnerRepoMissingError := "GITHUB_OWNER or GITHUB_REPO is not set"
  const CredentialsMissingError := "Required GitHub App credentials are not set"
  const RightSide := "RIGHT"

  type Env = map<string, string>

  /** The row of the comments table carried by the webhook. */
  datatype CommentRecord = CommentRecord(id: string, prNumber: int, filePath: string, lineNumber: int, comment: string)

  datatype WebhookPayload = WebhookPayload(eventType: string, table: string, record: CommentRecord)

  /** `req.json()` rejects with a message, or yields the payload. */
  datatype RequestBody = UnreadableBody(message: string) | PayloadBody(payload: WebhookPayload)

  datatype Credentials = Credentials(appId: string, privateKey: string, installationId: string)

  datatype PullRef = PullRef(owner: string, repo: string, pullNumber: int)

  /** The fields of `POST /repos/{owner}/{repo}/pulls/{pull_number}/comments`. */
  datatype CommentRequest = CommentRequest(
    owner: string, repo: string, pullNumber: int, body: string,
    commitId: string, path: string, position: int, side: string)

  datatype GitHubCall =
    | ExchangeToken(credentials: Credentials)
    | GetPull(token: string, pull: PullRef)
    | CreateComment(token: string, request: CommentRequest)

  /** What an awaited GitHub operation yields: a value, or a rejection whose
      `message` the handler reports. */
  datatype Reply<T> = Ok(value: T) | Rejected(message: string)

  /** The GitHub side: the installation-token exchange, the head SHA that the
      pull request GET reports, and the comment creation. */
  datatype GitHub = GitHub(
    exchangeToken: Credentials -> Reply<string>,
    pullHeadSha: (string, PullRef) -> Reply<string>,
    createComment: (string, CommentRequest) -> Reply<()>)

  /** The JSON answers: `{success: true}`, `{message: 'No action required'}`,
      or status 500 with `{error: message}`. */
  datatype WebhookResponse = Succeeded | NoActionRequired | ServerError(message: string)

  /** A stage's outbound calls and its result. */
  datatype Step<T> = Step(calls: seq<GitHubCall>, result: Reply<T>)

  datatype Handled = Handled(calls: seq<GitHubCall>, response: WebhookResponse)

  /** `!process.env[name]`: unset and empty are both missing. */
  function IsSet(env: Env, name: string): (b: bool)
    ensures b <==> !IsFalsy(if name in env then Some(env[name]) else None)
  {
    name in env && env[name] != ""
  }

  /** The three credentials `getAuthenticatedOctokit` checks. */
  function HasCredentials(env: Env): (b: bool)
    ensures !b <==> !IsSet(env, AppIdVar) || !IsSet(env, PrivateKeyVar) || !IsSet(env, InstallationIdVar)
  {
    IsSet(env, AppIdVar) && IsSet(env, PrivateKeyVar) && IsSet(env, InstallationIdVar)
  }

  /** `getAuthenticatedOctokit`: a missing credential throws before any
      token exchange; otherwise exactly one exchange with the configured
      values, whose token or rejection is the result. */
  function Authenticate(env: Env, github: GitHub): (s: Step<string>)
    ensures !HasCredentials(env) <==> s == Step([], Rejected(CredentialsMissingError))
    ensures HasCredentials(env) ==>
      var creds := Credentials(env[AppIdVar], env[PrivateKeyVar], env[InstallationIdVar]);
      s.calls == [ExchangeToken(creds)] && s.result == github.exchangeToken(creds)
  {
    if !HasCredentials(env) then Step([], Rejected(CredentialsMissingError))
    else
      var creds := Credentials(env[AppIdVar], env[PrivateKeyVar], env[InstallationIdVar]);
      Step([ExchangeToken(creds)], github.exchangeToken(creds))
  }

  /** The comment request built for a record, once the head commit is known. */
  function CommentRequestFor(owner: string, repo: string, record: CommentRecord, headSha: string): (c: CommentRequest)
    ensures c.pullNumber == record.prNumber && c.body == record.comment && c.path == record.filePath
    ensures c.position == record.lineNumber && c.side == RightSide && c.commitId == headSha
    ensures c.owner == owner && c.repo == repo
  {
    CommentRequest(owner, repo, record.prNumber, record.comment, headSha, record.filePath, record.lineNumber, RightSide)
  }

  /** `createPRComment`: authenticate, GET the pull request, then POST the
      comment with the GET's head SHA as `commit_id`. A rejection at any step
      ends the chain there. */
  function CreatePRComment(env: Env, github: GitHub, owner: string, repo: string, record: CommentRecord): (s: Step<()>)
    ensures |s.calls| <= 3
    ensures s.result.Ok? <==>
      && Authenticate(env, github).result.Ok?
      && github.pullHeadSha(Authenticate(env, github).result.value, PullRef(owner, repo, record.prNumber)).Ok?
      && github.createComment(
           Authenticate(env, github).result.value,
           CommentRequestFor(owner, repo, record,
             github.pullHeadSha(Authenticate(env, github).result.value, PullRef(owner, repo, record.prNumber)).value)).Ok?
    ensures Authenticate(env, github).result.Ok? ==>
      var token := Authenticate(env, github).result.value;
      var pull := PullRef(owner, repo, record.prNumber);
      && |s.calls| >= 2 && s.calls[..2] == Authenticate(env, github).calls + [GetPull(token, pull)]
      && (github.pullHeadSha(token, pull).Rejected? ==>
            s == Step(Authenticate(env, github).calls + [GetPull(token, pull)], Rejected(github.pullHeadSha(token, pull).message)))
      && (github.pullHeadSha(token, pull).Ok? ==>
            var request := CommentRequestFor(owner, repo, record, github.pullHeadSha(token, pull).value);
            s.calls == s.calls[..2] + [CreateComment(token, request)] && s.result == github.createComment(token, request))
    ensures !Authenticate(env, github).result.Ok? ==> s == Step(Authenticate(env, github).calls, Rejected(Authenticate(env, github).result.message))
  {
    var auth := Authenticate(env, github);
    match auth.result
    case Rejected(m) => Step(auth.calls, Rejected(m))
    case Ok(token) =>
      var pull := PullRef(owner, repo, record.prNumber);
      var afterGet := auth.calls + [GetPull(token, pull)];
      match github.pullHeadSha(token, pull)
      case Rejected(m) => Step(afterGet, Rejected(m))
      case Ok(sha) =>
        var request := CommentRequestFor(owner, repo, record, sha);
        Step(afterGet + [CreateComment(token, request)], github.createComment(token, request))
  }

  /** The POST handler. */
  function Post(body: RequestBody, env: Env, github: GitHub): (h: Handled)
    ensures body.UnreadableBody? ==> h == Handled([], ServerError(body.message))
    ensures body.PayloadBody? && body.payload.eventType != InsertType ==> h == Handled([], NoActionRequired)
    ensures body.PayloadBody? && body.payload.eventType == InsertType && !(IsSet(env, OwnerVar) && IsSet(env, RepoVar)) ==>
      h == Handled([], ServerError(OwnerRepoMissingError))
    ensures body.PayloadBody? && body.payload.eventType == InsertType && IsSet(env, OwnerVar) && IsSet(env, RepoVar)
            && !HasCredentials(env) ==>
      h == Handled([], ServerError(CredentialsMissingError))
    ensures h.response == Succeeded ==>
      && body.PayloadBody? && body.payload.eventType == InsertType
      && IsSet(env, OwnerVar) && IsSet(env, RepoVar) && HasCredentials(env)
      && |h.calls| == 3 && h.calls[0].ExchangeToken? && h.calls[1].GetPull? && h.calls[2].CreateComment?
      && h.calls[1].pull == PullRef(env[OwnerVar], env[RepoVar], body.payload.record.prNumber)
      && h.calls[2].token == h.calls[1].token
      && github.pullHeadSha(h.calls[1].token, h.calls[1].pull).Ok?
      && h.calls[2].request == CommentRequestFor(env[OwnerVar], env[RepoVar], body.payload.record,
                                                 github.pullHeadSha(h.calls[1].token, h.calls[1].pull).value)
    ensures body.PayloadBody? && body.payload.eventType == InsertType && IsSet(env, OwnerVar) && IsSet(env, RepoVar) ==>
      var s := CreatePRComment(env, github, env[OwnerVar], env[RepoVar], body.payload.record);
      && h.calls == s.calls
      && h.response == (if s.result.Ok? then Succeeded else ServerError(s.result.message))
  {
    match body
    case UnreadableBody(m) => Handled([], ServerError(m))
    case PayloadBody(payload) =>
      if payload.eventType != InsertType then Handled([], NoActionRequired)
      else if !IsSet(env, OwnerVar) || !IsSet(env, RepoVar) then Handled([], ServerError(OwnerRepoMissingError))
      else
        var s := CreatePRComment(env, github, env[OwnerVar], env[RepoVar], payload.record);
        match s.result
        case Ok(_) => Handled(s.calls, Succeeded)
        case Rejected(m) => Handled(s.calls, ServerError(m))
  }

  function CommentCalls(calls: seq<GitHubCall>): (n: nat)
    ensures n <= |calls|
  {
    if calls == [] then 0
    else (if calls[0].CreateComment? then 1 else 0) + CommentCalls(calls[1..])
  }

  /** No retry: a webhook delivery creates at most one comment, and a
      successful one exactly one. */
  lemma AtMostOneComment(body: RequestBody, env: Env, github: GitHub)
    ensures CommentCalls(Post(body, env, github).calls) <= 1
    ensures Post(body, env, github).response == Succeeded ==> CommentCalls(Post(body, env, github).calls) == 1
  {
    var c := Post(body, env, github).calls;
    if |c| == 3 {
      assert c[1..][1..][1..] == [];
      assert CommentCalls(c[1..][1..]) == (if c[2].CreateComment? then 1 else 0);
      assert CommentCalls(c[1..]) == CommentCalls(c[1..][1..]);
    } else if |c| == 2 {
      assert c[1..][1..] == [];
    } else if |c| == 1 {
      assert c[1..] == [];
    }
  }
}
