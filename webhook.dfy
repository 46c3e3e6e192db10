/** The gateway's webhook endpoint: a source-control provider delivers an
    event for a project; the gateway resolves the project's linked account,
    user and remote source, lets the remote source's git client parse the
    delivery, and asks the gateway's run-creation action to create a project
    run from it.

    The configstore lookups, the git source client, the webhook parser, the
    event-to-ref-type table and the run-creation action (`CreateRuns` of the
    gateway's action handler) are collaborators whose code is not part of this
    model: they are given as functions in `Collaborators`.
    `HandleWebhook` states what the handler does for given collaborators, as
    its outcome and the calls it makes in order; `WebhooksHandler.Do` performs
    it step by step and is proved to agree with it. */
module Webhook {
  import opened Common

  datatype Project = Project(
    id: string,
    linkedAccountId: string,
    sshPrivateKey: string,
    webhookSecret: string,
    skipSshHostKeyCheck: bool)

  datatype User = User(id: string, name: string)

  datatype LinkedAccount = LinkedAccount(id: string, remoteSourceId: string)

  datatype RemoteSource = RemoteSource(id: string, sshHostKey: string, skipSshHostKeyCheck: bool)

  /** A git source client, as handed out by the git source factory. */
  datatype GitSource = GitSource(handle: nat)

  datatype WebhookEvent = WebhookEventPush | WebhookEventTag | WebhookEventPullRequest

  datatype Repo = Repo(path: string, webUrl: string)

  /** A parsed, provider-independent webhook delivery. */
  datatype WebhookData = WebhookData(
    event: WebhookEvent,
    repo: Repo,
    commitSha: string,
    message: string,
    branch: string,
    tag: string,
    pullRequestId: string,
    prFromSameRepo: bool,
    ref: string,
    sshUrl: string,
    commitLink: string,
    branchLink: string,
    tagLink: string,
    pullRequestLink: string,
    compareLink: string)

  datatype RunType = RunTypeProject | RunTypeUser

  datatype RunRefType = RunRefTypeBranch | RunRefTypeTag | RunRefTypePullRequest

  datatype RunCreationTriggerType = RunCreationTriggerTypeManual | RunCreationTriggerTypeWebhook

  datatype CreateRunRequest = CreateRunRequest(
    runType: RunType,
    refType: RunRefType,
    runCreationTrigger: RunCreationTriggerType,
    project: Project,
    user: Option<User>,
    repoPath: string,
    gitSource: GitSource,
    commitSha: string,
    message: string,
    branch: string,
    tag: string,
    pullRequestId: string,
    prFromSameRepo: bool,
    ref: string,
    sshPrivKey: string,
    sshHostKey: string,
    skipSshHostKeyCheck: bool,
    cloneUrl: string,
    commitLink: string,
    branchLink: string,
    tagLink: string,
    pullRequestLink: string,
    compareLink: string)

  /** An inbound delivery: its URL, the value of its `projectid` query
      parameter (None when absent) and its raw content (headers and body),
      which only the parser reads. */
  datatype WebhookRequest = WebhookRequest(url: string, projectId: Option<string>, payload: string)

  /** The answers of the collaborators for the delivery being handled. */
  datatype Collaborators = Collaborators(
    getProject: string -> Result<Project, Cause>,
    getUserByLinkedAccount: string -> Result<User, Cause>,
    getUserLinkedAccounts: string -> Result<seq<LinkedAccount>, Cause>,
    getRemoteSource: string -> Result<RemoteSource, Cause>,
    getGitSource: (RemoteSource, string, LinkedAccount) -> Result<GitSource, Cause>,
    parseWebhook: (GitSource, WebhookRequest, string) -> Result<Option<WebhookData>, Cause>,
    refTypeOf: WebhookEvent -> RunRefType,
    createRuns: CreateRunRequest -> Result<(), Cause>)

  /** The calls the handler makes, with the arguments that identify them. */
  datatype Call =
    | GetProject(projectId: string)
    | GetUserByLinkedAccount(linkedAccountId: string)
    | GetUserLinkedAccounts(userId: string)
    | GetRemoteSource(remoteSourceId: string)
    | GetGitSource(remoteSourceId: string, userName: string, linkedAccountId: string)
    | ParseWebhook(webhookSecret: string)
    | CreateRuns(request: CreateRunRequest)

  /** How a delivery ends. Both Skipped and RunCreated answer success. */
  datatype Outcome = Failed(error: Error) | Skipped | RunCreated(request: CreateRunRequest)

  datatype Handled = Handled(outcome: Outcome, calls: seq<Call>)

  // The errors the handler answers, with their messages.

  function MissingProjectId(url: string): Error {
    ApiError(ErrBadRequest, Msg("bad webhook url %q. Missing projectid", [url]), NoDetail)
  }

  function ProjectLookupFailed(e: Cause, projectId: string): Error {
    RemoteApiError(e, Some(Msg("failed to get project %s", [projectId])))
  }

  function UserLookupFailed(e: Cause, linkedAccountId: string): Error {
    RemoteApiError(e, Some(Msg("failed to get user by linked account %q", [linkedAccountId])))
  }

  function LinkedAccountsLookupFailed(e: Cause, userId: string): Error {
    RemoteApiError(e, Some(Msg("failed to get user %q linked accounts", [userId])))
  }

  function LinkedAccountMissing(linkedAccountId: string, userName: string): Error {
    ApiError(ErrInternal, Msg("linked account %q for user %q doesn't exist", [linkedAccountId, userName]), NoDetail)
  }

  function RemoteSourceLookupFailed(e: Cause, remoteSourceId: string): Error {
    RemoteApiError(e, Some(Msg("failed to get remote source %q", [remoteSourceId])))
  }

  function GitSourceFailed(e: Cause): Error {
    WrappedApiError(ErrInternal, e, Msg("failed to create gitea client", []))
  }

  function ParseFailed(e: Cause): Error {
    WrappedApiError(ErrBadRequest, e, Msg("failed to parse webhook", []))
  }

  function RunCreationFailed(e: Cause): Error {
    WrappedApiError(ErrInternal, e, Msg("failed to create run", []))
  }

  /** The first linked account of `las` whose id is `id`, scanning from the
      front. */
  function FindLinkedAccount(las: seq<LinkedAccount>, id: string): Option<LinkedAccount> {
    if las == [] then None
    else if las[0].id == id then Some(las[0])
    else FindLinkedAccount(las[1..], id)
  }

  /** The scan finds nothing exactly when no linked account has the id, and
      otherwise finds the first one that has it. */
  lemma {:induction false} FindLinkedAccountIsFirstMatch(las: seq<LinkedAccount>, id: string)
    ensures var r := FindLinkedAccount(las, id);
      && (r.None? <==> forall i | 0 <= i < |las| :: las[i].id != id)
      && (r.Some? ==> exists i | 0 <= i < |las| ::
            las[i] == r.value && r.value.id == id && forall j | 0 <= j < i :: las[j].id != id)
  {
    if las != [] && las[0].id != id {
      var r := FindLinkedAccount(las[1..], id);
      FindLinkedAccountIsFirstMatch(las[1..], id);
      if r.None? {
        forall i | 1 <= i < |las| ensures las[i].id != id {
          assert las[i] == las[1..][i - 1];
        }
      } else {
        var i :| 0 <= i < |las[1..]| && las[1..][i] == r.value && r.value.id == id
                 && forall j | 0 <= j < i :: las[1..][j].id != id;
        assert las[i + 1] == r.value;
        forall j | 0 <= j < i + 1 ensures las[j].id != id {
          if j > 0 { assert las[j] == las[1..][j - 1]; }
        }
      }
    }
  }

  /** The host-key policy of the run: the remote source's, except that a
      project asking to skip the check always gets it skipped. */
  function EffectiveSkipSshHostKeyCheck(remoteSourceSkip: bool, projectSkip: bool): (skip: bool)
    ensures skip <==> remoteSourceSkip || projectSkip
  {
    if projectSkip then projectSkip else remoteSourceSkip
  }

  function BuildRunRequest(refTypeOf: WebhookEvent -> RunRefType, project: Project, gitSource: GitSource,
                           rs: RemoteSource, skip: bool, data: WebhookData): CreateRunRequest
  {
    CreateRunRequest(
      runType := RunTypeProject,
      refType := refTypeOf(data.event),
      runCreationTrigger := RunCreationTriggerTypeWebhook,
      project := project,
      user := None,
      repoPath := data.repo.path,
      gitSource := gitSource,
      commitSha := data.commitSha,
      message := data.message,
      branch := data.branch,
      tag := data.tag,
      pullRequestId := data.pullRequestId,
      prFromSameRepo := data.prFromSameRepo,
      ref := data.ref,
      sshPrivKey := project.sshPrivateKey,
      sshHostKey := rs.sshHostKey,
      skipSshHostKeyCheck := skip,
      cloneUrl := data.sshUrl,
      commitLink := data.commitLink,
      branchLink := data.branchLink,
      tagLink := data.tagLink,
      pullRequestLink := data.pullRequestLink,
      compareLink := data.compareLink)
  }

  /** What the handler does with a delivery: its outcome and, in order, the
      collaborator calls it makes. The stages below continue it, each with
      the calls made so far. */
  function HandleWebhook(env: Collaborators, req: WebhookRequest): Handled {
    if req.projectId.None? || req.projectId.value == "" then
      Handled(Failed(MissingProjectId(req.url)), [])
    else
      var projectId := req.projectId.value;
      var calls := [GetProject(projectId)];
      match env.getProject(projectId)
      case Failure(e) => Handled(Failed(ProjectLookupFailed(e, projectId)), calls)
      case Success(project) => WithProject(env, req, project, calls)
  }

  /** Resolves the user owning the project's linked account. */
  function WithProject(env: Collaborators, req: WebhookRequest, project: Project, calls: seq<Call>): Handled {
    var calls := calls + [GetUserByLinkedAccount(project.linkedAccountId)];
    match env.getUserByLinkedAccount(project.linkedAccountId)
    case Failure(e) =>
      Handled(Failed(UserLookupFailed(e, project.linkedAccountId)), calls)
    case Success(user) => WithUser(env, req, project, user, calls)
  }

  /** Fetches the user's linked accounts and picks the project's one. */
  function WithUser(env: Collaborators, req: WebhookRequest, project: Project, user: User, calls: seq<Call>): Handled {
    var calls := calls + [GetUserLinkedAccounts(user.id)];
    match env.getUserLinkedAccounts(user.id)
    case Failure(e) => Handled(Failed(LinkedAccountsLookupFailed(e, user.id)), calls)
    case Success(linkedAccounts) =>
      match FindLinkedAccount(linkedAccounts, project.linkedAccountId)
      case None =>
        Handled(Failed(LinkedAccountMissing(project.linkedAccountId, user.name)), calls)
      case Some(la) => WithLinkedAccount(env, req, project, user, la, calls)
  }

  /** Fetches the linked account's remote source and builds its git source
      client. */
  function WithLinkedAccount(env: Collaborators, req: WebhookRequest, project: Project, user: User,
                             la: LinkedAccount, calls: seq<Call>): Handled
  {
    var calls := calls + [GetRemoteSource(la.remoteSourceId)];
    match env.getRemoteSource(la.remoteSourceId)
    case Failure(e) => Handled(Failed(RemoteSourceLookupFailed(e, la.remoteSourceId)), calls)
    case Success(rs) =>
      var calls := calls + [GetGitSource(rs.id, user.name, la.id)];
      match env.getGitSource(rs, user.name, la)
      case Failure(e) => Handled(Failed(GitSourceFailed(e)), calls)
      case Success(gitSource) => WithGitSource(env, req, project, rs, gitSource, calls)
  }

  /** Parses the delivery; no data means the delivery is skipped. */
  function WithGitSource(env: Collaborators, req: WebhookRequest, project: Project, rs: RemoteSource,
                         gitSource: GitSource, calls: seq<Call>): Handled
  {
    var skip := EffectiveSkipSshHostKeyCheck(rs.skipSshHostKeyCheck, project.skipSshHostKeyCheck);
    var calls := calls + [ParseWebhook(project.webhookSecret)];
    match env.parseWebhook(gitSource, req, project.webhookSecret)
    case Failure(e) => Handled(Failed(ParseFailed(e)), calls)
    case Success(None) => Handled(Skipped, calls)
    case Success(Some(data)) =>
      var runReq := BuildRunRequest(env.refTypeOf, project, gitSource, rs, skip, data);
      var calls := calls + [CreateRuns(runReq)];
      match env.createRuns(runReq)
      case Failure(e) => Handled(Failed(RunCreationFailed(e)), calls)
      case Success(_) => Handled(RunCreated(runReq), calls)
  }

  /** The error a configstore lookup call answered, if it is one and it failed. */
  function FailedLookup(env: Collaborators, c: Call): Option<Cause> {
    match c
    case GetProject(id) => if env.getProject(id).Failure? then Some(env.getProject(id).error) else None
    case GetUserByLinkedAccount(id) =>
      if env.getUserByLinkedAccount(id).Failure? then Some(env.getUserByLinkedAccount(id).error) else None
    case GetUserLinkedAccounts(id) =>
      if env.getUserLinkedAccounts(id).Failure? then Some(env.getUserLinkedAccounts(id).error) else None
    case GetRemoteSource(id) => if env.getRemoteSource(id).Failure? then Some(env.getRemoteSource(id).error) else None
    case _ => None
  }

  predicate IsParseOrRun(c: Call) {
    c.ParseWebhook? || c.CreateRuns?
  }

  /** Every lookup up to the remote source succeeded, with these answers. */
  ghost predicate ReachesRemoteSource(env: Collaborators, req: WebhookRequest, project: Project, user: User,
                                      la: LinkedAccount, rs: RemoteSource)
  {
    && req.projectId.Some? && req.projectId.value != ""
    && env.getProject(req.projectId.value) == Success(project)
    && env.getUserByLinkedAccount(project.linkedAccountId) == Success(user)
    && env.getUserLinkedAccounts(user.id).Success?
    && FindLinkedAccount(env.getUserLinkedAccounts(user.id).value, project.linkedAccountId) == Some(la)
    && env.getRemoteSource(la.remoteSourceId) == Success(rs)
  }

  /** Every lookup up to the delivery's git source client succeeded, with
      these answers. */
  ghost predicate ChainResolves(env: Collaborators, req: WebhookRequest, project: Project, user: User,
                                la: LinkedAccount, rs: RemoteSource, gitSource: GitSource)
  {
    ReachesRemoteSource(env, req, project, user, la, rs) && env.getGitSource(rs, user.name, la) == Success(gitSource)
  }

  /** A delivery without a project id is a bad request, refused before any
      call. */
  lemma MissingProjectIdIsBadRequest(env: Collaborators, req: WebhookRequest)
    requires req.projectId.None? || req.projectId == Some("")
    ensures var h := HandleWebhook(env, req);
      h.outcome.Failed? && h.outcome.error.HasCode(ErrBadRequest) && h.calls == []
  {
  }

  /** The error the handler answers when the configstore lookup `c` fails
      with `e`. */
  function LookupError(c: Call, e: Cause): Error
    requires c.GetProject? || c.GetUserByLinkedAccount? || c.GetUserLinkedAccounts? || c.GetRemoteSource?
  {
    match c
    case GetProject(id) => ProjectLookupFailed(e, id)
    case GetUserByLinkedAccount(id) => UserLookupFailed(e, id)
    case GetUserLinkedAccounts(id) => LinkedAccountsLookupFailed(e, id)
    case GetRemoteSource(id) => RemoteSourceLookupFailed(e, id)
  }

  /** The calls made so far are all lookups that succeeded. */
  ghost predicate SucceededSoFar(env: Collaborators, calls: seq<Call>) {
    forall k | 0 <= k < |calls| :: FailedLookup(env, calls[k]) == None && !IsParseOrRun(calls[k])
  }

  /** A delivery that ended on a configstore error made the failed lookup
      last, after calls that all succeeded. */
  ghost predicate EndsOnFailedLookup(env: Collaborators, h: Handled) {
    h.outcome.Failed? && h.outcome.error.RemoteApiError? ==>
      && |h.calls| > 0
      && FailedLookup(env, h.calls[|h.calls| - 1]) == Some(h.outcome.error.cause)
      && SucceededSoFar(env, h.calls[..|h.calls| - 1])
  }

  /** A lookup that failed is the last call, and its error is the answer. */
  ghost predicate StopsAtFailedLookup(env: Collaborators, h: Handled) {
    forall k | 0 <= k < |h.calls| && FailedLookup(env, h.calls[k]).Some? ::
      k == |h.calls| - 1 && h.outcome == Failed(LookupError(h.calls[k], FailedLookup(env, h.calls[k]).value))
  }

  // Each stage, started after lookups that all succeeded, ends on a failed
  // lookup exactly when its answer is that lookup's error.

  lemma GitSourceStageShortCircuits(env: Collaborators, req: WebhookRequest, project: Project, rs: RemoteSource,
                                    gitSource: GitSource, calls: seq<Call>)
    requires SucceededSoFar(env, calls)
    ensures StopsAtFailedLookup(env, WithGitSource(env, req, project, rs, gitSource, calls))
  {
    var h := WithGitSource(env, req, project, rs, gitSource, calls);
    var c := calls + [ParseWebhook(project.webhookSecret)];
    assert forall k | 0 <= k < |c| :: FailedLookup(env, c[k]) == None;
    if h.calls != c {
      var c' := c + [h.calls[|h.calls| - 1]];
      assert forall k | 0 <= k < |c'| :: FailedLookup(env, c'[k]) == None;
    }
  }

  lemma LinkedAccountStageShortCircuits(env: Collaborators, req: WebhookRequest, project: Project, user: User,
                                        la: LinkedAccount, calls: seq<Call>)
    requires SucceededSoFar(env, calls)
    ensures var h := WithLinkedAccount(env, req, project, user, la, calls);
      EndsOnFailedLookup(env, h) && StopsAtFailedLookup(env, h)
  {
    var c := calls + [GetRemoteSource(la.remoteSourceId)];
    assert c[..|c| - 1] == calls;
    if env.getRemoteSource(la.remoteSourceId).Success? {
      var rs := env.getRemoteSource(la.remoteSourceId).value;
      var c' := c + [GetGitSource(rs.id, user.name, la.id)];
      assert SucceededSoFar(env, c');
      if env.getGitSource(rs, user.name, la).Success? {
        GitSourceStageShortCircuits(env, req, project, rs, env.getGitSource(rs, user.name, la).value, c');
      }
    }
  }

  lemma UserStageShortCircuits(env: Collaborators, req: WebhookRequest, project: Project, user: User,
                               calls: seq<Call>)
    requires SucceededSoFar(env, calls)
    ensures var h := WithUser(env, req, project, user, calls);
      EndsOnFailedLookup(env, h) && StopsAtFailedLookup(env, h)
  {
    var c := calls + [GetUserLinkedAccounts(user.id)];
    assert c[..|c| - 1] == calls;
    if env.getUserLinkedAccounts(user.id).Success? {
      assert SucceededSoFar(env, c);
      var la := FindLinkedAccount(env.getUserLinkedAccounts(user.id).value, project.linkedAccountId);
      if la.Some? {
        LinkedAccountStageShortCircuits(env, req, project, user, la.value, c);
      }
    }
  }

  lemma ProjectStageShortCircuits(env: Collaborators, req: WebhookRequest, project: Project, calls: seq<Call>)
    requires SucceededSoFar(env, calls)
    ensures var h := WithProject(env, req, project, calls);
      EndsOnFailedLookup(env, h) && StopsAtFailedLookup(env, h)
  {
    var c := calls + [GetUserByLinkedAccount(project.linkedAccountId)];
    assert c[..|c| - 1] == calls;
    if env.getUserByLinkedAccount(project.linkedAccountId).Success? {
      assert SucceededSoFar(env, c);
      UserStageShortCircuits(env, req, project, env.getUserByLinkedAccount(project.linkedAccountId).value, c);
    }
  }

  /** A failed configstore lookup ends the delivery with that lookup's error:
      it is the last call made, every call before it succeeded, and neither
      the parser nor the run-creation action is called. */
  lemma LookupFailureShortCircuits(env: Collaborators, req: WebhookRequest)
    ensures var h := HandleWebhook(env, req);
      h.outcome.Failed? && h.outcome.error.RemoteApiError? ==>
        && |h.calls| > 0
        && FailedLookup(env, h.calls[|h.calls| - 1]) == Some(h.outcome.error.cause)
        && (forall k | 0 <= k < |h.calls| - 1 :: FailedLookup(env, h.calls[k]) == None)
        && (forall k | 0 <= k < |h.calls| :: !IsParseOrRun(h.calls[k]))
  {
    if req.projectId.Some? && req.projectId.value != "" {
      var projectId := req.projectId.value;
      if env.getProject(projectId).Success? {
        ProjectStageShortCircuits(env, req, env.getProject(projectId).value, [GetProject(projectId)]);
      }
    }
    var h := HandleWebhook(env, req);
    if h.outcome.Failed? && h.outcome.error.RemoteApiError? {
      forall k | 0 <= k < |h.calls| - 1
        ensures FailedLookup(env, h.calls[k]) == None && !IsParseOrRun(h.calls[k])
      {
        assert h.calls[k] == h.calls[..|h.calls| - 1][k];
      }
    }
  }

  /** A failed configstore lookup (project, user, linked accounts, remote
      source) ends the delivery: nothing is called after it, and the answer
      is that lookup's error with its message. */
  lemma FailedLookupEndsDelivery(env: Collaborators, req: WebhookRequest)
    ensures var h := HandleWebhook(env, req);
      forall k | 0 <= k < |h.calls| && FailedLookup(env, h.calls[k]).Some? ::
        k == |h.calls| - 1 && h.outcome == Failed(LookupError(h.calls[k], FailedLookup(env, h.calls[k]).value))
  {
    if req.projectId.Some? && req.projectId.value != "" {
      var projectId := req.projectId.value;
      if env.getProject(projectId).Success? {
        ProjectStageShortCircuits(env, req, env.getProject(projectId).value, [GetProject(projectId)]);
      }
    }
  }

  lemma GitSourceStageExtends(env: Collaborators, req: WebhookRequest, project: Project, rs: RemoteSource,
                              gitSource: GitSource, calls: seq<Call>)
    ensures calls <= WithGitSource(env, req, project, rs, gitSource, calls).calls
  {
  }

  lemma LinkedAccountStageFetchesRemoteSource(env: Collaborators, req: WebhookRequest, project: Project, user: User,
                                              la: LinkedAccount, calls: seq<Call>)
    ensures var h := WithLinkedAccount(env, req, project, user, la, calls);
      |h.calls| > |calls| && h.calls[|calls|] == GetRemoteSource(la.remoteSourceId)
  {
    var c := calls + [GetRemoteSource(la.remoteSourceId)];
    if env.getRemoteSource(la.remoteSourceId).Success? {
      var rs := env.getRemoteSource(la.remoteSourceId).value;
      if env.getGitSource(rs, user.name, la).Success? {
        GitSourceStageExtends(env, req, project, rs, env.getGitSource(rs, user.name, la).value,
                              c + [GetGitSource(rs.id, user.name, la.id)]);
      }
    }
  }

  /** Which linked account is used: without one whose id is the project's
      linked account id the delivery fails as an internal error before the
      remote source is fetched; otherwise the remote source fetched is that
      of the account the scan finds (the first such account, by
      FindLinkedAccountIsFirstMatch). */
  lemma LinkedAccountIsFirstMatch(env: Collaborators, req: WebhookRequest, project: Project, user: User)
    requires req.projectId.Some? && req.projectId.value != ""
    requires env.getProject(req.projectId.value) == Success(project)
    requires env.getUserByLinkedAccount(project.linkedAccountId) == Success(user)
    requires env.getUserLinkedAccounts(user.id).Success?
    ensures var las := env.getUserLinkedAccounts(user.id).value;
      var found := FindLinkedAccount(las, project.linkedAccountId);
      var h := HandleWebhook(env, req);
      && ((forall i | 0 <= i < |las| :: las[i].id != project.linkedAccountId) ==>
            h.outcome.Failed? && h.outcome.error.HasCode(ErrInternal) && |h.calls| == 3)
      && (found.Some? ==> |h.calls| >= 4 && h.calls[3] == GetRemoteSource(found.value.remoteSourceId))
  {
    var las := env.getUserLinkedAccounts(user.id).value;
    var calls := [GetProject(req.projectId.value)] + [GetUserByLinkedAccount(project.linkedAccountId)];
    assert HandleWebhook(env, req) == WithUser(env, req, project, user, calls);
    calls := calls + [GetUserLinkedAccounts(user.id)];
    FindLinkedAccountIsFirstMatch(las, project.linkedAccountId);
    var found := FindLinkedAccount(las, project.linkedAccountId);
    if found.Some? {
      LinkedAccountStageFetchesRemoteSource(env, req, project, user, found.value, calls);
    }
  }

  /** A git source client that cannot be built is an internal error, and
      the delivery is neither parsed nor turned into a run. */
  lemma GitSourceFailureIsInternal(env: Collaborators, req: WebhookRequest, project: Project, user: User,
                                   la: LinkedAccount, rs: RemoteSource)
    requires ReachesRemoteSource(env, req, project, user, la, rs)
    requires env.getGitSource(rs, user.name, la).Failure?
    ensures var h := HandleWebhook(env, req);
      h.outcome.Failed? && h.outcome.error.HasCode(ErrInternal) && forall k | 0 <= k < |h.calls| :: !IsParseOrRun(h.calls[k])
  {
  }

  /** A delivery the parser rejects is a bad request, and no run is created. */
  lemma ParseFailureIsBadRequest(env: Collaborators, req: WebhookRequest, project: Project, user: User,
                                 la: LinkedAccount, rs: RemoteSource, gitSource: GitSource)
    requires ChainResolves(env, req, project, user, la, rs, gitSource)
    requires env.parseWebhook(gitSource, req, project.webhookSecret).Failure?
    ensures var h := HandleWebhook(env, req);
      h.outcome.Failed? && h.outcome.error.HasCode(ErrBadRequest) && forall k | 0 <= k < |h.calls| :: !h.calls[k].CreateRuns?
  {
  }

  /** A delivery the parser answers with no data is skipped: success, and the
      run-creation action is never called. */
  lemma NilWebhookIsSkipped(env: Collaborators, req: WebhookRequest, project: Project, user: User,
                            la: LinkedAccount, rs: RemoteSource, gitSource: GitSource)
    requires ChainResolves(env, req, project, user, la, rs, gitSource)
    requires env.parseWebhook(gitSource, req, project.webhookSecret) == Success(None)
    ensures var h := HandleWebhook(env, req);
      h.outcome == Skipped && forall k | 0 <= k < |h.calls| :: !h.calls[k].CreateRuns?
  {
  }

  /** The run request sent for parsed data is made of the inputs alone: a
      project run triggered by a webhook with no user, the project's SSH key,
      the remote source's host key, the effective host-key policy, the SSH
      clone URL and every commit, branch, tag, pull request, ref and link
      field of the data as it is. The run-creation action's answer decides
      between an internal error and success. */
  lemma RunRequestFromWebhookData(env: Collaborators, req: WebhookRequest, project: Project, user: User,
                                  la: LinkedAccount, rs: RemoteSource, gitSource: GitSource, data: WebhookData)
    requires ChainResolves(env, req, project, user, la, rs, gitSource)
    requires env.parseWebhook(gitSource, req, project.webhookSecret) == Success(Some(data))
    ensures var h := HandleWebhook(env, req);
      && |h.calls| > 0 && h.calls[|h.calls| - 1].CreateRuns?
      && var q := h.calls[|h.calls| - 1].request;
      && q.runType == RunTypeProject
      && q.runCreationTrigger == RunCreationTriggerTypeWebhook
      && q.user == None
      && q.refType == env.refTypeOf(data.event)
      && q.project == project && q.gitSource == gitSource
      && q.cloneUrl == data.sshUrl
      && q.sshPrivKey == project.sshPrivateKey
      && q.sshHostKey == rs.sshHostKey
      && q.skipSshHostKeyCheck == (rs.skipSshHostKeyCheck || project.skipSshHostKeyCheck)
      && q.repoPath == data.repo.path
      && q.commitSha == data.commitSha && q.message == data.message
      && q.branch == data.branch && q.tag == data.tag
      && q.pullRequestId == data.pullRequestId && q.prFromSameRepo == data.prFromSameRepo
      && q.ref == data.ref
      && q.commitLink == data.commitLink && q.branchLink == data.branchLink && q.tagLink == data.tagLink
      && q.pullRequestLink == data.pullRequestLink && q.compareLink == data.compareLink
      && (env.createRuns(q).Failure? ==> h.outcome.Failed? && h.outcome.error.HasCode(ErrInternal))
      && (env.createRuns(q).Success? ==> h.outcome == RunCreated(q))
  {
  }

  /** A run is reported created only for the request the run-creation action
      accepted, which is the last call made and the only run creation. */
  lemma RunCreatedOnlyWhenAccepted(env: Collaborators, req: WebhookRequest)
    ensures var h := HandleWebhook(env, req);
      h.outcome.RunCreated? ==>
        && |h.calls| > 0 && h.calls[|h.calls| - 1] == CreateRuns(h.outcome.request)
        && env.createRuns(h.outcome.request).Success?
        && forall k | 0 <= k < |h.calls| - 1 :: !h.calls[k].CreateRuns?
  {
  }

  /** The webhook handler. */
  class WebhooksHandler {
    const collaborators: Collaborators

    constructor (collaborators: Collaborators)
      ensures this.collaborators == collaborators
    {
      this.collaborators := collaborators;
    }

    method Do(req: WebhookRequest) returns (outcome: Outcome, ghost calls: seq<Call>)
      ensures outcome == HandleWebhook(collaborators, req).outcome
      ensures calls == HandleWebhook(collaborators, req).calls
    {
      var env := collaborators;
      calls := [];
      if req.projectId.None? || req.projectId.value == "" {
        outcome := Failed(MissingProjectId(req.url));
        return;
      }
      var projectId := req.projectId.value;

      calls := [GetProject(projectId)];
      var csProject := env.getProject(projectId);
      if csProject.Failure? {
        outcome := Failed(ProjectLookupFailed(csProject.error, projectId));
        return;
      }
      var project := csProject.value;
      assert HandleWebhook(env, req) == WithProject(env, req, project, calls);

      calls := calls + [GetUserByLinkedAccount(project.linkedAccountId)];
      var userResult := env.getUserByLinkedAccount(project.linkedAccountId);
      if userResult.Failure? {
        outcome := Failed(UserLookupFailed(userResult.error, project.linkedAccountId));
        return;
      }
      var user := userResult.value;
      assert HandleWebhook(env, req) == WithUser(env, req, project, user, calls);

      calls := calls + [GetUserLinkedAccounts(user.id)];
      var lasResult := env.getUserLinkedAccounts(user.id);
      if lasResult.Failure? {
        outcome := Failed(LinkedAccountsLookupFailed(lasResult.error, user.id));
        return;
      }
      var linkedAccounts := lasResult.value;

      var found: Option<LinkedAccount> := None;
      var i := 0;
      while i < |linkedAccounts|
        invariant 0 <= i <= |linkedAccounts|
        invariant found == None
        invariant FindLinkedAccount(linkedAccounts, project.linkedAccountId)
               == FindLinkedAccount(linkedAccounts[i..], project.linkedAccountId)
      {
        if linkedAccounts[i].id == project.linkedAccountId {
          found := Some(linkedAccounts[i]);
          break;
        }
        assert linkedAccounts[i..][1..] == linkedAccounts[i + 1..];
        i := i + 1;
      }
      assert found == FindLinkedAccount(linkedAccounts, project.linkedAccountId);
      if found.None? {
        outcome := Failed(LinkedAccountMissing(project.linkedAccountId, user.name));
        return;
      }
      var la := found.value;
      assert HandleWebhook(env, req) == WithLinkedAccount(env, req, project, user, la, calls);

      calls := calls + [GetRemoteSource(la.remoteSourceId)];
      var rsResult := env.getRemoteSource(la.remoteSourceId);
      if rsResult.Failure? {
        outcome := Failed(RemoteSourceLookupFailed(rsResult.error, la.remoteSourceId));
        return;
      }
      var rs := rsResult.value;

      calls := calls + [GetGitSource(rs.id, user.name, la.id)];
      var gsResult := env.getGitSource(rs, user.name, la);
      if gsResult.Failure? {
        outcome := Failed(GitSourceFailed(gsResult.error));
        return;
      }
      var gitSource := gsResult.value;
      assert HandleWebhook(env, req) == WithGitSource(env, req, project, rs, gitSource, calls);

      var skipSshHostKeyCheck := rs.skipSshHostKeyCheck;
      if project.skipSshHostKeyCheck {
        skipSshHostKeyCheck := project.skipSshHostKeyCheck;
      }

      calls := calls + [ParseWebhook(project.webhookSecret)];
      var parsed := env.parseWebhook(gitSource, req, project.webhookSecret);
      if parsed.Failure? {
        outcome := Failed(ParseFailed(parsed.error));
        return;
      }
      if parsed.value.None? {
        outcome := Skipped;
        return;
      }
      var data := parsed.value.value;

      var runReq := BuildRunRequest(env.refTypeOf, project, gitSource, rs, skipSshHostKeyCheck, data);
      calls := calls + [CreateRuns(runReq)];
      var created := env.createRuns(runReq);
      if created.Failure? {
        outcome := Failed(RunCreationFailed(created.error));
        return;
      }
      outcome := RunCreated(runReq);
    }
  }
}
