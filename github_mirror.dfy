/** `updateGitHubIfIntegrated`: mirror a project's new HTML to its linked GitHub repository.
    A ladder of guarded steps with early exits: look up the integration row, look up the
    user's stored token, decrypt it, split `repo_full_name` into owner and repo, fetch the
    sha of `index.html`, and commit over it. Every exception is caught, so the function
    always returns an `{updated, message}` result. The database, the token decryption and the
    two GitHub calls are collaborators whose outcomes the caller chooses; the result and the
    calls made are then a function of those outcomes. */
module GitHubMirror {
  import opened JsStrings

  const DefaultCommitMessage := "Atualização automática do site"
  const NoIntegrationMessage := "Sem integração GitHub"
  const NoTokenMessage := "Token GitHub não encontrado"
  const SuccessMessage := "Repositório GitHub atualizado com sucesso"
  const FallbackErrorMessage := "Erro ao atualizar GitHub"
  const TrackedPath := "index.html"
  /** The TypeError message V8 gives when `split` is called on a null repository name. */
  const NullSplitMessage := "Cannot read properties of null (reading 'split')"

  /** A `github_integrations` row, as far as the function reads it. */
  datatype Integration = Integration(repoFullName: Option<string>, repoUrl: string)

  /** The arguments of `repos.getContent`, with the Octokit token it runs under. */
  datatype ContentRequest = ContentRequest(token: string, owner: string, repo: Option<string>, path: string)

  /** The arguments of `repos.createOrUpdateFileContents`; `html` is sent base64-encoded. */
  datatype UpdateRequest = UpdateRequest(
    token: string, owner: string, repo: Option<string>, path: string,
    message: string, html: string, sha: Option<string>)

  /** The collaborators the function calls, in the order it may call them. */
  datatype Call =
    | QueryIntegration(projectId: string, userId: string)
    | QueryToken(userId: string)
    | GetContent(get: ContentRequest)
    | UpdateFile(put: UpdateRequest)

  predicate IsGitHubCall(c: Call) {
    c.GetContent? || c.UpdateFile?
  }

  /** The outcomes of the collaborators: the two queries' rows (or their exception),
      `decrypt` of a stored token, and the two GitHub endpoints (getContent yields the
      file's `sha`, absent when the path is not a file). */
  datatype Env = Env(
    integrations: Reply<seq<Integration>>,
    tokens: Reply<seq<string>>,
    decrypt: string -> Reply<string>,
    getContent: ContentRequest -> Reply<Option<string>>,
    updateFile: UpdateRequest -> Reply<()>)

  /** `{ updated, message, repoUrl?, error? }`. */
  datatype UpdateResult = UpdateResult(updated: bool, message: string, repoUrl: Option<string>, error: Option<Thrown>)

  datatype Mirror = Mirror(result: UpdateResult, trace: seq<Call>)

  /** The error's message when it is present and non-empty, the fixed fallback otherwise. */
  function ErrorText(e: Thrown): string {
    if e.message.Some? && e.message.value != "" then e.message.value else FallbackErrorMessage
  }

  /** The `catch` block's result. */
  function Caught(e: Thrown): (r: UpdateResult)
    ensures !r.updated && r.error == Some(e) && r.repoUrl.None?
    ensures r.message != "" && (e.message.Some? && e.message.value != "" ==> r.message == e.message.value)
    ensures !(e.message.Some? && e.message.value != "") ==> r.message == FallbackErrorMessage
  {
    UpdateResult(false, ErrorText(e), None, Some(e))
  }

  /** The owner and repository destructured from the '/'-split of the full name: the first two pieces; `repo` is
      undefined when there is no '/', and pieces after the second are ignored. */
  function OwnerAndRepo(full: string): (r: (string, Option<string>))
    ensures '/' !in r.0
    ensures r.1.None? <==> '/' !in full
    ensures r.1.None? ==> r.0 == full
    ensures r.1.Some? ==>
      var n := |r.0| + 1 + |r.1.value|;
      && '/' !in r.1.value
      && n <= |full| && full[..n] == r.0 + "/" + r.1.value
      && (n == |full| || full[n] == '/')
  {
    var parts := Split(full, '/');
    OwnerAndRepoShape(parts);
    (parts[0], if |parts| >= 2 then Some(parts[1]) else None)
  }

  lemma OwnerAndRepoShape(parts: seq<string>)
    requires |parts| >= 1
    requires forall k :: 0 <= k < |parts| ==> '/' !in parts[k]
    ensures |parts| == 1 ==> Join(parts, '/') == parts[0]
    ensures |parts| >= 2 ==>
      var full := Join(parts, '/');
      var n := |parts[0]| + 1 + |parts[1]|;
      && n <= |full| && full[..n] == parts[0] + "/" + parts[1]
      && (n == |full| || full[n] == '/')
    ensures |parts| >= 2 <==> '/' in Join(parts, '/')
  {
    if |parts| >= 2 {
      var full := Join(parts, '/');
      var tail := Join(parts[1..], '/');
      assert full == parts[0] + "/" + tail;
      assert full[|parts[0]|] == '/';
      if |parts| == 2 {
        assert tail == parts[1];
      } else {
        assert tail == parts[1] + "/" + Join(parts[2..], '/');
      }
      var n := |parts[0]| + 1 + |parts[1]|;
      assert full[..n] == parts[0] + "/" + parts[1];
    }
  }

  /** The guards before the GitHub calls all pass: an integration row with a repository
      name, a stored token, and a token that decrypts. */
  predicate Integrated(env: Env) {
    && env.integrations.Ok? && env.integrations.value != []
    && env.integrations.value[0].repoFullName.Some?
    && env.tokens.Ok? && env.tokens.value != []
    && env.decrypt(env.tokens.value[0]).Ok?
  }

  function CommitMessage(commitMessage: Option<string>): (m: string)
    ensures commitMessage.None? ==> m == DefaultCommitMessage
    ensures commitMessage.Some? ==> m == commitMessage.value
  {
    if commitMessage.Some? then commitMessage.value else DefaultCommitMessage
  }

  /** `updateGitHubIfIntegrated(userId, id_projeto, htmlContent, commitMessage)`;
      `commitMessage` is `None` when the argument is left out. */
  function UpdateGitHubIfIntegrated(userId: string, projectId: string, html: string,
                                    commitMessage: Option<string>, env: Env): (m: Mirror)
    // the integration lookup always comes first
    ensures |m.trace| >= 1 && m.trace[0] == QueryIntegration(projectId, userId)
    // no integration row: nothing else is looked up or called
    ensures env.integrations == Ok([]) ==>
      m == Mirror(UpdateResult(false, NoIntegrationMessage, None, None), [QueryIntegration(projectId, userId)])
    // no token row: no GitHub call
    ensures env.integrations.Ok? && env.integrations.value != [] && env.tokens == Ok([]) ==>
      m == Mirror(UpdateResult(false, NoTokenMessage, None, None),
                  [QueryIntegration(projectId, userId), QueryToken(userId)])
    // GitHub is called only for an integration with a decryptable token and a repo name,
    // and every GitHub call targets that repository with the decrypted token
    ensures forall k :: 0 <= k < |m.trace| && IsGitHubCall(m.trace[k]) ==>
      && Integrated(env)
      && var owner := if m.trace[k].GetContent? then m.trace[k].get.owner else m.trace[k].put.owner;
         var repo := if m.trace[k].GetContent? then m.trace[k].get.repo else m.trace[k].put.repo;
         var token := if m.trace[k].GetContent? then m.trace[k].get.token else m.trace[k].put.token;
         && (owner, repo) == OwnerAndRepo(env.integrations.value[0].repoFullName.value)
         && token == env.decrypt(env.tokens.value[0]).value
    // the commit rewrites index.html over the sha just fetched for index.html
    ensures forall k :: 0 <= k < |m.trace| && m.trace[k].UpdateFile? ==>
      var put := m.trace[k].put;
      && k > 0 && m.trace[k - 1].GetContent?
      && m.trace[k - 1].get.path == TrackedPath && put.path == TrackedPath
      && m.trace[k - 1].get.owner == put.owner && m.trace[k - 1].get.repo == put.repo
      && env.getContent(m.trace[k - 1].get) == Ok(put.sha)
      && put.html == html && put.message == CommitMessage(commitMessage)
    // updated exactly when both GitHub calls succeed, and then with the repo url
    ensures m.result.updated <==>
      |m.trace| == 4 && m.trace[3].UpdateFile? && env.updateFile(m.trace[3].put).Ok?
    ensures m.result.updated ==>
      && Integrated(env) && |m.trace| == 4 && m.trace[2].GetContent?
      && m.result == UpdateResult(true, SuccessMessage, Some(env.integrations.value[0].repoUrl), None)
      && env.getContent(m.trace[2].get).Ok?
    // never throws: every other outcome is one of the two guard results or a caught error
    ensures !m.result.updated ==>
      || m.result.message == NoIntegrationMessage
      || m.result.message == NoTokenMessage
      || (m.result.error.Some? && m.result == Caught(m.result.error.value))
  {
    var asked := [QueryIntegration(projectId, userId)];
    match env.integrations
    case Throws(e) => Mirror(Caught(e), asked)
    case Ok(rows) =>
      if rows == [] then Mirror(UpdateResult(false, NoIntegrationMessage, None, None), asked)
      else
        var integration := rows[0];
        var asked := [QueryIntegration(projectId, userId), QueryToken(userId)];
        match env.tokens
        case Throws(e) => Mirror(Caught(e), asked)
        case Ok(tokens) =>
          if tokens == [] then Mirror(UpdateResult(false, NoTokenMessage, None, None), asked)
          else
            match env.decrypt(tokens[0])
            case Throws(e) => Mirror(Caught(e), asked)
            case Ok(token) =>
              match integration.repoFullName
              case None => Mirror(Caught(Thrown(Some(NullSplitMessage))), asked)
              case Some(full) =>
                var (owner, repo) := OwnerAndRepo(full);
                var get := ContentRequest(token, owner, repo, TrackedPath);
                var asked := [QueryIntegration(projectId, userId), QueryToken(userId), GetContent(get)];
                match env.getContent(get)
                case Throws(e) => Mirror(Caught(e), asked)
                case Ok(sha) =>
                  var put := UpdateRequest(token, owner, repo, TrackedPath, CommitMessage(commitMessage), html, sha);
                  var asked := [QueryIntegration(projectId, userId), QueryToken(userId), GetContent(get), UpdateFile(put)];
                  match env.updateFile(put)
                  case Throws(e) => Mirror(Caught(e), asked)
                  case Ok(_) =>
                    Mirror(UpdateResult(true, SuccessMessage, Some(integration.repoUrl), None), asked)
  }

  /** The `getContent` request of an integrated project: the split repository name and the
      decrypted token. */
  function ContentRequestOf(env: Env): ContentRequest
    requires Integrated(env)
  {
    var (owner, repo) := OwnerAndRepo(env.integrations.value[0].repoFullName.value);
    ContentRequest(env.decrypt(env.tokens.value[0]).value, owner, repo, TrackedPath)
  }

  /** The commit request that follows a `getContent` answering `sha`. */
  function UpdateRequestOf(env: Env, html: string, commitMessage: Option<string>, sha: Option<string>): UpdateRequest
    requires Integrated(env)
  {
    var get := ContentRequestOf(env);
    UpdateRequest(get.token, get.owner, get.repo, TrackedPath, CommitMessage(commitMessage), html, sha)
  }

  /** Every exception is caught where it is raised: the result is `Caught` of that very
      error, and the calls made are exactly those up to and including the one that threw. */
  lemma UpdateGitHubCatches(userId: string, projectId: string, html: string,
                            commitMessage: Option<string>, env: Env)
    ensures var m := UpdateGitHubIfIntegrated(userId, projectId, html, commitMessage, env);
      var asked := [QueryIntegration(projectId, userId), QueryToken(userId)];
      && (env.integrations.Throws? ==>
            m == Mirror(Caught(env.integrations.error), [QueryIntegration(projectId, userId)]))
      && (env.integrations.Ok? && env.integrations.value != [] && env.tokens.Throws? ==>
            m == Mirror(Caught(env.tokens.error), asked))
      && (env.integrations.Ok? && env.integrations.value != [] && env.tokens.Ok? && env.tokens.value != [] ==>
            var d := env.decrypt(env.tokens.value[0]);
            && (d.Throws? ==> m == Mirror(Caught(d.error), asked))
            // `split` on a null repository name raises a TypeError
            && (d.Ok? && env.integrations.value[0].repoFullName.None? ==>
                  m == Mirror(Caught(Thrown(Some(NullSplitMessage))), asked)))
      && (Integrated(env) ==>
            var get := ContentRequestOf(env);
            var c := env.getContent(get);
            && (c.Throws? ==> m == Mirror(Caught(c.error), asked + [GetContent(get)]))
            && (c.Ok? ==>
                  var put := UpdateRequestOf(env, html, commitMessage, c.value);
                  var u := env.updateFile(put);
                  && m.trace == asked + [GetContent(get), UpdateFile(put)]
                  && (u.Throws? ==> m.result == Caught(u.error))))
  {
  }
}
