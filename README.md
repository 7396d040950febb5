# Site generation jobs and GitHub mirroring, modelled in Dafny

This project models two parts of the back end of a site builder:

- the site-generation job pipeline of `api/controllers/siteController_uploadok.js`;
- the GitHub mirror helper `updateGitHubIfIntegrated` of `api/controllers/updateGitHubOnSiteChange.js`.

**The pipeline.** A `newsite` request is validated. It then gets a job id, which is registered as `processing` in an in-memory job table, and the answer goes out at once. A detached task then:
- reads the newest `generated_sites` row of the project;
- builds the model prompt, quoting the current HTML when there is some and the logo URL when a file was uploaded;
- streams a completion and strips markdown fences from it (`limparRetorno`);
- inserts a site row and a prompt row;
- creates a DirectAdmin hosting account on the project's first generation;
- uploads the HTML over FTP;
- ends the job in `done` or `error`.

`newsite` is modelled as its two halves: `SiteJobs.SiteService.Submit` answers the request, and `SiteJobs.SiteService.Run` is the detached task run to completion on the job `Submit` registered. `jobStatus` looks a job up. `check_id_projeto` answers whether a project has no rows yet.

**The model.** Every collaborator is an abstract call whose outcome the caller of the model chooses: the connection pool and its queries, the model stream, DirectAdmin, FTP, the GitHub endpoints and token decryption.

- `SiteJobs.SiteService` is a class. It holds the job table (a `map`), the two tables (append-only `seq`s) and a log of every collaborator call, in order.
- Its methods are proved against the pure function `SiteJobs.RunEffect`. That function gives, for the old tables and the outcomes, the calls one background run makes, the rows it leaves behind and the job entry it ends with.
- Lemmas about `RunEffect` state the pipeline's promises: terminal states, call ordering, when hosting is provisioned, no rollback, connection release, and what a later revision sees.
- The mirror helper is a pure function from the collaborators' outcomes to its result and the calls it made.
- The JavaScript string operations the code relies on are written out in `JsStrings`: `trim` with the ECMAScript white-space set, and `split` with a one-character separator. Both global regex replacements of `limparRetorno` are written out in `Fences`, as the leftmost, resume-after-match scan that a global `replace` performs.

Module layout:
- `js_strings.dfy`: options, thrown errors, collaborator replies, `trim` and `split`;
- `fences.dfy`: `limparRetorno`;
- `generation.dfy`: `gerarParte`;
- `site_jobs.dfy`: the job pipeline, `jobStatus` and `check_id_projeto`;
- `github_mirror.dfy`: `updateGitHubIfIntegrated`.

**What this variant of the controller does:**
- A run only appends a site row and a prompt row; no row is ever updated. The newest row of the project (by insertion) is the base of a revision.
- The hosting account, domain and FTP user are derived directly from the project id (`user<id>`, `site<id>.seudominio.com`), with the fixed password and FTP host of the controller.
- Provisioning and upload happen after both inserts. When they fail, the inserted rows stay.
- A failed generation does not fail the job. `gerarParte` returns a fixed HTML comment instead of throwing, and that comment is stored and uploaded like any generated page (`SiteJobs.FailedGenerationIsPublished`).
- When an image is attached, the image sentence follows the user's prompt, so the prompt ends the final prompt only when there is no image. What holds in every case: the prompt opens `fullPrompt`, `fullPrompt` closes the final prompt, and the prompt is a suffix when there is no image (`SiteJobs.PromptComposition`).
- The second replacement in `limparRetorno` never finds anything. After the first one no "```" is left (`Fences.SecondReplaceRedundant`).
- The controller imports `criarContaDirectAdmin` and `enviarHTMLFTP`, which `integracao_directadmin.js` does not export (it exports `criarSubdominioDirectAdmin` and `enviarHTMLSubdominio`). The two imported names are modelled as opaque calls, `CreateAccount` and `UploadFtp`, with the literal arguments the controller passes.

## Model

| member | source | states |
|---|---|---|
| JsStrings.TrimStart | api/controllers/siteController_uploadok.js:23 | the result is a suffix of the input, everything dropped is white space, and the result does not start with white space |
| JsStrings.TrimEnd | api/controllers/siteController_uploadok.js:23 | the result is a prefix of the input, everything dropped is white space, and the result does not end with white space |
| JsStrings.Trim | api/controllers/siteController_uploadok.js:23 | the result is a slice of the input with only white space around it, and neither of its ends is white space |
| JsStrings.TrimCharacterized | api/controllers/siteController_uploadok.js:119 | any slice of the input that has only white space around it and is itself trimmed equals `trim` of the input, so `trim` is fully determined by its contract |
| JsStrings.TrimTrimmed | api/controllers/siteController_uploadok.js:23 | trimming a string without surrounding white space leaves it unchanged |
| JsStrings.Split | api/controllers/updateGitHubOnSiteChange.js:55 | `split` gives at least one piece, no piece contains the separator, and joining the pieces with the separator gives back the input |
| JsStrings.SplitNoSeparator | api/controllers/updateGitHubOnSiteChange.js:55 | a string without the separator splits into itself alone |
| JsStrings.SplitJoin | api/controllers/updateGitHubOnSiteChange.js:55 | splitting the join of separator-free pieces gives back exactly those pieces |
| Fences.TagLength | api/controllers/siteController_uploadok.js:21 | the optional html/css/js group matches 0, 2, 3 or 4 characters, never more than are left |
| Fences.TagLengthOf | api/controllers/siteController_uploadok.js:21 | before a line feed, the optional group matches exactly an empty, html, css or js tag in any ASCII case |
| Fences.TaggedFenceLength | api/controllers/siteController_uploadok.js:21 | a match of the first pattern is at least the three backticks and stays inside the input |
| Fences.LimparRetorno | api/controllers/siteController_uploadok.js:19-24 | the cleaned reply contains no "```" and has no surrounding white space |
| Fences.StripTaggedFences | api/controllers/siteController_uploadok.js:21 | the first replacement's result is never longer than its input |
| Fences.StripBareFences | api/controllers/siteController_uploadok.js:22 | the second replacement's result is never longer than its input, and it shortens its input by a multiple of three |
| Fences.StripTaggedHasNoFence | api/controllers/siteController_uploadok.js:21 | after the first global replacement no "```" is left anywhere |
| Fences.StripBareHasNoFence | api/controllers/siteController_uploadok.js:22 | after the second global replacement no "```" is left anywhere |
| Fences.StripWithoutFence | api/controllers/siteController_uploadok.js:21-22 | both replacements leave a string without "```" unchanged |
| Fences.SecondReplaceRedundant | api/controllers/siteController_uploadok.js:21-22 | the second replacement leaves the first one's output unchanged |
| Fences.LimparIdempotent | api/controllers/siteController_uploadok.js:19-24 | cleaning an already cleaned reply changes nothing |
| Fences.LimparWithoutFence | api/controllers/siteController_uploadok.js:19-24 | a reply without "```" is only trimmed |
| Fences.LimparWithoutBackticks | api/controllers/siteController_uploadok.js:19-24 | a reply without any backtick is only trimmed |
| Fences.StripTaggedKeepsPlainPrefix | api/controllers/siteController_uploadok.js:21 | text without backticks passes through the first replacement untouched, whatever follows it |
| Fences.LimparFencedBlock | api/controllers/siteController_uploadok.js:19-24 | a reply of the form "```" + tag + line feed + body + "```", with tag empty or html/css/js in any ASCII case and a body without backticks, cleans to the trimmed body |
| Generation.CollectedAppend | api/controllers/siteController_uploadok.js:65-71 | the text collected from two stretches of the stream is the first stretch's text followed by the second's |
| Generation.OtherEventIgnored | api/controllers/siteController_uploadok.js:67 | an event that is not a text-carrying `content_block_delta` adds nothing, wherever it stands |
| Generation.CollectedTexts | api/controllers/siteController_uploadok.js:65-71 | any stream of text deltas, empty texts included, collects to the in-order concatenation of their texts |
| Generation.GeneratedIsClean | api/controllers/siteController_uploadok.js:77-88 | whatever the stream does, the generated HTML has no "```" and no surrounding white space |
| Generation.AbortDiscardsChunks | api/controllers/siteController_uploadok.js:81-89 | an exception anywhere in the stream discards everything received and yields the fixed error comment |
| Generation.GerarParte | api/controllers/siteController_uploadok.js:42-89 | the streaming loop returns the cleaned in-order text of the deltas, or the error comment when opening or reading the stream throws; it never throws |
| GitHubMirror.Caught | api/controllers/updateGitHubOnSiteChange.js:82-89 | a caught error gives `updated: false` with the error attached, and the error's message when it is non-empty, otherwise "Erro ao atualizar GitHub" |
| GitHubMirror.OwnerAndRepo | api/controllers/updateGitHubOnSiteChange.js:55 | the owner is the text before the first '/' (all of it when there is none); the repo is the text between the first and second '/', undefined exactly when there is no '/'; later pieces are ignored |
| GitHubMirror.CommitMessage | api/controllers/updateGitHubOnSiteChange.js:17 | the commit message defaults to "Atualização automática do site" when the argument is left out |
| GitHubMirror.UpdateGitHubIfIntegrated | api/controllers/updateGitHubOnSiteChange.js:17-90 | the integration lookup comes first; with no integration, "Sem integração GitHub" and no other call; with no token, "Token GitHub não encontrado" and no GitHub call; GitHub is called only with an integration, a repo name and a decryptable token, on the split owner/repo, with the decrypted token; the update writes `index.html` over the sha just fetched for it, with the given HTML and commit message; `updated` holds exactly when both GitHub calls succeed, and then the result carries the repo URL; every other result is one of the two guard results or the caught error |
| GitHubMirror.UpdateGitHubCatches | api/controllers/updateGitHubOnSiteChange.js:17-89 | an exception from the integration query, the token query, the decryption, the `split` of a null repository name, `getContent` or the commit gives `Caught` of that very error (the TypeError for the null name), and the calls made are exactly those up to and including the one that threw |
| SiteJobs.SiteCountZero | api/controllers/siteController_uploadok.js:151 | a project has no rows exactly when no row carries its id |
| SiteJobs.Newest | api/controllers/siteController_uploadok.js:132-137 | the newest row is absent exactly when the project has no rows; otherwise it is a row of the project after which no row of the project follows |
| SiteJobs.BaseHtmlIsNewest | api/controllers/siteController_uploadok.js:139 | the base HTML is "" for a project without rows, and otherwise the (possibly null) HTML of the project's last row |
| SiteJobs.FullPrompt | api/controllers/siteController_uploadok.js:142-144 | the prompt opens `fullPrompt`; `fullPrompt` is the prompt itself exactly when there is no image URL, and otherwise ends with the image sentence and the URL |
| SiteJobs.FinalPrompt | api/controllers/siteController_uploadok.js:146-148 | `fullPrompt` closes the final prompt; the final prompt is `fullPrompt` itself exactly when the base HTML is empty or null, and otherwise opens with the header, the HTML and the change request |
| SiteJobs.IsNewProject | api/controllers/siteController_uploadok.js:231-234 | a project is new exactly when no row carries its id |
| SiteJobs.NotNewAfterInsert | api/controllers/siteController_uploadok.js:153-159 | once a site row is inserted for a project, `check_id_projeto` no longer calls it new |
| SiteJobs.PromptComposition | api/controllers/siteController_uploadok.js:114-148 | the image URL is the logo base URL plus the file name; the prompt opens `fullPrompt`, and `fullPrompt` closes the final prompt; the prompt is a suffix of the final prompt when there is no image; a non-empty base HTML is quoted after "HTML atual:" and followed by the change request, which `fullPrompt` follows directly; otherwise the final prompt is `fullPrompt` |
| SiteJobs.RunEndsTerminal | api/controllers/siteController_uploadok.js:174-177 | a run always ends its job in `done` or `error`, with a well-formed entry, never in `processing` |
| SiteJobs.RunOutcome | api/controllers/siteController_uploadok.js:153-177 | the job ends in `done` exactly when every collaborator reached succeeded, and then its result is the inserted row's returned columns; otherwise it ends in `error` with the first failure's message |
| SiteJobs.AttemptIsPrefix | api/controllers/siteController_uploadok.js:131-172 | the `try` block's calls are a prefix of its complete call sequence, cut right after the first call that throws |
| SiteJobs.AttemptShape | api/controllers/siteController_uploadok.js:131-172 | the `try` block makes at least one call, its calls are a prefix of the complete sequence, and it makes all of them exactly when the select and both inserts succeed and, on a first run, provisioning succeeds |
| SiteJobs.AttemptBrackets | api/controllers/siteController_uploadok.js:131-172 | the `try` block never connects or releases |
| SiteJobs.AttemptHostingCounts | api/controllers/siteController_uploadok.js:151-171 | the `try` block provisions once exactly when both inserts went through on a project that had no row, and uploads the generated HTML once exactly when it gets past provisioning |
| SiteJobs.AttemptHostingKinds | api/controllers/siteController_uploadok.js:153-171 | in the `try` block every provisioning call is for the run's project, every upload is of the generated HTML, and hosting calls come after both inserts |
| SiteJobs.RunReleasesConnection | api/controllers/siteController_uploadok.js:128-180 | a run connects once, first; an obtained client is released exactly once, as the last call; when connecting throws nothing else happens |
| SiteJobs.RunHostingCalls | api/controllers/siteController_uploadok.js:151-171 | provisioning is called once, for the run's own project, exactly when the project had no rows before the run and both inserts succeeded, and never for another project; the FTP upload of the generated HTML is called once exactly when the run gets past provisioning |
| SiteJobs.OtherProjectNotProvisioned | api/controllers/siteController_uploadok.js:167-169 | a run never provisions the hosting account of another project |
| SiteJobs.RunHostingTargets | api/controllers/siteController_uploadok.js:167-171 | every provisioning call of a run uses the account, password and domain derived from the run's project, and every upload sends the generated HTML to that account |
| SiteJobs.RunFollowsProgramOrder | api/controllers/siteController_uploadok.js:129-180 | a run is connect, a prefix of the complete `try` block in program order, then release once connected; any hosting call comes after the site insert and the prompt insert |
| SiteJobs.RunCompleteIffReachesUpload | api/controllers/siteController_uploadok.js:129-180 | a run makes every call of the complete run exactly when it reaches the upload |
| SiteJobs.RunNeverRollsBack | api/controllers/siteController_uploadok.js:153-177 | the site row is inserted exactly when its insert succeeded and it stays whatever fails later; the prompt row is inserted exactly when both inserts succeeded; both carry the request's values |
| SiteJobs.FailedGenerationIsPublished | api/controllers/siteController_uploadok.js:150-174 | when the model stream throws and everything else succeeds, the job ends `done` with the error comment as its HTML, and that comment is uploaded |
| SiteJobs.FailedProvisioningIsNotRetried | api/controllers/siteController_uploadok.js:151-169 | after a run that called provisioning, even one that failed, the project has a row, so no later run for the project provisions again |
| SiteJobs.RevisionQuotesPriorHtml | api/controllers/siteController_uploadok.js:132-151 | after a run stored HTML h, the next run for the project asks the model about h (or just the prompt when h is empty) and does not provision |
| SiteJobs.RunKeepsInvariant | api/controllers/siteController_uploadok.js:153-171 | a run keeps the invariant: per project, no more prompt rows than site rows; at most one provisioning call; a provisioning call only for a project with a row |
| SiteJobs.SiteService.constructor | api/controllers/siteController_uploadok.js:106 | the job table starts empty, as does the call log, over existing rows with no more prompt rows than site rows per project, and the invariant holds |
| SiteJobs.SiteService.Submit | api/controllers/siteController_uploadok.js:108-125 | a request without a body, or with a truthy non-string prompt, gets 500 "Erro ao criar job"; an absent, falsy or blank prompt gets 400 "Prompt não enviado"; exactly the other requests are accepted, with the fresh id registered as `processing`, no other entry changed, and the run handed the prompt, project, user and image URL; a refused request leaves the table unchanged and starts no work |
| SiteJobs.SiteService.Register | api/controllers/siteController_uploadok.js:123-124 | the fresh id is entered as `processing`, no other entry changes, and the invariant holds |
| SiteJobs.SiteService.Attempt | api/controllers/siteController_uploadok.js:131-174 | the `try` block appends the calls, rows and job entry `AttemptEffect` gives |
| SiteJobs.SiteService.Finish | api/controllers/siteController_uploadok.js:161-174 | the steps after the site insert append the calls, the prompt row and the job entry `FinishEffect` gives |
| SiteJobs.SiteService.Background | api/controllers/siteController_uploadok.js:127-181 | the detached task appends the calls and rows `RunEffect` gives and sets only its own job entry |
| SiteJobs.SiteService.Run | api/controllers/siteController_uploadok.js:127-181 | the background run ends its `processing` job in `done` or `error`, changes no other entry, appends the calls and rows `RunEffect` gives, and keeps the invariant |
| SiteJobs.SiteService.JobStatus | api/controllers/siteController_uploadok.js:189-194 | a stored id gets its entry, which is well-formed; `__proto__` gets 200 with an empty job; a method name every object inherits (`constructor`, `toString`, ...) that is not stored gets 200 without a job; any other id gets 404 "Job não encontrado"; nothing changes |
| SiteJobs.SiteService.CheckIdProjeto | api/controllers/siteController_uploadok.js:210-254 | the answer is `true` exactly when no row carries the project id; a failure gives 500 with the fixed error and the failure's message as details; an obtained client is released |
| SiteJobs.SiteService.CountOnClient | api/controllers/siteController_uploadok.js:227-253 | on an obtained client the count query is made and the client released; the answer is `true` exactly when no row carries the project id, and a failed query gives 500 with its message as details |

## Left out

- Real I/O is not modelled: SQL through the pool, the Anthropic stream, DirectAdmin HTTP, FTP and Octokit. Each call is an abstract outcome (a value or a thrown error) chosen by the caller of the model. `api/controllers/integracao_directadmin.js` is not part of this model.
- Concurrency is not modelled. The detached task runs concurrently with later requests and with other jobs; the model runs each job's background half as one sequential method, so interleavings of jobs for the same project are not covered.
- The Gemini branch of `gerarParte` is not modelled. It is switched off by a constant, so it is dead code.
- The fixed system-prompt text wrapped around the final prompt is not modelled, nor the model name and token limit. They are literal request parameters with no logic.
- Console logging is not modelled, nor the unused local `imageFile`.
- UUID generation is not modelled. `Submit` takes the fresh id as a parameter and requires that it is not in the job table yet and is not `__proto__`, which no UUID is.
- `getSites` is not modelled. It is a single query that returns its rows.
- SiteJobs.Newest: takes the project's last row in insertion order as its newest. This assumes `created_at` grows with insertion, whereas the query orders by `created_at` itself.
- SiteJobs.SiteService.Submit: `id_projeto` is a string. A body without it (JavaScript `undefined`) is not modelled separately.
- SiteJobs.SiteService.CheckIdProjeto: the `COUNT(*)` query's result is not represented as a row. The answer is taken from the modelled table, and a query that throws is an abstract failure.
- GitHubMirror.UpdateGitHubIfIntegrated: the base64 encoding of the content is not modelled; the update request carries the HTML as text. A null `repo_url` or `access_token` is not modelled. Token decryption is an abstract collaborator.
- Strings are sequences of Unicode scalar values, whereas JavaScript strings are UTF-16. This matters neither to `trim` nor to the fence patterns, which only look at BMP characters.
