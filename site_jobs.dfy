/** The site-generation job pipeline of `siteController_uploadok.js`.

    State: the process-wide job table `jobs`, the rows of `generated_sites` and
    `site_prompts` (only ever appended to), and the log of every call the controller makes
    to its collaborators (connection pool, model stream, DirectAdmin, FTP). The outcome of
    each collaborator call is chosen by the caller of the model through `Outcomes`.

    `newsite` has a request half (`Submit`: validate, register a `processing` job, answer)
    and a background half (`Run`: one sequential run of the detached task). `RunEffect` is
    the function of the old state and the outcomes that `Run` is proved against; the lemmas
    below it state what the controller promises about a run. */
module SiteJobs {
  import opened JsStrings
  import opened Generation

  type JobId = string

  const LogoBaseUrl := "https://back.sitexpres.com.br/uploads/logos/"
  const ImageInstruction := "\nUse esta url da imagem no site: "
  const CurrentHtmlHeader := "HTML atual:\n"
  const ChangeRequest := "\nFaça as alterações solicitadas: "
  const SiteNamePrefix := "Site de "
  const NoPromptMessage := "Prompt não enviado"
  const JobCreationFailed := "Erro ao criar job"
  const JobNotFoundMessage := "Job não encontrado"
  const CheckFailedMessage := "Erro interno do servidor ao verificar a existência do projeto."
  const HostingPassword := "Senha123!"
  const FtpHost := "ftp.seudominio.com"

  /** The DirectAdmin account of a project: "user" followed by the project id. */
  function AccountName(projectId: string): string {
    "user" + projectId
  }

  function AccountDomain(projectId: string): string {
    "site" + projectId + ".seudominio.com"
  }

  // ---------------------------------------------------------------- requests and rows

  /** `req.body.prompt`: absent, a string, or some other JSON value (falsy or truthy). */
  datatype PromptField = Missing | Text(text: string) | OtherFalsy | OtherTruthy

  datatype Body = Body(prompt: PromptField, projectId: string)

  /** A request to `newsite`: the parsed body (absent when no body parser ran), the user the
      auth middleware put on `req.userId`, and the uploaded file's name, if any. */
  datatype Request = Request(body: Option<Body>, userId: string, fileName: Option<string>)

  datatype SubmitResponse =
    | Accepted(jobId: JobId)          // 200 { success: true, jobId }
    | BadRequest(message: string)     // 400 { success: false, message }
    | ServerError(message: string)    // 500 { success: false, message }

  /** What the detached task captures from the request. */
  datatype Pending = Pending(jobId: JobId, prompt: string, projectId: string, userId: string, imageUrl: Option<string>)

  /** The values the controller inserts into `generated_sites`. */
  datatype SiteValues = SiteValues(
    userId: string, name: string, prompt: string, htmlContent: string,
    projectId: string, imagePath: Option<string>)

  /** A `generated_sites` row. `htmlContent` is nullable: rows written by other code may lack it. */
  datatype SiteRow = SiteRow(
    id: int, userId: string, name: string, prompt: string, htmlContent: Option<string>,
    projectId: string, imagePath: Option<string>, createdAt: int)

  datatype PromptRow = PromptRow(userId: string, projectId: string, prompt: string)

  /** The key the database assigns to an inserted site row. */
  datatype RowKey = RowKey(id: int, createdAt: int)

  /** The columns the site insert returns, which become the job's result. */
  datatype SiteResult = SiteResult(id: int, name: string, prompt: string, htmlContent: string, createdAt: int)

  datatype Status = Processing | Done | Error

  /** A job table entry `{ status, result, error }`. */
  datatype Job = Job(status: Status, result: Option<SiteResult>, error: Option<string>)

  predicate WellFormedJob(j: Job) {
    && (j.status == Processing ==> j.result.None? && j.error.None?)
    && (j.status == Done ==> j.result.Some? && j.error.None?)
    && (j.status == Error ==> j.result.None?)
  }

  /** The entry a failed run leaves: status `error`, no result, the exception's message. */
  function Failed(e: Thrown): Job {
    Job(Error, None, e.message)
  }

  /** Every call the controller makes to a collaborator, with its arguments. */
  datatype Call =
    | Connect                                    // pool.connect()
    | Release                                    // client.release()
    | SelectNewest(projectId: string)            // newest generated_sites row of the project
    | Generate(prompt: string)                   // gerarParte(finalPrompt, ...)
    | InsertSite(values: SiteValues)
    | InsertPrompt(row: PromptRow)
    | CreateAccount(user: string, password: string, domain: string)
    | UploadFtp(host: string, user: string, password: string, html: string)
    | CountSites(projectId: string)              // check_id_projeto's COUNT(*)

  /** The provisioning call a run issues for `projectId`. */
  function ProvisionCall(projectId: string): Call {
    CreateAccount(AccountName(projectId), HostingPassword, AccountDomain(projectId))
  }

  /** The FTP upload a run issues for `projectId` with the generated `html`. */
  function UploadCall(projectId: string, html: string): Call {
    UploadFtp(FtpHost, AccountName(projectId), HostingPassword, html)
  }

  predicate IsHostingCall(c: Call) {
    c.CreateAccount? || c.UploadFtp?
  }

  /** How every collaborator call of one background run turns out. */
  datatype Outcomes = Outcomes(
    connect: Reply<()>, select: Reply<()>, stream: Stream, insertSite: Reply<RowKey>,
    insertPrompt: Reply<()>, createAccount: Reply<()>, upload: Reply<()>)

  // ---------------------------------------------------------------- queries over the tables

  function Count<T>(s: seq<T>, f: T -> bool): nat {
    if s == [] then 0 else Count(s[..|s| - 1], f) + (if f(s[|s| - 1]) then 1 else 0)
  }

  lemma CountSnoc<T>(s: seq<T>, x: T, f: T -> bool)
    ensures Count(s + [x], f) == Count(s, f) + (if f(x) then 1 else 0)
  {
    assert (s + [x])[..|s|] == s;
  }

  function SiteCount(sites: seq<SiteRow>, projectId: string): nat {
    Count(sites, (r: SiteRow) => r.projectId == projectId)
  }

  function PromptCount(prompts: seq<PromptRow>, projectId: string): nat {
    Count(prompts, (r: PromptRow) => r.projectId == projectId)
  }

  /** A project has no rows exactly when no row carries its id. */
  lemma {:induction false} SiteCountZero(sites: seq<SiteRow>, projectId: string)
    ensures SiteCount(sites, projectId) == 0 <==> forall k :: 0 <= k < |sites| ==> sites[k].projectId != projectId
  {
    if sites != [] {
      var init := sites[..|sites| - 1];
      SiteCountZero(init, projectId);
      assert forall k :: 0 <= k < |init| ==> init[k] == sites[k];
    }
  }

  /** The newest row of a project: rows are appended in creation order, so the last one. */
  function Newest(sites: seq<SiteRow>, projectId: string): (r: Option<SiteRow>)
    ensures r.None? <==> SiteCount(sites, projectId) == 0
    ensures r.Some? ==> r.value.projectId == projectId && r.value in sites
    // no row of the project comes after the one returned
    ensures r.Some? ==> exists k ::
      && 0 <= k < |sites| && sites[k] == r.value
      && forall j :: k < j < |sites| ==> sites[j].projectId != projectId
  {
    if sites == [] then None
    else if sites[|sites| - 1].projectId == projectId then Some(sites[|sites| - 1])
    else
      var init := sites[..|sites| - 1];
      var r := Newest(init, projectId);
      assert forall j :: 0 <= j < |init| ==> init[j] == sites[j];
      r
  }

  /** The HTML the revision starts from: the newest row's (possibly null) HTML, or the empty
      string when the project has no row. */
  function BaseHtml(sites: seq<SiteRow>, projectId: string): Option<string> {
    match Newest(sites, projectId)
    case None => Some("")
    case Some(row) => row.htmlContent
  }

  /** The revision starts from the HTML of the project's newest row, or from "" when the
      project has none. */
  lemma BaseHtmlIsNewest(sites: seq<SiteRow>, projectId: string)
    ensures SiteCount(sites, projectId) == 0 ==> BaseHtml(sites, projectId) == Some("")
    ensures SiteCount(sites, projectId) > 0 ==> exists k ::
      && 0 <= k < |sites| && sites[k].projectId == projectId && BaseHtml(sites, projectId) == sites[k].htmlContent
      && forall j :: k < j < |sites| ==> sites[j].projectId != projectId
  {
    var r := Newest(sites, projectId);
    if r.Some? {
      var k :| && 0 <= k < |sites| && sites[k] == r.value
               && forall j :: k < j < |sites| ==> sites[j].projectId != projectId;
      assert BaseHtml(sites, projectId) == sites[k].htmlContent;
    }
  }

  /** The answer of `check_id_projeto` once the count is known: whether it is zero. */
  function IsNewProject(sites: seq<SiteRow>, projectId: string): (isNew: bool)
    ensures isNew <==> forall k :: 0 <= k < |sites| ==> sites[k].projectId != projectId
  {
    SiteCountZero(sites, projectId);
    SiteCount(sites, projectId) == 0
  }

  /** Once a row for the project is inserted, the project is no longer new. */
  lemma NotNewAfterInsert(sites: seq<SiteRow>, row: SiteRow)
    ensures !IsNewProject(sites + [row], row.projectId)
  {
    assert (sites + [row])[|sites|] == row;
  }

  // ---------------------------------------------------------------- prompt composition

  /** A JavaScript string is truthy unless it is null or empty. */
  predicate Truthy(s: Option<string>) {
    s.Some? && s.value != ""
  }

  /** The public logo URL of the uploaded file, when there is one. */
  function ImageUrl(fileName: Option<string>): Option<string> {
    if fileName.Some? then Some(LogoBaseUrl + fileName.value) else None
  }

  predicate IsPrefix(a: string, b: string) { |a| <= |b| && b[..|a|] == a }
  predicate IsSuffix(a: string, b: string) { |a| <= |b| && b[|b| - |a|..] == a }

  /** `fullPrompt`: the prompt, followed by the image sentence when there is an image url. */
  function FullPrompt(prompt: string, imageUrl: Option<string>): (r: string)
    ensures IsPrefix(prompt, r)
    ensures r == prompt <==> !Truthy(imageUrl)
    ensures Truthy(imageUrl) ==> IsSuffix(ImageInstruction + imageUrl.value, r)
  {
    if Truthy(imageUrl) then prompt + ImageInstruction + imageUrl.value else prompt
  }

  /** `finalPrompt`: the current HTML and the change request in front of `fullPrompt` when
      the project's newest HTML is non-empty. */
  function FinalPrompt(fullPrompt: string, baseHtml: Option<string>): (r: string)
    ensures IsSuffix(fullPrompt, r)
    ensures r == fullPrompt <==> !Truthy(baseHtml)
    ensures Truthy(baseHtml) ==> IsPrefix(CurrentHtmlHeader + baseHtml.value + ChangeRequest, r)
  {
    if Truthy(baseHtml) then CurrentHtmlHeader + baseHtml.value + ChangeRequest + fullPrompt else fullPrompt
  }


  /** What the model is asked: the user's prompt opens `fullPrompt`, which closes the
      final prompt; the prompt is the final prompt's suffix when no image is attached; a
      revision quotes the current HTML right after the header. */
  lemma PromptComposition(prompt: string, fileName: Option<string>, baseHtml: Option<string>)
    ensures var full := FullPrompt(prompt, ImageUrl(fileName));
      var final := FinalPrompt(full, baseHtml);
      && IsPrefix(prompt, full) && IsSuffix(full, final)
      && (fileName.None? ==> full == prompt && IsSuffix(prompt, final))
      && (fileName.Some? ==> full == prompt + ImageInstruction + LogoBaseUrl + fileName.value)
      && (Truthy(baseHtml) ==> IsPrefix(CurrentHtmlHeader + baseHtml.value + ChangeRequest, final))
      && (Truthy(baseHtml) ==> |final| == |CurrentHtmlHeader| + |baseHtml.value| + |ChangeRequest| + |full|)
      && (!Truthy(baseHtml) ==> final == full)
  {
    var full := FullPrompt(prompt, ImageUrl(fileName));
    if fileName.Some? {
      assert full == prompt + (ImageInstruction + LogoBaseUrl + fileName.value);
    }
    var final := FinalPrompt(full, baseHtml);
    if Truthy(baseHtml) {
      assert final == (CurrentHtmlHeader + baseHtml.value + ChangeRequest) + full;
    }
  }

  // ---------------------------------------------------------------- the request half

  /** The prompt is refused when it is absent, falsy, or blank after trimming. */
  predicate PromptRejected(f: PromptField) {
    f.Missing? || f.OtherFalsy? || (f.Text? && Trim(f.text) == "")
  }

  /** The request half raises (and answers 500) when there is no body to destructure, or
      when a truthy prompt is not a string and so has no `trim`. */
  predicate RequestThrows(req: Request) {
    req.body.None? || req.body.value.prompt.OtherTruthy?
  }

  // ---------------------------------------------------------------- the background half

  /** What one background run does: the calls it makes in order, the rows it leaves
      behind, and the job entry it ends with. */
  datatype Effect = Effect(trace: seq<Call>, site: Option<SiteRow>, promptRow: Option<PromptRow>, job: Job)

  function SiteValuesOf(w: Pending, html: string): SiteValues {
    SiteValues(w.userId, SiteNamePrefix + w.prompt, w.prompt, html, w.projectId, w.imageUrl)
  }

  function RowOf(v: SiteValues, key: RowKey): SiteRow {
    SiteRow(key.id, v.userId, v.name, v.prompt, Some(v.htmlContent), v.projectId, v.imagePath, key.createdAt)
  }

  function ResultOf(v: SiteValues, key: RowKey): SiteResult {
    SiteResult(key.id, v.name, v.prompt, v.htmlContent, key.createdAt)
  }

  function AskedPrompt(sites: seq<SiteRow>, w: Pending): string {
    FinalPrompt(FullPrompt(w.prompt, w.imageUrl), BaseHtml(sites, w.projectId))
  }

  /** The steps of the `try` block after the site row is in: the prompt insert, the
      provisioning of a project that had no row (`first`), and the upload. */
  function FinishEffect(first: bool, w: Pending, o: Outcomes, values: SiteValues, key: RowKey): Effect {
    var p := w.projectId;
    var row := RowOf(values, key);
    var pr := PromptRow(w.userId, p, w.prompt);
    var prompted := [InsertPrompt(pr)];
    if o.insertPrompt.Throws? then Effect(prompted, Some(row), None, Failed(o.insertPrompt.error))
    else
      var provisioned := if first then prompted + [ProvisionCall(p)] else prompted;
      if first && o.createAccount.Throws? then
        Effect(provisioned, Some(row), Some(pr), Failed(o.createAccount.error))
      else
        var uploaded := provisioned + [UploadCall(p, values.htmlContent)];
        if o.upload.Throws? then Effect(uploaded, Some(row), Some(pr), Failed(o.upload.error))
        else Effect(uploaded, Some(row), Some(pr), Job(Done, Some(ResultOf(values, key)), None))
  }

  /** The body of the `try` block, once a client is connected. */
  function AttemptEffect(sites: seq<SiteRow>, w: Pending, o: Outcomes): Effect {
    var p := w.projectId;
    var selected := [SelectNewest(p)];
    if o.select.Throws? then Effect(selected, None, None, Failed(o.select.error))
    else
      var values := SiteValuesOf(w, Generated(o.stream));
      var inserting := selected + [Generate(AskedPrompt(sites, w)), InsertSite(values)];
      match o.insertSite
      case Throws(e) => Effect(inserting, None, None, Failed(e))
      case Ok(key) =>
        var f := FinishEffect(SiteCount(sites, p) == 0, w, o, values, key);
        Effect(inserting + f.trace, f.site, f.promptRow, f.job)
  }

  /** One run of the detached task: connect, the `try` block, then release in `finally`
      (only a client that was obtained is released). */
  function RunEffect(sites: seq<SiteRow>, w: Pending, o: Outcomes): Effect {
    if o.connect.Throws? then Effect([Connect], None, None, Failed(o.connect.error))
    else
      var a := AttemptEffect(sites, w, o);
      Effect([Connect] + a.trace + [Release], a.site, a.promptRow, a.job)
  }

  /** Every collaborator a run reaches succeeded (the condition for `done`). */
  predicate AllSucceed(sites: seq<SiteRow>, w: Pending, o: Outcomes) {
    ReachesUpload(sites, w, o) && o.upload.Ok?
  }

  /** The message of the first collaborator that threw, in call order. */
  function FirstFailure(sites: seq<SiteRow>, w: Pending, o: Outcomes): Option<string>
    requires !AllSucceed(sites, w, o)
  {
    if o.connect.Throws? then o.connect.error.message
    else if o.select.Throws? then o.select.error.message
    else if o.insertSite.Throws? then o.insertSite.error.message
    else if o.insertPrompt.Throws? then o.insertPrompt.error.message
    else if SiteCount(sites, w.projectId) == 0 && o.createAccount.Throws? then o.createAccount.error.message
    else o.upload.error.message
  }

  /** Every run ends in a terminal state: the entry never stays `processing`. */
  lemma RunEndsTerminal(sites: seq<SiteRow>, w: Pending, o: Outcomes)
    ensures var e := RunEffect(sites, w, o);
      WellFormedJob(e.job) && (e.job.status == Done || e.job.status == Error)
  {
  }

  /** A run ends `done` with the inserted row exactly when every collaborator succeeded,
      otherwise `error` with the first failure's message. */
  lemma RunOutcome(sites: seq<SiteRow>, w: Pending, o: Outcomes)
    ensures var e := RunEffect(sites, w, o);
      && (e.job.status == Done <==> AllSucceed(sites, w, o))
      && (e.job.status == Done ==>
            e.job.result == Some(ResultOf(SiteValuesOf(w, Generated(o.stream)), o.insertSite.value)))
      && (e.job.status == Error ==> e.job.error == FirstFailure(sites, w, o))
  {
  }

  /** The calls of the `try` block when every step succeeds, in program order. */
  function TryCalls(sites: seq<SiteRow>, w: Pending, o: Outcomes): seq<Call> {
    var html := Generated(o.stream);
    var p := w.projectId;
    [SelectNewest(p), Generate(AskedPrompt(sites, w)), InsertSite(SiteValuesOf(w, html)),
     InsertPrompt(PromptRow(w.userId, p, w.prompt))]
    + (if SiteCount(sites, p) == 0 then [ProvisionCall(p)] else [])
    + [UploadCall(p, html)]
  }

  /** The calls of a complete run: connect, the whole `try` block, release. */
  function FullTrace(sites: seq<SiteRow>, w: Pending, o: Outcomes): seq<Call> {
    [Connect] + TryCalls(sites, w, o) + [Release]
  }

  /** Whether a run gets as far as the provisioning step (both inserts went through). */
  predicate ReachesProvision(o: Outcomes) {
    o.connect.Ok? && o.select.Ok? && o.insertSite.Ok? && o.insertPrompt.Ok?
  }

  /** Whether a run reaches the FTP upload. */
  predicate ReachesUpload(sites: seq<SiteRow>, w: Pending, o: Outcomes) {
    ReachesProvision(o) && (SiteCount(sites, w.projectId) == 0 ==> o.createAccount.Ok?)
  }

  /** How many calls the `try` block makes before it stops. */
  function AttemptLength(sites: seq<SiteRow>, w: Pending, o: Outcomes): nat {
    if o.select.Throws? then 1
    else if o.insertSite.Throws? then 3
    else if o.insertPrompt.Throws? then 4
    else if SiteCount(sites, w.projectId) == 0 && o.createAccount.Throws? then 5
    else |TryCalls(sites, w, o)|
  }

  /** The call log of the `try` block, branch by branch: a prefix of `TryCalls`, stopping
      at the first failure. */
  lemma AttemptIsPrefix(sites: seq<SiteRow>, w: Pending, o: Outcomes)
    ensures var a := AttemptEffect(sites, w, o);
      && AttemptLength(sites, w, o) <= |TryCalls(sites, w, o)|
      && a.trace == TryCalls(sites, w, o)[..AttemptLength(sites, w, o)]
  {
    var a := AttemptEffect(sites, w, o);
    var p := w.projectId;
    var html := Generated(o.stream);
    var s := SelectNewest(p);
    var g := Generate(AskedPrompt(sites, w));
    var i := InsertSite(SiteValuesOf(w, html));
    var ip := InsertPrompt(PromptRow(w.userId, p, w.prompt));
    var pc := ProvisionCall(p);
    var up := UploadCall(p, html);
    var first := SiteCount(sites, p) == 0;
    var full := TryCalls(sites, w, o);
    if first {
      assert full == [s, g, i, ip, pc, up];
    } else {
      assert full == [s, g, i, ip, up];
    }
    if o.select.Throws? {
      assert a.trace == [s];
    } else if o.insertSite.Throws? {
      assert a.trace == [s, g, i];
    } else if o.insertPrompt.Throws? {
      assert a.trace == [s, g, i, ip];
    } else if first && o.createAccount.Throws? {
      assert a.trace == [s, g, i, ip, pc];
    } else if first {
      assert a.trace == [s, g, i, ip, pc, up];
    } else {
      assert a.trace == [s, g, i, ip, up];
    }
  }

  /** The layout of the complete `try` block, independent of the values in it: a select,
      the generation, the two inserts, the provisioning call `pc` when `first`, and the
      upload `up` last; no connect or release among them. */
  predicate TryLayout(full: seq<Call>, first: bool, pc: Call, up: Call) {
    && pc.CreateAccount? && up.UploadFtp?
    && |full| == (if first then 6 else 5)
    && full[2].InsertSite? && full[3].InsertPrompt? && full[|full| - 1] == up
    && (first ==> full[4] == pc)
    && (forall k :: 0 <= k < |full| ==> !full[k].Connect? && !full[k].Release?)
    && (forall k :: 0 <= k < |full| && full[k].CreateAccount? ==> k == 4 && first && full[k] == pc)
    && (forall k :: 0 <= k < |full| && full[k].UploadFtp? ==> k == |full| - 1)
  }

  lemma TryCallsLayout(sites: seq<SiteRow>, w: Pending, o: Outcomes)
    ensures TryLayout(TryCalls(sites, w, o), SiteCount(sites, w.projectId) == 0, ProvisionCall(w.projectId),
                      UploadCall(w.projectId, Generated(o.stream)))
  {
  }

  /** No prefix of such a block connects or releases. */
  lemma LayoutPrefixBrackets(full: seq<Call>, first: bool, pc: Call, up: Call, n: nat)
    requires TryLayout(full, first, pc, up) && 1 <= n <= |full|
    ensures Connect !in full[..n] && Release !in full[..n]
  {
    var t := full[..n];
    forall k | 0 <= k < n ensures t[k] != Connect && t[k] != Release {
      assert t[k] == full[k];
    }
  }

  /** A prefix of such a block holds `pc` once when it reaches index 4 on a first run, and
      `up` once when it is the whole block. */
  lemma LayoutPrefixCounts(full: seq<Call>, first: bool, pc: Call, up: Call, n: nat)
    requires TryLayout(full, first, pc, up) && 1 <= n <= |full|
    ensures multiset(full[..n])[pc] == (if first && n >= 5 then 1 else 0)
    ensures multiset(full[..n])[up] == (if n == |full| then 1 else 0)
  {
    var t := full[..n];
    assert full == t + full[n..];
    assert multiset(full) == multiset(t) + multiset(full[n..]);
    assert multiset(full)[pc] == (if first then 1 else 0) && multiset(full)[up] == 1 by {
      assert pc !in full[..4] && up !in full[..4] by {
        forall k | 0 <= k < 4 ensures full[..4][k] != pc && full[..4][k] != up {
          assert full[..4][k] == full[k];
        }
      }
      if first {
        assert full == full[..4] + [pc] + [up];
      } else {
        assert full == full[..4] + [up];
      }
    }
    if pc in t {
      var k :| 0 <= k < n && t[k] == pc;
      assert full[k] == pc;
    }
    if first && n >= 5 {
      assert t[4] == pc;
    }
    if up in t {
      var k :| 0 <= k < n && t[k] == up;
      assert full[k] == up;
    }
    if n == |full| {
      assert t[n - 1] == up;
    }
  }

  /** In a prefix of such a block every provisioning call is `pc`, every upload is `up`,
      and hosting calls come after both inserts. */
  lemma LayoutPrefixKinds(full: seq<Call>, first: bool, pc: Call, up: Call, n: nat)
    requires TryLayout(full, first, pc, up) && 1 <= n <= |full|
    ensures var t := full[..n];
      && (forall k :: 0 <= k < n && t[k].CreateAccount? ==> t[k] == pc)
      && (forall k :: 0 <= k < n && t[k].UploadFtp? ==> t[k] == up)
      && (forall k :: 0 <= k < n && IsHostingCall(t[k]) ==> k >= 4 && t[2].InsertSite? && t[3].InsertPrompt?)
  {
    var t := full[..n];
    assert forall k :: 0 <= k < n ==> t[k] == full[k];
  }

  /** The `try` block stops at its first failure and otherwise makes every call. */
  lemma AttemptShape(sites: seq<SiteRow>, w: Pending, o: Outcomes)
    ensures var a := AttemptEffect(sites, w, o);
      var full := TryCalls(sites, w, o);
      var reached := o.select.Ok? && o.insertSite.Ok? && o.insertPrompt.Ok?;
      && 1 <= |a.trace| <= |full| && full[..|a.trace|] == a.trace
      && ((reached && (SiteCount(sites, w.projectId) == 0 ==> o.createAccount.Ok?)) <==> a.trace == full)
  {
    var full := TryCalls(sites, w, o);
    var n := AttemptLength(sites, w, o);
    AttemptIsPrefix(sites, w, o);
    assert full[..n] == full ==> n == |full|;
    assert full[..|full|] == full;
  }

  /** The `try` block never connects or releases. */
  lemma AttemptBrackets(sites: seq<SiteRow>, w: Pending, o: Outcomes)
    ensures var a := AttemptEffect(sites, w, o);
      Connect !in a.trace && Release !in a.trace
  {
    var p := w.projectId;
    AttemptIsPrefix(sites, w, o);
    TryCallsLayout(sites, w, o);
    LayoutPrefixBrackets(TryCalls(sites, w, o), SiteCount(sites, p) == 0, ProvisionCall(p),
                         UploadCall(p, Generated(o.stream)), AttemptLength(sites, w, o));
  }

  /** The `try` block provisions once exactly when both inserts went through on a project
      that had no row, and uploads once exactly when it gets past provisioning. */
  lemma AttemptHostingCounts(sites: seq<SiteRow>, w: Pending, o: Outcomes)
    ensures var a := AttemptEffect(sites, w, o);
      var p := w.projectId;
      var first := SiteCount(sites, p) == 0;
      var reached := o.select.Ok? && o.insertSite.Ok? && o.insertPrompt.Ok?;
      && multiset(a.trace)[ProvisionCall(p)] == (if reached && first then 1 else 0)
      && multiset(a.trace)[UploadCall(p, Generated(o.stream))] == (if reached && (first ==> o.createAccount.Ok?) then 1 else 0)
  {
    var p := w.projectId;
    AttemptIsPrefix(sites, w, o);
    TryCallsLayout(sites, w, o);
    LayoutPrefixCounts(TryCalls(sites, w, o), SiteCount(sites, p) == 0, ProvisionCall(p),
                       UploadCall(p, Generated(o.stream)), AttemptLength(sites, w, o));
  }

  /** In the `try` block every provisioning call is this project's, every upload is of the
      generated HTML, and hosting calls come after both inserts. */
  lemma AttemptHostingKinds(sites: seq<SiteRow>, w: Pending, o: Outcomes)
    ensures var a := AttemptEffect(sites, w, o);
      var p := w.projectId;
      && (forall k :: 0 <= k < |a.trace| && a.trace[k].CreateAccount? ==> a.trace[k] == ProvisionCall(p))
      && (forall k :: 0 <= k < |a.trace| && a.trace[k].UploadFtp? ==> a.trace[k] == UploadCall(p, Generated(o.stream)))
      && (forall k :: 0 <= k < |a.trace| && IsHostingCall(a.trace[k]) ==>
            k >= 4 && a.trace[2].InsertSite? && a.trace[3].InsertPrompt?)
  {
    var p := w.projectId;
    AttemptIsPrefix(sites, w, o);
    TryCallsLayout(sites, w, o);
    LayoutPrefixKinds(TryCalls(sites, w, o), SiteCount(sites, p) == 0, ProvisionCall(p),
                      UploadCall(p, Generated(o.stream)), AttemptLength(sites, w, o));
  }

  /** A block of calls wrapped in connect and release. */
  lemma Bracketed(x: seq<Call>)
    ensures var t := [Connect] + x + [Release];
      && |t| == |x| + 2 && t[1..|t| - 1] == x && t[0] == Connect && t[|t| - 1] == Release
      && (forall k :: 1 <= k < |t| - 1 ==> t[k] == x[k - 1])
  {
  }

  /** Logging a connect, a block and a release one after the other logs the wrapped block. */
  lemma AppendBracketed(log: seq<Call>, x: seq<Call>)
    ensures log + [Connect] + x + [Release] == log + ([Connect] + x + [Release])
  {
  }

  /** Logging three calls one at a time, then more, logs them as the `try` block groups them. */
  lemma LogSteps(log: seq<Call>, x: Call, y: Call, z: Call, rest: seq<Call>)
    ensures log + [x] + [y] + [z] + rest == log + ([x] + [y, z] + rest)
  {
  }

  /** Wrapping adds one connect and one release to a block that has neither. */
  lemma BracketedOnce(x: seq<Call>)
    requires Connect !in x && Release !in x
    ensures multiset([Connect] + x + [Release])[Connect] == 1
    ensures multiset([Connect] + x + [Release])[Release] == 1
  {
    assert multiset(x)[Connect] == 0 && multiset(x)[Release] == 0;
  }

  /** Wrapping does not change how often any other call occurs. */
  lemma BracketedCount(x: seq<Call>, c: Call)
    requires c != Connect && c != Release
    ensures multiset([Connect] + x + [Release])[c] == multiset(x)[c]
  {
  }

  /** Wrapping keeps what the hosting calls are, one position later. */
  lemma BracketedHosting(x: seq<Call>, pc: Call, up: Call)
    requires forall k :: 0 <= k < |x| && x[k].CreateAccount? ==> x[k] == pc
    requires forall k :: 0 <= k < |x| && x[k].UploadFtp? ==> x[k] == up
    requires forall k :: 0 <= k < |x| && IsHostingCall(x[k]) ==> k >= 4 && x[2].InsertSite? && x[3].InsertPrompt?
    ensures var t := [Connect] + x + [Release];
      && (forall k :: 0 <= k < |t| && t[k].CreateAccount? ==> t[k] == pc)
      && (forall k :: 0 <= k < |t| && t[k].UploadFtp? ==> t[k] == up)
      && (forall k :: 0 <= k < |t| && IsHostingCall(t[k]) ==> k >= 5 && t[3].InsertSite? && t[4].InsertPrompt?)
  {
    var t := [Connect] + x + [Release];
    forall k | 0 <= k < |t| && IsHostingCall(t[k])
      ensures (t[k].CreateAccount? ==> t[k] == pc) && (t[k].UploadFtp? ==> t[k] == up)
      ensures k >= 5 && t[3].InsertSite? && t[4].InsertPrompt?
    {
      assert 1 <= k < |t| - 1 && t[k] == x[k - 1];
      assert t[3] == x[2] && t[4] == x[3];
    }
  }

  /** The acquired client is released on both paths, as the last call; when `connect`
      itself throws there is nothing to release. */
  lemma RunReleasesConnection(sites: seq<SiteRow>, w: Pending, o: Outcomes)
    ensures var t := RunEffect(sites, w, o).trace;
      && |t| >= 1 && t[0] == Connect && multiset(t)[Connect] == 1
      && (o.connect.Ok? ==> t[|t| - 1] == Release && multiset(t)[Release] == 1)
      && (o.connect.Throws? ==> t == [Connect])
  {
    if o.connect.Ok? {
      var a := AttemptEffect(sites, w, o);
      AttemptBrackets(sites, w, o);
      Bracketed(a.trace);
      BracketedOnce(a.trace);
    }
  }

  lemma AccountNameInjective(p: string, q: string)
    requires AccountName(p) == AccountName(q)
    ensures p == q
  {
    assert p == AccountName(p)[4..] && q == AccountName(q)[4..];
  }

  /** Hosting is provisioned exactly when the project had no rows before the run (and both
      inserts went through), once, for this project only; the generated HTML is uploaded once
      on every run that gets past those steps. */
  lemma RunHostingCalls(sites: seq<SiteRow>, w: Pending, o: Outcomes, q: string)
    ensures var e := RunEffect(sites, w, o);
      var p := w.projectId;
      && multiset(e.trace)[ProvisionCall(p)] == (if ReachesProvision(o) && SiteCount(sites, p) == 0 then 1 else 0)
      && (q != p ==> multiset(e.trace)[ProvisionCall(q)] == 0)
      && multiset(e.trace)[UploadCall(p, Generated(o.stream))] == (if ReachesUpload(sites, w, o) then 1 else 0)
  {
    var e := RunEffect(sites, w, o);
    var p := w.projectId;
    if o.connect.Ok? {
      var a := AttemptEffect(sites, w, o);
      assert e.trace == [Connect] + a.trace + [Release];
      AttemptHostingCounts(sites, w, o);
      BracketedCount(a.trace, ProvisionCall(p));
      BracketedCount(a.trace, UploadCall(p, Generated(o.stream)));
    }
    if q != p {
      OtherProjectNotProvisioned(sites, w, o, q);
    }
  }

  /** A run never provisions the account of another project. */
  lemma OtherProjectNotProvisioned(sites: seq<SiteRow>, w: Pending, o: Outcomes, q: string)
    requires q != w.projectId
    ensures ProvisionCall(q) !in RunEffect(sites, w, o).trace
  {
    var t := RunEffect(sites, w, o).trace;
    RunHostingTargets(sites, w, o);
    if ProvisionCall(q) in t {
      var k :| 0 <= k < |t| && t[k] == ProvisionCall(q);
      AccountNameInjective(q, w.projectId);
    }
  }

  /** Every provisioning call of a run is for the run's own project, and every upload is of
      the HTML the run generated. */
  lemma RunHostingTargets(sites: seq<SiteRow>, w: Pending, o: Outcomes)
    ensures var t := RunEffect(sites, w, o).trace;
      && (forall k :: 0 <= k < |t| && t[k].CreateAccount? ==> t[k] == ProvisionCall(w.projectId))
      && (forall k :: 0 <= k < |t| && t[k].UploadFtp? ==> t[k] == UploadCall(w.projectId, Generated(o.stream)))
  {
    if o.connect.Ok? {
      var a := AttemptEffect(sites, w, o);
      AttemptHostingKinds(sites, w, o);
      BracketedHosting(a.trace, ProvisionCall(w.projectId), UploadCall(w.projectId, Generated(o.stream)));
    }
  }

  /** Calls happen in program order and stop at the first failure: a run is connect, a
      prefix of the `try` block, and release once connected. Hosting calls come after both
      inserts. */
  lemma RunFollowsProgramOrder(sites: seq<SiteRow>, w: Pending, o: Outcomes)
    ensures var t := RunEffect(sites, w, o).trace;
      var full := TryCalls(sites, w, o);
      && (o.connect.Throws? ==> t == [Connect])
      && (o.connect.Ok? ==>
            var body := t[1..|t| - 1];
            t == [Connect] + body + [Release] && |body| <= |full| && full[..|body|] == body)
      && (forall k :: 0 <= k < |t| && IsHostingCall(t[k]) ==> k >= 5 && t[3].InsertSite? && t[4].InsertPrompt?)
  {
    if o.connect.Ok? {
      var a := AttemptEffect(sites, w, o);
      AttemptShape(sites, w, o);
      AttemptHostingKinds(sites, w, o);
      Bracketed(a.trace);
      BracketedHosting(a.trace, ProvisionCall(w.projectId), UploadCall(w.projectId, Generated(o.stream)));
    }
  }

  /** A run makes every call of the complete run exactly when it reaches the upload,
      whether or not the upload itself succeeds. */
  lemma RunCompleteIffReachesUpload(sites: seq<SiteRow>, w: Pending, o: Outcomes)
    ensures ReachesUpload(sites, w, o) <==> RunEffect(sites, w, o).trace == FullTrace(sites, w, o)
  {
    var t := RunEffect(sites, w, o).trace;
    var full := FullTrace(sites, w, o);
    if o.connect.Ok? {
      var body := AttemptEffect(sites, w, o).trace;
      AttemptShape(sites, w, o);
      Bracketed(body);
      Bracketed(TryCalls(sites, w, o));
      if t == full {
        assert body == t[1..|t| - 1] == full[1..|full| - 1] == TryCalls(sites, w, o);
      }
    } else {
      assert |t| == 1 && |full| >= 6;
    }
  }

  /** No rollback: a row that was inserted stays in place whatever fails afterwards, and is
      inserted exactly when its insert succeeded. */
  lemma RunNeverRollsBack(sites: seq<SiteRow>, w: Pending, o: Outcomes)
    ensures var e := RunEffect(sites, w, o);
      && (e.site.Some? <==> o.connect.Ok? && o.select.Ok? && o.insertSite.Ok?)
      && (e.site.Some? ==> e.site.value == RowOf(SiteValuesOf(w, Generated(o.stream)), o.insertSite.value))
      && (e.promptRow.Some? <==> e.site.Some? && o.insertPrompt.Ok?)
      && (e.promptRow.Some? ==> e.promptRow.value == PromptRow(w.userId, w.projectId, w.prompt))
  {
  }

  /** The generation step cannot fail the job: when the model stream throws, the error
      comment is stored and published like any other HTML. */
  lemma FailedGenerationIsPublished(sites: seq<SiteRow>, w: Pending, o: Outcomes)
    requires AllSucceed(sites, w, o)
    requires o.stream.OpenFails? || (o.stream.Opened? && !NoAbort(o.stream.items))
    ensures var e := RunEffect(sites, w, o);
      && e.job.status == Done && e.job.result.value.htmlContent == ErrorComment
      && UploadCall(w.projectId, ErrorComment) in e.trace
  {
    var e := RunEffect(sites, w, o);
    assert e.trace[|e.trace| - 2] == UploadCall(w.projectId, ErrorComment);
  }

  /** A first run whose provisioning failed has already inserted the project's row, so no
      later run for the project provisions the hosting account again. */
  lemma FailedProvisioningIsNotRetried(sites: seq<SiteRow>, w1: Pending, o1: Outcomes, w2: Pending, o2: Outcomes)
    requires w1.projectId == w2.projectId
    requires ProvisionCall(w1.projectId) in RunEffect(sites, w1, o1).trace
    ensures var e1 := RunEffect(sites, w1, o1);
      && e1.site.Some?
      && ProvisionCall(w2.projectId) !in RunEffect(sites + [e1.site.value], w2, o2).trace
  {
    var p := w1.projectId;
    var e1 := RunEffect(sites, w1, o1);
    RunHostingCalls(sites, w1, o1, p);
    assert multiset(e1.trace)[ProvisionCall(p)] > 0;
    assert ReachesProvision(o1);
    RunNeverRollsBack(sites, w1, o1);
    var row := e1.site.value;
    NotNewAfterInsert(sites, row);
    assert SiteCount(sites + [row], p) != 0;
    RunHostingCalls(sites + [row], w2, o2, p);
    assert multiset(RunEffect(sites + [row], w2, o2).trace)[ProvisionCall(p)] == 0;
  }

  /** A revision sees the previous run's HTML: after a run stored HTML `h`, the next run
      for the project asks the model about `h` (unless `h` is empty) as soon as it gets past
      the select, and does not provision again. */
  lemma RevisionQuotesPriorHtml(sites: seq<SiteRow>, w1: Pending, o1: Outcomes, w2: Pending, o2: Outcomes)
    requires w1.projectId == w2.projectId
    requires o1.connect.Ok? && o1.select.Ok? && o1.insertSite.Ok?
    ensures var e1 := RunEffect(sites, w1, o1);
      var h := Generated(o1.stream);
      && e1.site.Some? && e1.site.value.htmlContent == Some(h)
      && var e2 := RunEffect(sites + [e1.site.value], w2, o2);
      var full2 := FullPrompt(w2.prompt, w2.imageUrl);
      && (o2.connect.Ok? && o2.select.Ok? ==>
            |e2.trace| > 2
            && e2.trace[2] == Generate(if h != "" then CurrentHtmlHeader + h + ChangeRequest + full2 else full2))
      && ProvisionCall(w2.projectId) !in e2.trace
  {
    var e1 := RunEffect(sites, w1, o1);
    RunNeverRollsBack(sites, w1, o1);
    var row := e1.site.value;
    var next := sites + [row];
    assert next[|next| - 1] == row;
    assert next[..|next| - 1] == sites;
    assert Newest(next, w2.projectId) == Some(row);
    NotNewAfterInsert(sites, row);
    SiteCountZero(next, w2.projectId);
    RunHostingCalls(next, w2, o2, w2.projectId);
    if o2.connect.Ok? && o2.select.Ok? {
      var a := AttemptEffect(next, w2, o2);
      AttemptIsPrefix(next, w2, o2);
      TryCallsLayout(next, w2, o2);
      assert a.trace[1] == TryCalls(next, w2, o2)[1];
      Bracketed(a.trace);
    }
  }

  // ---------------------------------------------------------------- invariant of the tables and the log

  /** A prompt row is only ever inserted after its site row, and each project's hosting
      account is provisioned at most once, and only for a project that has a row. */
  ghost predicate TablesInvariant(sites: seq<SiteRow>, prompts: seq<PromptRow>, calls: seq<Call>) {
    && (forall p :: PromptCount(prompts, p) <= SiteCount(sites, p))
    && (forall p :: multiset(calls)[ProvisionCall(p)] <= 1)
    && (forall p :: multiset(calls)[ProvisionCall(p)] > 0 ==> SiteCount(sites, p) > 0)
  }

  function OptionToSeq<T>(x: Option<T>): seq<T> {
    if x.Some? then [x.value] else []
  }

  /** Logging calls that provision nothing keeps the invariant. */
  lemma LogKeepsInvariant(sites: seq<SiteRow>, prompts: seq<PromptRow>, calls: seq<Call>, extra: seq<Call>)
    requires TablesInvariant(sites, prompts, calls)
    requires forall k :: 0 <= k < |extra| ==> !extra[k].CreateAccount?
    ensures TablesInvariant(sites, prompts, calls + extra)
  {
    forall p ensures multiset(calls + extra)[ProvisionCall(p)] == multiset(calls)[ProvisionCall(p)] {
      assert ProvisionCall(p) !in extra;
    }
  }

  /** A run keeps the invariant. */
  lemma RunKeepsInvariant(sites: seq<SiteRow>, prompts: seq<PromptRow>, calls: seq<Call>, w: Pending, o: Outcomes)
    requires TablesInvariant(sites, prompts, calls)
    ensures var e := RunEffect(sites, w, o);
      TablesInvariant(sites + OptionToSeq(e.site), prompts + OptionToSeq(e.promptRow), calls + e.trace)
  {
    var e := RunEffect(sites, w, o);
    var sites', prompts', calls' := sites + OptionToSeq(e.site), prompts + OptionToSeq(e.promptRow), calls + e.trace;
    RunNeverRollsBack(sites, w, o);
    forall q
      ensures PromptCount(prompts', q) <= SiteCount(sites', q)
      ensures multiset(calls')[ProvisionCall(q)] <= 1
      ensures multiset(calls')[ProvisionCall(q)] > 0 ==> SiteCount(sites', q) > 0
    {
      if e.site.Some? {
        CountSnoc(sites, e.site.value, (r: SiteRow) => r.projectId == q);
        assert SiteCount(sites', q) == SiteCount(sites, q) + (if w.projectId == q then 1 else 0);
      } else {
        assert sites' == sites;
      }
      if e.promptRow.Some? {
        CountSnoc(prompts, e.promptRow.value, (r: PromptRow) => r.projectId == q);
        assert PromptCount(prompts', q) == PromptCount(prompts, q) + (if w.projectId == q then 1 else 0);
      } else {
        assert prompts' == prompts;
      }
      assert SiteCount(sites, q) <= SiteCount(sites', q);
      RunHostingCalls(sites, w, o, q);
      assert multiset(calls')[ProvisionCall(q)] == multiset(calls)[ProvisionCall(q)] + multiset(e.trace)[ProvisionCall(q)];
      if multiset(e.trace)[ProvisionCall(q)] > 0 {
        assert q == w.projectId && SiteCount(sites, q) == 0;
        assert multiset(calls)[ProvisionCall(q)] == 0;
        assert SiteCount(sites', q) > 0;
      }
    }
  }

  // ---------------------------------------------------------------- the controller's state

  /** The job table is a plain object, so `jobs[jobId]` also finds what every object inherits
      from `Object.prototype`: these methods, and `__proto__`, the prototype itself. */
  const PrototypeMethods: set<string> := {
    "constructor", "hasOwnProperty", "isPrototypeOf", "propertyIsEnumerable", "toLocaleString",
    "toString", "valueOf", "__defineGetter__", "__defineSetter__", "__lookupGetter__", "__lookupSetter__"}
  const PrototypeKey := "__proto__"

  datatype StatusResponse =
    | Found(job: Job)              // 200 { success: true, job }
    | FoundMethod                  // 200 { success: true }: a function-valued `job` is dropped by JSON
    | FoundPrototype               // 200 { success: true, job: {} }: the prototype has no own enumerable keys
    | NotFound(message: string)    // 404 { success: false, message }

  datatype CheckResponse =
    | Answer(isNew: bool)                                 // 200 true | false
    | CheckFailed(error: string, details: Option<string>) // 500 { error, details }

  class SiteService {
    /** The in-memory job table, keyed by job id. */
    var jobs: map<JobId, Job>
    /** `generated_sites`, in insertion order. */
    var sites: seq<SiteRow>
    /** `site_prompts`, in insertion order. */
    var prompts: seq<PromptRow>
    /** Every collaborator call made so far, in order. */
    var calls: seq<Call>

    ghost predicate Valid()
      reads this
    {
      && (forall id :: id in jobs ==> WellFormedJob(jobs[id]))
      && TablesInvariant(sites, prompts, calls)
    }

    /** A fresh process: no jobs and no calls yet, over whatever rows earlier runs left,
        provided no project has more prompt rows than site rows. */
    constructor (existingSites: seq<SiteRow>, existingPrompts: seq<PromptRow>)
      requires forall p :: PromptCount(existingPrompts, p) <= SiteCount(existingSites, p)
      ensures Valid()
      ensures jobs == map[] && sites == existingSites && prompts == existingPrompts && calls == []
    {
      jobs := map[];
      sites := existingSites;
      prompts := existingPrompts;
      calls := [];
    }

    /** The request half of `newsite`. `freshId` is the `uuidv4()` it draws. An accepted
        request registers a `processing` entry under the fresh id, changes no other entry,
        and hands the detached task what it needs; any other request changes nothing. */
    method Submit(req: Request, freshId: JobId) returns (resp: SubmitResponse, work: Option<Pending>)
      // a `uuidv4()` is never taken, and never `__proto__`, whose assignment would replace the prototype
      requires Valid() && freshId !in jobs && freshId != PrototypeKey
      modifies this`jobs
      ensures Valid()
      ensures RequestThrows(req) ==> resp == ServerError(JobCreationFailed)
      ensures !RequestThrows(req) && PromptRejected(req.body.value.prompt) ==> resp == BadRequest(NoPromptMessage)
      ensures resp.Accepted? <==> !RequestThrows(req) && !PromptRejected(req.body.value.prompt)
      ensures resp.Accepted? ==>
        && resp.jobId == freshId
        && jobs == old(jobs)[freshId := Job(Processing, None, None)]
        && work == Some(Pending(freshId, req.body.value.prompt.text, req.body.value.projectId,
                                req.userId, ImageUrl(req.fileName)))
      ensures !resp.Accepted? ==> jobs == old(jobs) && work.None?
    {
      // destructuring a missing body, or calling `trim` on a non-string, throws
      if RequestThrows(req) {
        return ServerError(JobCreationFailed), None;
      }
      if PromptRejected(req.body.value.prompt) {
        return BadRequest(NoPromptMessage), None;
      }
      var body := req.body.value;
      Register(freshId);
      resp := Accepted(freshId);
      work := Some(Pending(freshId, body.prompt.text, body.projectId, req.userId, ImageUrl(req.fileName)));
    }

    /** Enters a job under `id` as `processing`, with neither a result nor an error yet. */
    method Register(id: JobId)
      requires Valid()
      modifies this`jobs
      ensures Valid() && jobs == old(jobs)[id := Job(Processing, None, None)]
    {
      jobs := jobs[id := Job(Processing, None, None)];
    }

    /** The body of the `try` block of the detached task, on a connected client. */
    method Attempt(w: Pending, o: Outcomes) returns (job: Job)
      modifies this`calls, this`sites, this`prompts
      ensures var a := AttemptEffect(old(sites), w, o);
        && calls == old(calls) + a.trace
        && sites == old(sites) + OptionToSeq(a.site)
        && prompts == old(prompts) + OptionToSeq(a.promptRow)
        && job == a.job
    {
      var p := w.projectId;
      var first := SiteCount(sites, p) == 0;
      calls := calls + [SelectNewest(p)];
      if o.select.Throws? {
        assert sites == sites + [] && prompts == prompts + [];
        return Failed(o.select.error);
      }
      var finalPrompt := AskedPrompt(sites, w);
      calls := calls + [Generate(finalPrompt)];
      var html := GerarParte(o.stream);
      var values := SiteValuesOf(w, html);
      calls := calls + [InsertSite(values)];
      if o.insertSite.Throws? {
        LogSteps(old(calls), SelectNewest(p), Generate(finalPrompt), InsertSite(values), []);
        assert sites == sites + [] && prompts == prompts + [];
        return Failed(o.insertSite.error);
      }
      var key := o.insertSite.value;
      sites := sites + [RowOf(values, key)];
      ghost var before := calls;
      job := Finish(first, w, o, values, key);
      LogSteps(old(calls), SelectNewest(p), Generate(finalPrompt), InsertSite(values), calls[|before|..]);
    }

    /** The rest of the `try` block, once the site row is in. */
    method Finish(first: bool, w: Pending, o: Outcomes, values: SiteValues, key: RowKey) returns (job: Job)
      modifies this`calls, this`prompts
      ensures var f := FinishEffect(first, w, o, values, key);
        && calls == old(calls) + f.trace
        && prompts == old(prompts) + OptionToSeq(f.promptRow)
        && job == f.job
    {
      var p := w.projectId;
      var pr := PromptRow(w.userId, p, w.prompt);
      calls := calls + [InsertPrompt(pr)];
      if o.insertPrompt.Throws? {
        assert prompts == prompts + [];
        return Failed(o.insertPrompt.error);
      }
      prompts := prompts + [pr];
      if first {
        calls := calls + [ProvisionCall(p)];
        if o.createAccount.Throws? {
          return Failed(o.createAccount.error);
        }
      }
      calls := calls + [UploadCall(p, values.htmlContent)];
      if o.upload.Throws? {
        return Failed(o.upload.error);
      }
      job := Job(Done, Some(ResultOf(values, key)), None);
    }

    /** The background half of `newsite`: one run of the detached task for a job that is
        still `processing`. It ends that entry in `done` or `error`, changes no other entry,
        and leaves the tables and the call log as `RunEffect` says. */
    method Run(w: Pending, o: Outcomes)
      requires Valid() && w.jobId in jobs && jobs[w.jobId].status == Processing
      modifies this
      ensures Valid()
      ensures var e := RunEffect(old(sites), w, o);
        && calls == old(calls) + e.trace
        && sites == old(sites) + OptionToSeq(e.site)
        && prompts == old(prompts) + OptionToSeq(e.promptRow)
        && jobs == old(jobs)[w.jobId := e.job]
      ensures jobs[w.jobId].status == Done || jobs[w.jobId].status == Error
    {
      RunKeepsInvariant(sites, prompts, calls, w, o);
      RunEndsTerminal(sites, w, o);
      Background(w, o);
    }

    /** The detached task itself: connect, the `try` block, release in `finally`. */
    method Background(w: Pending, o: Outcomes)
      modifies this
      ensures var e := RunEffect(old(sites), w, o);
        && calls == old(calls) + e.trace
        && sites == old(sites) + OptionToSeq(e.site)
        && prompts == old(prompts) + OptionToSeq(e.promptRow)
        && jobs == old(jobs)[w.jobId := e.job]
    {
      ghost var e := RunEffect(sites, w, o);
      ghost var a := AttemptEffect(sites, w, o);
      ghost var calls0 := calls;
      calls := calls + [Connect];
      if o.connect.Throws? {
        jobs := jobs[w.jobId := Failed(o.connect.error)];
        assert sites == sites + [] && prompts == prompts + [];
        return;
      }
      assert e.trace == [Connect] + a.trace + [Release];
      var job := Attempt(w, o);
      AppendBracketed(calls0, a.trace);
      calls := calls + [Release];
      jobs := jobs[w.jobId := job];
    }

    /** `jobStatus`: a read-only lookup of the job table. An own entry wins; a key the table
        lacks can still name an inherited property, which is truthy and so answers 200. */
    method JobStatus(jobId: JobId) returns (resp: StatusResponse)
      requires Valid()
      ensures jobId == PrototypeKey ==> resp == FoundPrototype
      ensures jobId != PrototypeKey && jobId in jobs ==> resp == Found(jobs[jobId])
      ensures jobId !in jobs && jobId in PrototypeMethods ==> resp == FoundMethod
      ensures jobId !in jobs && jobId != PrototypeKey && jobId !in PrototypeMethods ==>
        resp == NotFound(JobNotFoundMessage)
      ensures resp.Found? ==> WellFormedJob(resp.job)
    {
      if jobId == PrototypeKey {
        resp := FoundPrototype;
      } else if jobId in jobs {
        resp := Found(jobs[jobId]);
      } else if jobId in PrototypeMethods {
        resp := FoundMethod;
      } else {
        resp := NotFound(JobNotFoundMessage);
      }
    }

    /** `check_id_projeto`: `true` exactly when the project has no rows; the client is
        released whenever one was obtained. */
    method CheckIdProjeto(projectId: string, connect: Reply<()>, query: Reply<()>) returns (resp: CheckResponse)
      requires Valid()
      modifies this`calls
      ensures Valid()
      ensures connect.Throws? ==>
        calls == old(calls) + [Connect] && resp == CheckFailed(CheckFailedMessage, connect.error.message)
      ensures connect.Ok? ==> calls == old(calls) + [Connect, CountSites(projectId), Release]
      ensures connect.Ok? && query.Throws? ==> resp == CheckFailed(CheckFailedMessage, query.error.message)
      ensures connect.Ok? && query.Ok? ==>
        resp == Answer(forall k :: 0 <= k < |sites| ==> sites[k].projectId != projectId)
    {
      Log(Connect);
      if connect.Throws? {
        resp := CheckFailed(CheckFailedMessage, connect.error.message);
        return;
      }
      resp := CountOnClient(projectId, query);
      assert calls == old(calls) + [Connect] + [CountSites(projectId), Release];
    }

    /** The rest of `check_id_projeto` once a client is obtained: the count query, then the
        release in `finally`. */
    method CountOnClient(projectId: string, query: Reply<()>) returns (resp: CheckResponse)
      requires Valid()
      modifies this`calls
      ensures Valid() && calls == old(calls) + [CountSites(projectId), Release]
      ensures query.Throws? ==> resp == CheckFailed(CheckFailedMessage, query.error.message)
      ensures query.Ok? ==> resp == Answer(forall k :: 0 <= k < |sites| ==> sites[k].projectId != projectId)
    {
      Log(CountSites(projectId));
      if query.Throws? {
        resp := CheckFailed(CheckFailedMessage, query.error.message);
      } else {
        resp := Answer(IsNewProject(sites, projectId));
      }
      Log(Release);
    }

    /** Records a call that provisions nothing. */
    method Log(c: Call)
      requires Valid() && !c.CreateAccount?
      modifies this`calls
      ensures Valid() && calls == old(calls) + [c]
    {
      LogKeepsInvariant(sites, prompts, calls, [c]);
      calls := calls + [c];
    }
  }
}
