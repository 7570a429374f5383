/**
  `schedule`: derive the repository identity, assemble the parameters and
  produce the decision task that is then handed to the task queue. The
  result is what `schedule_task` would be called with; a failure means the
  queue is never called.
 */
module Schedule {
  import opened Outcomes
  import opened Json
  import opened GitReferences
  import opened RenderContext
  import opened DecisionTask

  const CronTaskIdVar: string := "CRON_TASK_ID"
  const CronTaskIdPlaceholder: string := "<cron_task_id>"

  /** The `params` dictionary: identity, staging flag and the cron task id from the environment. */
  function MakeParams(isStaging: bool, refs: References, environ: map<string, string>): (p: Params)
    ensures p.isStaging == isStaging
    ensures p.repositoryGithubHttpUrl == refs.url && p.branch == refs.branch && p.headRev == refs.commit
    ensures CronTaskIdVar in environ ==> p.cronTaskId == environ[CronTaskIdVar]
    ensures CronTaskIdVar !in environ ==> p.cronTaskId == "<cron_task_id>"
  {
    Params(
      isStaging := isStaging,
      repositoryGithubHttpUrl := refs.url,
      headRev := refs.commit,
      branch := refs.branch,
      cronTaskId := if CronTaskIdVar in environ then environ[CronTaskIdVar] else CronTaskIdPlaceholder)
  }

  /** The whole run, as a value: the decision task that would be submitted, or the error. */
  function ScheduleResult(isStaging: bool, remoteUrl: string, branch: string, commit: string,
                          environ: map<string, string>, renderer: Renderer, template: Value, iso: string)
    : Result<DecisionTask>
  {
    var refs :- CalculateGitReferences(remoteUrl, branch, commit);
    ExtractDecisionTask(Rendered(renderer, template, MakeContext(MakeParams(isStaging, refs, environ), iso)))
  }

  /** `schedule`, up to the call into the task queue. */
  method Schedule(isStaging: bool, remoteUrl: string, branch: string, commit: string,
                  environ: map<string, string>, renderer: Renderer, template: Value, iso: string)
    returns (r: Result<DecisionTask>)
    ensures r == ScheduleResult(isStaging, remoteUrl, branch, commit, environ, renderer, template, iso)
  {
    var refs :- CalculateGitReferences(remoteUrl, branch, commit);
    var params := MakeParams(isStaging, refs, environ);
    r := MakeDecisionTask(renderer, template, params, iso);
  }

  /** A remote that is not an HTTPS GitHub URL stops the run before anything is rendered. */
  lemma NonGitHubRemoteFails(isStaging: bool, remoteUrl: string, branch: string, commit: string,
                             environ: map<string, string>, renderer: Renderer, template: Value, iso: string)
    requires !(GitHubPrefix <= remoteUrl)
    ensures ScheduleResult(isStaging, remoteUrl, branch, commit, environ, renderer, template, iso) == Failure(RemoteNotGitHub)
  {
  }

  /**
    On a GitHub remote, the renderer sees a context built from the stripped
    URL, the branch, the commit and the environment's cron task id, and the
    run ends exactly as the extraction from its document does.
   */
  lemma GitHubRemoteRenders(isStaging: bool, remoteUrl: string, branch: string, commit: string,
                            environ: map<string, string>, renderer: Renderer, template: Value, iso: string)
    requires GitHubPrefix <= remoteUrl
    ensures var c := MakeContext(MakeParams(isStaging, References(StripGitSuffix(remoteUrl), branch, commit), environ), iso);
      && GitHubPrefix <= c.event.repository.cloneUrl
      && c.event.release.tagName == commit
      && c.event.release.targetCommitish == branch
      && (CronTaskIdVar !in environ ==> c.cron.taskId == "<cron_task_id>")
      && ScheduleResult(isStaging, remoteUrl, branch, commit, environ, renderer, template, iso)
         == ExtractDecisionTask(Rendered(renderer, template, c))
  {
    StripKeepsGitHubPrefix(remoteUrl);
  }

  /** The template renders to `doc` whatever the context and the slug answers. */
  ghost predicate AlwaysRenders(renderer: Renderer, template: Value, doc: Value) {
    forall c, ids :: renderer.output(template, c, ids) == doc
  }

  /** Under `context`, the template renders to `doc` whatever the slug answers. */
  ghost predicate RendersUnder(renderer: Renderer, template: Value, context: Context, doc: Value) {
    forall ids :: renderer.output(template, context, ids) == doc
  }

  /**
    End to end: a template that renders, under the cron context the run
    builds and for any slug answers, to one task `{taskId: "X", payload: ...}` is submitted as `"X"`
    with body `{payload: ...}`.
   */
  lemma OneTaskIsSubmitted(isStaging: bool, remoteUrl: string, branch: string, commit: string,
                           environ: map<string, string>, renderer: Renderer, template: Value, iso: string,
                           payload: Value)
    requires GitHubPrefix <= remoteUrl
    requires RendersUnder(renderer, template,
      MakeContext(MakeParams(isStaging, References(StripGitSuffix(remoteUrl), branch, commit), environ), iso),
      Obj(map["tasks" := Arr([Obj(map["taskId" := Str("X"), "payload" := payload])])]))
    ensures ScheduleResult(isStaging, remoteUrl, branch, commit, environ, renderer, template, iso)
      == Success(DecisionTask(Str("X"), map["payload" := payload]))
  {
    GitHubRemoteRenders(isStaging, remoteUrl, branch, commit, environ, renderer, template, iso);
    OneTaskScenario(payload);
  }

  /** End to end: a template that always renders two tasks never reaches the queue. */
  lemma TwoTasksAreRefused(isStaging: bool, remoteUrl: string, branch: string, commit: string,
                           environ: map<string, string>, renderer: Renderer, template: Value, iso: string,
                           first: Value, second: Value)
    requires GitHubPrefix <= remoteUrl
    requires AlwaysRenders(renderer, template, Obj(map["tasks" := Arr([first, second])]))
    ensures ScheduleResult(isStaging, remoteUrl, branch, commit, environ, renderer, template, iso)
      == Failure(TaskCountError(2))
  {
    TwoTaskScenario(first, second);
  }
}
