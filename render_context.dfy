/**
  The parameters of one scheduling run and the render context built from
  them: the record `make_decision_task` hands to the template renderer.
  The `as_slugid` entry of that record is the `SlugTable` of module Slugs,
  handed to the renderer beside this context.
 */
module RenderContext {

  /** The `params` dictionary assembled by `schedule`. */
  datatype Params = Params(
    isStaging: bool,
    repositoryGithubHttpUrl: string,
    headRev: string,
    branch: string,
    cronTaskId: string)

  datatype Cron = Cron(taskId: string)
  datatype Repository = Repository(cloneUrl: string)
  datatype Release = Release(tagName: string, targetCommitish: string)
  datatype Sender = Sender(login: string)
  /** The part of the context shaped like a release webhook's payload. */
  datatype Event = Event(repository: Repository, release: Release, sender: Sender)

  datatype Context = Context(
    tasksFor: string,
    cron: Cron,
    now: string,
    commandStagingFlag: string,
    routeEnvironment: string,
    signingEnvironment: string,
    pushapkEnvironment: string,
    scriptworkerEnvironment: string,
    event: Event)

  const CronTrigger: string := "cron"
  const HookLogin: string := "TaskclusterHook"

  /**
    The `now` entry: the ISO timestamp cut to its first 23 characters (to
    the millisecond when the timestamp carries microseconds) and marked UTC
    with a `Z`. A shorter timestamp is kept whole, as Python's slice does.
   */
  function NowStamp(iso: string): (r: string)
    ensures |r| == (if |iso| < 23 then |iso| else 23) + 1
    ensures r[|r| - 1] == 'Z'
    ensures r[..|r| - 1] <= iso
    ensures |iso| >= 23 ==> r[..23] == iso[..23]
    ensures |iso| <= 23 ==> r == iso + "Z"
  {
    (if |iso| < 23 then iso else iso[..23]) + "Z"
  }

  /** The context literal built in `make_decision_task`. */
  function MakeContext(p: Params, iso: string): (c: Context)
    ensures c.commandStagingFlag == "--staging" <==> p.isStaging
    ensures c.commandStagingFlag == "" <==> !p.isStaging
    ensures c.routeEnvironment == "staging-nightly" <==> p.isStaging
    ensures c.routeEnvironment == "nightly" <==> !p.isStaging
    ensures c.signingEnvironment == "dep-signing" <==> p.isStaging
    ensures c.signingEnvironment == "release-signing" <==> !p.isStaging
    ensures c.pushapkEnvironment == ":dep" <==> p.isStaging
    ensures c.pushapkEnvironment == "" <==> !p.isStaging
    ensures c.scriptworkerEnvironment == "-dep" <==> p.isStaging
    ensures c.scriptworkerEnvironment == "" <==> !p.isStaging
  {
    Context(
      tasksFor := CronTrigger,
      cron := Cron(p.cronTaskId),
      now := NowStamp(iso),
      commandStagingFlag := if p.isStaging then "--staging" else "",
      routeEnvironment := if p.isStaging then "staging-nightly" else "nightly",
      signingEnvironment := if p.isStaging then "dep-signing" else "release-signing",
      pushapkEnvironment := if p.isStaging then ":dep" else "",
      scriptworkerEnvironment := if p.isStaging then "-dep" else "",
      event := Event(
        Repository(p.repositoryGithubHttpUrl),
        Release(tagName := p.headRev, targetCommitish := p.branch),
        Sender(HookLogin)))
  }

  /** Reads the parameters back out of a context. */
  function ParamsOf(c: Context): Params {
    Params(
      isStaging := c.routeEnvironment == "staging-nightly",
      repositoryGithubHttpUrl := c.event.repository.cloneUrl,
      headRev := c.event.release.tagName,
      branch := c.event.release.targetCommitish,
      cronTaskId := c.cron.taskId)
  }

  /** The context loses nothing of the parameters: they can be read back from it. */
  lemma ParamsRoundTrip(p: Params, iso: string)
    ensures ParamsOf(MakeContext(p, iso)) == p
  {
  }

  /**
    Besides the parameters and the clock, the context holds only literals:
    so the context is fixed by the parameters and the timestamp, and the
    staging toggles by `is_staging` alone.
   */
  lemma ContextDeterminedByInputs(p: Params, q: Params, iso: string, iso': string)
    ensures MakeContext(p, iso) == MakeContext(q, iso') <==> p == q && NowStamp(iso) == NowStamp(iso')
    ensures p.isStaging == q.isStaging ==>
      var c, d := MakeContext(p, iso), MakeContext(q, iso');
      && c.commandStagingFlag == d.commandStagingFlag
      && c.routeEnvironment == d.routeEnvironment
      && c.signingEnvironment == d.signingEnvironment
      && c.pushapkEnvironment == d.pushapkEnvironment
      && c.scriptworkerEnvironment == d.scriptworkerEnvironment
  {
    if MakeContext(p, iso) == MakeContext(q, iso') {
      ParamsRoundTrip(p, iso);
      ParamsRoundTrip(q, iso');
    }
  }

  /** The verbatim copies and the two fixed literals of the context. */
  lemma ContextFields(p: Params, iso: string)
    ensures var c := MakeContext(p, iso);
      && c.tasksFor == "cron"
      && c.cron.taskId == p.cronTaskId
      && c.now == NowStamp(iso)
      && c.event.repository.cloneUrl == p.repositoryGithubHttpUrl
      && c.event.release.tagName == p.headRev
      && c.event.release.targetCommitish == p.branch
      && c.event.sender.login == "TaskclusterHook"
  {
  }
}
