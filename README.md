# Nightly decision-task scheduler, modelled in Dafny

`automation/taskcluster/schedule_nightly_graph.py` schedules the nightly
release pipeline. It works out which repository, branch and commit it runs
from. It builds a context that looks like what the GitHub integration of
Taskcluster would supply for a cron trigger. It renders `.taskcluster.yml`
against that context with JSON-e, checks that exactly one task came out, and
submits that task under its own `taskId`.

This project models the decision logic around the external calls:

- `GitReferences` is `calculate_git_references`. A remote that does not start
  with `https://github.com` is refused. One trailing `.git` is stripped.
- `Slugs` is the `as_slugid` memo. `Memo` and `Resolve` describe it as values.
  The class `SlugTable` is the mutable table that a render owns.
  `ResolveAll` follows a series of calls within one render.
- `RenderContext` holds the `params` record, the context literal, the five
  staging toggles and the `now` timestamp.
- `Json` holds the rendered document type. It also holds the Python
  operations the script applies to that document (`d['tasks']`, `len`, `[0]`,
  `.pop('taskId')`), each failing with the exception Python would raise.
- `DecisionTask` is `make_decision_task`: the render, the one-task check and
  the `taskId` split.
- `Schedule` is `schedule`: the `params` assembly (including the
  `CRON_TASK_ID` default) and the run up to the queue call.

External collaborators become inputs:

- The git client supplies the remote URL, the branch name and the commit as
  strings.
- The YAML loader supplies the template as a `Json.Value`.
- The clock supplies the ISO timestamp string.
- The environment is a `map<string, string>`.
- JSON-e is a `DecisionTask.Renderer` made of two uninterpreted functions.
  The first gives the names the template passes to `as_slugid`, in order.
  The second gives the rendered document once those calls are answered.
  `DecisionTask.Render` makes those calls on the render's own `SlugTable`.
  Its loop stands for the renderer's repeated calls; the script has none.
- `slugid.nice()` is a counter, so each fresh identifier differs from all
  identifiers issued before it.

Error behaviour follows the code. A rendered `tasks` whose length is not 1
gives `TaskCountError(n)`. The code raises a plain `Exception` with a fixed
message there; the count `n` is added by the model. Any other shape problem
gives the `KeyError`, `TypeError`, `IndexError` or `AttributeError` that the
corresponding Python operation raises. Examples: a document without `tasks`,
a `tasks` that is a string or a mapping, a task that is not a mapping, a task
without `taskId`. A wrong task count and an error inside the template engine
are different exceptions in the code; engine errors are left out (see below).

The code has five staging toggles (lines 50-54), and so does the model.

`DecisionTask.Rendered` and `Schedule.ScheduleResult` are the functional
specifications of the methods `DecisionTask.MakeDecisionTask` (with
`DecisionTask.Render`) and `Schedule.Schedule`: each method is proved equal
to its function, and the end-to-end lemmas of `Schedule` are stated about
`ScheduleResult`.

## Model

| member | source | states |
|---|---|---|
| GitReferences.StripGitSuffix | automation/taskcluster/schedule_nightly_graph.py:25 | the result is a prefix of the URL; with a trailing `.git` it is 4 shorter and appending `.git` gives the URL back; otherwise it is the URL |
| GitReferences.StripKeepsGitHubPrefix | automation/taskcluster/schedule_nightly_graph.py:24-25 | stripping `.git` from a URL that starts with `https://github.com` leaves a URL that still starts with it |
| GitReferences.CalculateGitReferences | automation/taskcluster/schedule_nightly_graph.py:19-27 | fails with the assertion error exactly when the remote does not start with `https://github.com`; on success the URL starts with that prefix, is a prefix of the remote, and is exactly `StripGitSuffix` of the remote (one trailing `.git` removed, otherwise unchanged), and branch and commit are passed through |
| Slugs.Resolve | automation/taskcluster/schedule_nightly_graph.py:37-40 | after a call the name is stored and mapped to the returned id; exactly that name is added; existing entries never change; a known name leaves the memo as it was; a fresh id differs from every stored id; validity is preserved |
| Slugs.ResolveAll | automation/taskcluster/schedule_nightly_graph.py:37-40 | a series of calls returns one id per call |
| Slugs.ResolveAllAgreesWithTable | automation/taskcluster/schedule_nightly_graph.py:35-40 | over any series of calls the memo stays valid, keeps every earlier entry, and each call's answer is the final table's entry for its name |
| Slugs.SameIdIffSameName | automation/taskcluster/schedule_nightly_graph.py:35-40 | within one render two calls return the same id if and only if they were given the same name |
| Slugs.SlugTable.constructor | automation/taskcluster/schedule_nightly_graph.py:35 | each render starts from an empty table |
| Slugs.SlugTable.AsSlugid | automation/taskcluster/schedule_nightly_graph.py:37-40 | the table changes as `Resolve` says: a stored name returns its id and leaves the table unchanged; an unseen name is added with an id no other name has |
| RenderContext.NowStamp | automation/taskcluster/schedule_nightly_graph.py:48 | the stamp is the first min(23, length) characters of the timestamp followed by a single `Z` |
| RenderContext.MakeContext | automation/taskcluster/schedule_nightly_graph.py:43-67 | each of the five toggles takes its staging literal if and only if `is_staging`, and its production literal if and only if not, so no third value occurs |
| RenderContext.ParamsRoundTrip | automation/taskcluster/schedule_nightly_graph.py:43-67 | the parameters can be read back from the context unchanged |
| RenderContext.ContextDeterminedByInputs | automation/taskcluster/schedule_nightly_graph.py:43-67 | two contexts are equal if and only if their parameters and stamps are; the toggles depend on `is_staging` only |
| RenderContext.ContextFields | automation/taskcluster/schedule_nightly_graph.py:44-66 | `tasks_for` is `cron`, `sender.login` is `TaskclusterHook`; `cron.task_id`, `clone_url`, `tag_name` and `target_commitish` are the cron task id, URL, head revision and branch |
| Json.GetItem | automation/taskcluster/schedule_nightly_graph.py:70 | subscription by key succeeds exactly on a mapping holding the key, with its value; a missing key is a key error |
| Json.Len | automation/taskcluster/schedule_nightly_graph.py:70 | `len` is defined exactly for lists, mappings and strings, and is their number of items, entries or characters |
| Json.GetFirst | automation/taskcluster/schedule_nightly_graph.py:72 | `[0]` succeeds exactly on a non-empty list or string; on a list it is the first item |
| Json.PopKey | automation/taskcluster/schedule_nightly_graph.py:74 | `pop` succeeds exactly on a mapping holding the key; it returns that key's value and the mapping without that key, all other entries unchanged |
| DecisionTask.ExtractDecisionTask | automation/taskcluster/schedule_nightly_graph.py:70-75 | succeeds if and only if `tasks` is a list of exactly one mapping with a `taskId`; then the id is that `taskId` and the body is the task without `taskId`, every other key unchanged; a `tasks` of length n other than 1 fails with the count n |
| DecisionTask.Render | automation/taskcluster/schedule_nightly_graph.py:69 | the table ends as the series of `as_slugid` calls leaves it, and the document is the renderer's output given their answers |
| DecisionTask.MakeDecisionTask | automation/taskcluster/schedule_nightly_graph.py:30-75 | the result is the extraction from the document rendered against the context of the parameters, with slug calls answered from a fresh memo |
| DecisionTask.ZeroOrManyTasksFail | automation/taskcluster/schedule_nightly_graph.py:70-71 | a `tasks` list of zero or of two or more items fails with the count error (the count is the model's addition) |
| DecisionTask.OneTaskScenario | automation/taskcluster/schedule_nightly_graph.py:72-75 | one task `{taskId: "X", payload: p}` yields id `"X"` and body `{payload: p}` |
| DecisionTask.TwoTaskScenario | automation/taskcluster/schedule_nightly_graph.py:70-71 | two tasks fail with count 2 |
| Schedule.MakeParams | automation/taskcluster/schedule_nightly_graph.py:82-88 | the parameters carry the flag, URL, branch and commit; `cron_task_id` is `CRON_TASK_ID` from the environment, or `<cron_task_id>` when it is absent |
| Schedule.Schedule | automation/taskcluster/schedule_nightly_graph.py:78-89 | the run's result is the reference check followed by the decision task built from the assembled parameters |
| Schedule.NonGitHubRemoteFails | automation/taskcluster/schedule_nightly_graph.py:24 | a non-GitHub remote fails the run with the assertion error, whatever the template and renderer |
| Schedule.GitHubRemoteRenders | automation/taskcluster/schedule_nightly_graph.py:81-89 | on a GitHub remote the context's clone URL starts with the GitHub prefix, carries the commit and branch and the placeholder cron id when unset, and the run ends as the extraction does |
| Schedule.OneTaskIsSubmitted | automation/taskcluster/schedule_nightly_graph.py:81-90 | a template that, under the cron context the run builds from the remote, branch, commit and environment, renders one task `{taskId: "X", payload: p}` is submitted as `"X"` with body `{payload: p}` |
| Schedule.TwoTasksAreRefused | automation/taskcluster/schedule_nightly_graph.py:70-71 | a template that always renders two tasks fails with count 2 and is never submitted |

## Left out

- Git client calls (`Repo`, `remote()`, `head.reference`, `str(branch.commit)`): foreign objects. Their string results are inputs; their failures (no `origin` remote, a detached HEAD) are not modelled.
- Python assertions are assumed enabled. Under `python -O` the `assert` of line 24 is removed and a non-GitHub remote is not refused; `CalculateGitReferences` and `Schedule.NonGitHubRemoteFails` describe the default mode only.
- Opening and YAML-parsing `.taskcluster.yml`: file I/O. The parsed template is an input, and a load failure is not modelled.
- `jsone.render`: an external engine. It is an uninterpreted `Renderer`, and errors raised inside it are not modelled.
- `slugid.nice()`: randomness. It is modelled as a counter, so distinct names get distinct ids by construction. The real ids are random 22-character strings that are distinct with high probability only.
- `datetime.utcnow().isoformat()`: clock access and formatting. The ISO string is an input. When the microsecond is 0, Python's `isoformat` leaves out the fraction. `NowStamp` then keeps all 19 characters, which gives no millisecond part.
- `taskcluster.Queue`, `schedule_task` (in `lib/tasks`, which is not part of this model), `argparse` and `print`: network client, command line and console plumbing. A successful `Schedule` result is the pair that `schedule_task` would receive.
- `task.pop('taskId')` changes the task dictionary in place. It is modelled as a new map value. No other reference to that dictionary exists after rendering, so the difference is not observable.
- Mapping keys are strings only. YAML integer keys, floating-point numbers and other scalar kinds of the rendered document are not modelled.
- Slugs.ResolveAll: its own contract states only the length of the trace. What the trace means is stated by ResolveAllAgreesWithTable and SameIdIffSameName.
