/**
  `make_decision_task`: render the pipeline template against the context,
  check that exactly one task came out, and pop that task's `taskId` off
  its body.

  The renderer itself is not modelled. It is given as two functions: the
  names the template passes to `as_slugid`, in the order it passes them,
  and the rendered document once those calls have been answered.
 */
module DecisionTask {
  import opened Outcomes
  import opened Json
  import opened Slugs
  import opened RenderContext

  datatype Renderer = Renderer(
    slugNames: (Value, Context) -> seq<string>,
    output: (Value, Context, seq<Slug>) -> Value)

  /** What is handed to the submitter: the task's identifier and the task without it. */
  datatype DecisionTask = DecisionTask(taskId: Value, body: map<string, Value>)

  /** `rendered` holds a `tasks` list of exactly one mapping, and that mapping has a `taskId`. */
  predicate SingleTask(rendered: Value) {
    && rendered.Obj?
    && "tasks" in rendered.fields
    && rendered.fields["tasks"].Arr?
    && |rendered.fields["tasks"].items| == 1
    && rendered.fields["tasks"].items[0].Obj?
    && "taskId" in rendered.fields["tasks"].items[0].fields
  }

  /** The fields of the one task of a `SingleTask` document. */
  function OnlyTask(rendered: Value): map<string, Value>
    requires SingleTask(rendered)
  {
    rendered.fields["tasks"].items[0].fields
  }

  /** `rendered` has a `tasks` entry whose `len` is not 1. */
  predicate WrongTaskCount(rendered: Value, n: nat) {
    && rendered.Obj?
    && "tasks" in rendered.fields
    && Len(rendered.fields["tasks"]) == Success(n)
    && n != 1
  }

  /**
    The shape check and the extraction that follow the render: the document
    must hold exactly one task, whose `taskId` is split from the rest of it.
   */
  function ExtractDecisionTask(rendered: Value): (r: Result<DecisionTask>)
    ensures r.Success? <==> SingleTask(rendered)
    ensures r.Success? ==> r.value.taskId == OnlyTask(rendered)["taskId"]
    ensures r.Success? ==> r.value.body.Keys == OnlyTask(rendered).Keys - {"taskId"}
    ensures r.Success? ==> forall k :: k in r.value.body ==> r.value.body[k] == OnlyTask(rendered)[k]
    ensures forall n: nat :: WrongTaskCount(rendered, n) ==> r == Failure(TaskCountError(n))
  {
    var tasks :- GetItem(rendered, "tasks");
    var count :- Len(tasks);
    if count != 1 then
      Failure(TaskCountError(count))
    else
      var task :- GetFirst(tasks);
      var popped :- PopKey(task, "taskId");
      Success(DecisionTask(popped.removed, popped.rest))
  }

  /** The document `renderer` produces, answering its slug calls from a fresh memo. */
  function Rendered(renderer: Renderer, template: Value, context: Context): Value {
    renderer.output(template, context, ResolveAll(EmptyMemo, renderer.slugNames(template, context)).ids)
  }

  /**
    The renderer's side of a render: it calls `as_slugid` once for each name
    the template asks for, then produces its document.
   */
  method Render(renderer: Renderer, template: Value, context: Context, slugs: SlugTable) returns (rendered: Value)
    requires slugs.Valid()
    modifies slugs
    ensures slugs.Valid()
    ensures var t := ResolveAll(old(slugs.State()), renderer.slugNames(template, context));
      slugs.State() == t.memo && rendered == renderer.output(template, context, t.ids)
  {
    var names := renderer.slugNames(template, context);
    ghost var start := slugs.State();
    var ids: seq<Slug> := [];
    var i := 0;
    while i < |names|
      invariant 0 <= i <= |names|
      invariant slugs.Valid()
      invariant ResolveAll(start, names[..i]) == Trace(ids, slugs.State())
    {
      assert names[..i + 1][..i] == names[..i];
      var id := slugs.AsSlugid(names[i]);
      ids := ids + [id];
      i := i + 1;
    }
    assert names[..i] == names;
    rendered := renderer.output(template, context, ids);
  }

  /** `make_decision_task`, with the template already loaded and the clock read. */
  method MakeDecisionTask(renderer: Renderer, template: Value, params: Params, iso: string)
    returns (r: Result<DecisionTask>)
    ensures r == ExtractDecisionTask(Rendered(renderer, template, MakeContext(params, iso)))
  {
    var slugs := new SlugTable();
    var context := MakeContext(params, iso);
    var rendered := Render(renderer, template, context, slugs);
    r := ExtractDecisionTask(rendered);
  }

  /** Zero tasks, and two or more tasks, are both refused with the count. */
  lemma ZeroOrManyTasksFail(rendered: Value)
    requires rendered.Obj? && "tasks" in rendered.fields && rendered.fields["tasks"].Arr?
    requires |rendered.fields["tasks"].items| != 1
    ensures ExtractDecisionTask(rendered) == Failure(TaskCountError(|rendered.fields["tasks"].items|))
  {
    assert WrongTaskCount(rendered, |rendered.fields["tasks"].items|);
  }

  /** A document with one task `{taskId: "X", payload: ...}` yields `"X"` and `{payload: ...}`. */
  lemma OneTaskScenario(payload: Value)
    ensures var task := Obj(map["taskId" := Str("X"), "payload" := payload]);
      ExtractDecisionTask(Obj(map["tasks" := Arr([task])])) == Success(DecisionTask(Str("X"), map["payload" := payload]))
  {
    var fields := map["taskId" := Str("X"), "payload" := payload];
    assert fields - {"taskId"} == map["payload" := payload];
  }

  /** A document with two tasks is refused, whatever the tasks are. */
  lemma TwoTaskScenario(first: Value, second: Value)
    ensures ExtractDecisionTask(Obj(map["tasks" := Arr([first, second])])) == Failure(TaskCountError(2))
  {
  }
}
