/**
 * The task API slice: each endpoint's request (HTTP verb, URL relative to the base URL, body)
 * and the cache tags it provides or invalidates.
 */
module TaskService {
  import opened Js

  /** The scalar JSON values a request body carries. */
  datatype Json = JString(str: string) | JNumber(num: int) | JBool(flag: bool) | JNull

  /** A flat JSON object, such as a task draft. */
  type Object = map<string, Json>

  datatype HttpMethod = GET | POST | PUT | PATCH | DELETE

  /** The `{ url, method, body }` an endpoint's `query` returns; `url` is relative to `BaseUrl`. */
  datatype Request = Request(verb: HttpMethod, url: string, body: Option<Object>)

  const BaseUrl := "http://localhost:8000/api/tasks/"

  const TasksTag := "Tasks"

  /** The slice's `tagTypes`. */
  const TagTypes: seq<string> := [TasksTag]

  /** The absolute URL a request goes to. */
  function FullUrl(r: Request): (u: string)
    ensures |u| == |BaseUrl| + |r.url| && u[..|BaseUrl|] == BaseUrl && u[|BaseUrl|..] == r.url
  {
    BaseUrl + r.url
  }

  /** A template literal `${v}`, where `v` may be undefined. */
  function Interpolate(v: Option<Json>): (s: string)
    ensures v.None? ==> s == "undefined"
    ensures v.Some? && v.value.JString? ==> s == v.value.str
    ensures v.Some? && v.value.JNumber? && v.value.num >= 0 ==>
              AllDigits(s) && ValueOf(s) == v.value.num && (|s| > 1 ==> s[0] != '0')
  {
    match v
    case None => "undefined"
    case Some(JString(s)) => s
    case Some(JNumber(n)) => if n >= 0 then (ValueOfDecimal(n); Decimal(n)) else "-" + Decimal(-n)
    case Some(JBool(b)) => if b then "true" else "false"
    case Some(JNull) => "null"
  }

  /** `o[key]`, undefined when the key is absent. */
  function Lookup(o: Object, key: string): (v: Option<Json>)
    ensures v.None? <==> key !in o
    ensures v.Some? ==> v.value == o[key]
  {
    if key in o then Some(o[key]) else None
  }

  /** `getTasks`: `query: () => ''`, a GET of the base URL itself. */
  function GetTasksQuery(): (r: Request)
    ensures r.verb == GET && r.body.None?
    ensures FullUrl(r) == BaseUrl
  {
    Request(GET, "", None)
  }

  /** `createTask`: the task object is posted as it is to the base URL. */
  function CreateTaskQuery(task: Object): (r: Request)
    ensures r.verb == POST && FullUrl(r) == BaseUrl
    ensures r.body == Some(task)
  {
    Request(POST, "", Some(task))
  }

  /** `updateTask`: `({ taskId, ...task })` is a PUT of `task` to `${taskId}`. */
  function UpdateTaskQuery(arg: Object): (r: Request)
    ensures r.verb == PUT && r.body.Some?
    ensures r.url == Interpolate(Lookup(arg, "taskId"))
    ensures "taskId" !in r.body.value
    ensures forall k :: k in arg && k != "taskId" ==> k in r.body.value && r.body.value[k] == arg[k]
    ensures forall k :: k in r.body.value ==> k in arg
  {
    Request(PUT, Interpolate(Lookup(arg, "taskId")), Some(arg - {"taskId"}))
  }

  /** `updateTaskStatus`: `({ taskId, status })` is a PATCH of `{ status }` to `${taskId}/status`. */
  function UpdateTaskStatusQuery(taskId: string, status: string): (r: Request)
    ensures r.verb == PATCH
    ensures r.url == taskId + "/status"
    ensures r.body.Some? && r.body.value.Keys == {"status"} && r.body.value["status"] == JString(status)
  {
    Request(PATCH, taskId + "/status", Some(map["status" := JString(status)]))
  }

  /** `deleteTask`: a DELETE of `${taskId}` with no body. */
  function DeleteTaskQuery(taskId: string): (r: Request)
    ensures r.verb == DELETE && r.url == taskId && r.body.None?
  {
    Request(DELETE, taskId, None)
  }

  /** An update built from a draft plus its id sends exactly the draft to exactly that id. */
  lemma UpdateTaskSplitsIdFromDraft(taskId: string, task: Object)
    requires "taskId" !in task
    ensures UpdateTaskQuery(task["taskId" := JString(taskId)]) == Request(PUT, taskId, Some(task))
  {
    var arg := task["taskId" := JString(taskId)];
    assert arg - {"taskId"} == task;
  }

  /** Conversely, the argument of an update is recovered from its URL and body. */
  lemma UpdateTaskLosesNothing(arg: Object)
    requires "taskId" in arg && arg["taskId"].JString?
    ensures var r := UpdateTaskQuery(arg); r.body.value["taskId" := JString(r.url)] == arg
  {
    var r := UpdateTaskQuery(arg);
    assert r.body.value["taskId" := JString(r.url)] == arg;
  }

  /** Status updates of different tasks go to different URLs. */
  lemma StatusUrlIdentifiesTask(a: string, b: string, s: string, t: string)
    requires UpdateTaskStatusQuery(a, s).url == UpdateTaskStatusQuery(b, t).url
    ensures a == b
  {
    var u := UpdateTaskStatusQuery(a, s).url;
    assert a == u[..|u| - 7];
    assert b == u[..|u| - 7];
  }

  /** Update and delete of one task address the same resource; its status is a sub-resource of it. */
  lemma TaskUrlsShareResource(taskId: string, status: string)
    ensures UpdateTaskQuery(map["taskId" := JString(taskId)]).url == DeleteTaskQuery(taskId).url
    ensures UpdateTaskStatusQuery(taskId, status).url == DeleteTaskQuery(taskId).url + "/status"
  {
  }

  /** The endpoints of the slice. */
  datatype Endpoint = GetTasks | CreateTask | UpdateTask | UpdateTaskStatus | DeleteTask

  /** `builder.mutation` as opposed to `builder.query`. */
  predicate IsMutation(e: Endpoint)
  {
    !e.GetTasks?
  }

  /** `providesTags`: only the list query provides, and only `Tasks`. */
  function ProvidesTags(e: Endpoint): (tags: seq<string>)
    ensures tags == [] <==> IsMutation(e)
    ensures forall t :: t in tags ==> t == TasksTag
  {
    if e.GetTasks? then [TasksTag] else []
  }

  /** `invalidatesTags`: every mutation, and only a mutation, invalidates `Tasks`. */
  function InvalidatesTags(e: Endpoint): (tags: seq<string>)
    ensures tags != [] <==> IsMutation(e)
    ensures forall t :: t in tags ==> t == TasksTag
  {
    if e.GetTasks? then [] else [TasksTag]
  }

  /** Every mutation invalidates every tag the task list provides, so the list is refetched. */
  lemma MutationsInvalidateTaskList(e: Endpoint)
    requires IsMutation(e)
    ensures ProvidesTags(GetTasks) == [TasksTag]
    ensures forall t :: t in ProvidesTags(GetTasks) ==> t in InvalidatesTags(e)
  {
  }

  /** Every tag the endpoints use is declared in `tagTypes`. */
  lemma TagsAreDeclared(e: Endpoint)
    ensures forall t :: t in ProvidesTags(e) + InvalidatesTags(e) ==> t in TagTypes
  {
  }
}
