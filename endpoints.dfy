/** The resource endpoints: which HTTP method and path each client operation
    uses, whether its response is decoded, and what body it sends. */
module Endpoints {
  import opened PyJson
  import opened Http
  import PyText

  predicate IsLowerHex(c: char)
  {
    '0' <= c <= '9' || 'a' <= c <= 'f'
  }

  /** `str(uuid)`: 32 lower-case hex digits in groups 8-4-4-4-12. */
  predicate IsCanonicalUuid(s: string)
  {
    && |s| == 36
    && (forall k :: 0 <= k < 36 ==> (s[k] == '-' <==> k == 8 || k == 13 || k == 18 || k == 23))
    && (forall k :: 0 <= k < 36 && s[k] != '-' ==> IsLowerHex(s[k]))
  }

  /** A UUID as it appears in a path. */
  type Uuid = s: string | IsCanonicalUuid(s) witness "00000000-0000-0000-0000-000000000000"

  const FilesPath := "/v1/files/"
  const WorkflowsPath := "/v1/workflows/"

  function FilePath(file: Uuid): string
  {
    FilesPath + file
  }

  function WorkflowPath(workflow: Uuid): string
  {
    WorkflowsPath + workflow
  }

  function RunsPath(workflow: Uuid): string
  {
    WorkflowPath(workflow) + "/runs/"
  }

  /** A run number is only meaningful under its workflow: the path carries both. */
  function RunPath(workflow: Uuid, run: int): string
  {
    RunsPath(workflow) + PyText.IntStr(run)
  }

  /** `/v1/workflows/{id}/runs/{n}/results`: the workflow sits at a fixed
      place, the run number follows `/runs/`, and the path ends in `/results`. */
  function RunResultsPath(workflow: Uuid, run: int): (p: string)
    ensures |p| >= 65
    ensures p[..14] == WorkflowsPath && p[14..50] == workflow && p[50..56] == "/runs/"
    ensures p[56..|p| - 8] == PyText.IntStr(run) && p[|p| - 8..] == "/results"
  {
    RunPath(workflow, run) + "/results"
  }

  /** The workflow and run number can be read back from a run's path. */
  lemma RunPathInjective(w1: Uuid, n1: int, w2: Uuid, n2: int)
    requires RunPath(w1, n1) == RunPath(w2, n2)
    ensures w1 == w2 && n1 == n2
  {
    var p1, p2 := RunPath(w1, n1), RunPath(w2, n2);
    assert w1 == p1[14..50] == p2[14..50] == w2;
    assert PyText.IntStr(n1) == p1[56..] == p2[56..] == PyText.IntStr(n2);
    PyText.IntStrInjective(n1, n2);
  }

  /** Results of different runs, or of runs of different workflows, are
      fetched from different paths. */
  lemma RunResultsPathInjective(w1: Uuid, n1: int, w2: Uuid, n2: int)
    requires RunResultsPath(w1, n1) == RunResultsPath(w2, n2)
    ensures w1 == w2 && n1 == n2
  {
    var p1, p2 := RunResultsPath(w1, n1), RunResultsPath(w2, n2);
    assert RunPath(w1, n1) == p1[..|p1| - 8] == p2[..|p2| - 8] == RunPath(w2, n2);
    RunPathInjective(w1, n1, w2, n2);
  }

  /** The operations that are a single `_request` call. File upload and run
      results have their own argument handling and are modelled apart. The
      `body` of a write is the already serialized model (`model_dump`). */
  datatype Endpoint =
    | ListFiles
    | GetFile(file: Uuid)
    | DeleteFile(file: Uuid)
    | ListWorkflows
    | CreateWorkflow(body: Json)
    | GetWorkflow(workflow: Uuid)
    | OverrideWorkflow(workflow: Uuid, body: Json)
    | UpdateWorkflow(workflow: Uuid, body: Json)
    | DeleteWorkflow(workflow: Uuid)
    | ListWorkflowRuns(workflow: Uuid)
    | CreateWorkflowRun(workflow: Uuid, body: Json)
    | GetWorkflowRunDetails(workflow: Uuid, run: int)
  {
    predicate IsDelete()
    {
      DeleteFile? || DeleteWorkflow?
    }

    predicate HasBody()
    {
      CreateWorkflow? || OverrideWorkflow? || UpdateWorkflow? || CreateWorkflowRun?
    }
  }

  /** How one endpoint calls `_request`. */
  datatype Route = Route(verb: Method, path: string, parseJson: bool, payload: Payload)

  /** The route of each endpoint. Every path lies under `/v1/`; only the two
      deletes skip JSON decoding, and they are exactly the `DELETE`s; exactly
      the writes send a JSON body, the serialized model they were given. */
  function RouteOf(e: Endpoint): (r: Route)
    ensures "/v1/" <= r.path
    ensures r.parseJson <==> !e.IsDelete()
    ensures r.verb == DELETE <==> e.IsDelete()
    ensures r.verb == GET <==> !e.IsDelete() && !e.HasBody()
    ensures r.payload.JsonPayload? <==> e.HasBody()
    ensures e.HasBody() ==> r.payload == JsonPayload(e.body)
    ensures !e.HasBody() ==> r.payload == NoPayload
  {
    match e
    case ListFiles => Route(GET, FilesPath, true, NoPayload)
    case GetFile(f) => Route(GET, FilePath(f), true, NoPayload)
    case DeleteFile(f) => Route(DELETE, FilePath(f), false, NoPayload)
    case ListWorkflows => Route(GET, WorkflowsPath, true, NoPayload)
    case CreateWorkflow(b) => Route(POST, WorkflowsPath, true, JsonPayload(b))
    case GetWorkflow(w) => Route(GET, WorkflowPath(w), true, NoPayload)
    case OverrideWorkflow(w, b) => Route(PUT, WorkflowPath(w), true, JsonPayload(b))
    case UpdateWorkflow(w, b) => Route(PATCH, WorkflowPath(w), true, JsonPayload(b))
    case DeleteWorkflow(w) => Route(DELETE, WorkflowPath(w), false, NoPayload)
    case ListWorkflowRuns(w) => Route(GET, RunsPath(w), true, NoPayload)
    case CreateWorkflowRun(w, b) => Route(POST, RunsPath(w), true, JsonPayload(b))
    case GetWorkflowRunDetails(w, n) => Route(GET, RunPath(w, n), true, NoPayload)
  }

  /** The endpoint with its body left out: what the route identifies. */
  function Target(e: Endpoint): Endpoint
  {
    match e
    case CreateWorkflow(_) => CreateWorkflow(JNull)
    case OverrideWorkflow(w, _) => OverrideWorkflow(w, JNull)
    case UpdateWorkflow(w, _) => UpdateWorkflow(w, JNull)
    case CreateWorkflowRun(w, _) => CreateWorkflowRun(w, JNull)
    case _ => e
  }

  /** Which path template an endpoint uses. */
  function Template(e: Endpoint): nat
  {
    match e
    case ListFiles => 0
    case GetFile(_) | DeleteFile(_) => 1
    case ListWorkflows | CreateWorkflow(_) => 2
    case GetWorkflow(_) | OverrideWorkflow(_, _) | UpdateWorkflow(_, _) | DeleteWorkflow(_) => 3
    case ListWorkflowRuns(_) | CreateWorkflowRun(_, _) => 4
    case GetWorkflowRunDetails(_, _) => 5
  }

  /** The length and fifth character of a path tell its template apart. */
  lemma TemplateShape(e: Endpoint)
    ensures var p := RouteOf(e).path;
      && |p| > 4
      && (p[4] == 'f' <==> Template(e) <= 1)
      && (Template(e) == 0 ==> |p| == 10)
      && (Template(e) == 1 ==> |p| == 46)
      && (Template(e) == 2 ==> |p| == 14)
      && (Template(e) == 3 ==> |p| == 50)
      && (Template(e) == 4 ==> |p| == 56)
      && (Template(e) == 5 ==> |p| > 56)
  {
  }

  /** No two endpoints share a method and a path: the route identifies the
      operation and every identifier in it. */
  lemma RouteIdentifiesEndpoint(e1: Endpoint, e2: Endpoint)
    requires RouteOf(e1).verb == RouteOf(e2).verb && RouteOf(e1).path == RouteOf(e2).path
    ensures Target(e1) == Target(e2)
  {
    TemplateShape(e1);
    TemplateShape(e2);
    var p := RouteOf(e1).path;
    assert Template(e1) == Template(e2);
    match e1
    case GetFile(f) => assert f == p[10..] == e2.file;
    case DeleteFile(f) => assert f == p[10..] == e2.file;
    case GetWorkflow(w) => assert w == p[14..] == e2.workflow;
    case OverrideWorkflow(w, _) => assert w == p[14..] == e2.workflow;
    case UpdateWorkflow(w, _) => assert w == p[14..] == e2.workflow;
    case DeleteWorkflow(w) => assert w == p[14..] == e2.workflow;
    case ListWorkflowRuns(w) => assert w == p[14..50] == e2.workflow;
    case CreateWorkflowRun(w, _) => assert w == p[14..50] == e2.workflow;
    case GetWorkflowRunDetails(w, n) => RunPathInjective(w, n, e2.workflow, e2.run);
    case _ =>
  }
}
