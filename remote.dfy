/**
 * The remote tracker as the issue operations see it through the `jira`
 * client library. Its answers are fixed inputs (the issues it holds, the
 * answer to a create, to an update and to a query, its field list, its
 * create metadata, the answer to a raw request), and every answer but the
 * raw response may be an error the library raises; every request is
 * appended to `log`, so what an operation sends, and whether it writes, can
 * be stated. How the tracker evaluates a query or applies a write is not
 * modelled.
 */
module Remote {
  import opened Wrappers
  import opened Values
  import opened Errors

  /** The identity fields of an issue: `issue.id`, `issue.key`, `issue.self`. */
  datatype IssueRef = IssueRef(id: string, key: string, self: string)

  /**
   * An attribute of `issue.fields`: absent (`hasattr` is false), present with
   * a JSON null, or present with a value.
   */
  datatype Attr<T> = Absent | Null | Present(value: T)

  /** A status, issue type, priority or component resource, through its `name`. */
  datatype Named = Named(name: string)

  /** A user resource, through its `displayName`. */
  datatype User = User(displayName: string)

  /** A security level resource. */
  datatype SecurityLevel = SecurityLevel(id: string, name: string)

  /** `issue.fields`: the standard attributes, and every other attribute by field id (null as VNone). */
  datatype IssueFields = IssueFields(
    summary: Attr<string>,
    status: Attr<Named>,
    issuetype: Attr<Named>,
    description: Attr<string>,
    assignee: Attr<User>,
    reporter: Attr<User>,
    priority: Attr<Named>,
    security: Attr<SecurityLevel>,
    labels: Attr<seq<string>>,
    components: Attr<seq<Named>>,
    custom: map<string, Value>)

  datatype RemoteIssue = RemoteIssue(ref: IssueRef, fields: IssueFields)

  /** One entry of `jira.fields()`: `id` and `name` always, `custom` and `schema` when sent. */
  datatype FieldDef = FieldDef(id: string, name: string, custom: Option<Value>, schema: Option<Value>)

  /** One field of an issue type's create metadata: `required` and `operations` when sent. */
  datatype FieldMeta = FieldMeta(required: Option<Value>, operations: Option<Value>)

  /** The parts of a `createmeta` answer the code reads; None stands for a key that is not there. */
  datatype IssueTypeMeta = IssueTypeMeta(fields: Option<map<string, FieldMeta>>)
  datatype ProjectMeta = ProjectMeta(issuetypes: Option<seq<IssueTypeMeta>>)
  datatype CreateMeta = CreateMeta(projects: Option<seq<ProjectMeta>>)

  datatype Verb = Get | Post | Put | Delete

  /** A response to a raw request: status, body text, and the body as JSON when it parses. */
  datatype HttpResponse = HttpResponse(status: int, text: string, json: Option<Value>)

  /** A request made to the tracker. */
  datatype Call =
    | IssueRequest(key: string, fieldList: Option<string>)
    | CreateRequest(payload: map<string, Value>)
    | UpdateRequest(target: IssueRef, payload: map<string, Value>)
    | SearchRequest(jql: string, maxResults: int, searchFields: string)
    | FieldsRequest
    | CreateMetaRequest(projectKey: string, issueType: Option<string>)
    | HttpRequest(verb: Verb, url: string, body: Option<Value>)

  /** A request that changes something on the tracker. */
  predicate IsWrite(c: Call) {
    c.CreateRequest? || c.UpdateRequest? || (c.HttpRequest? && c.verb != Get)
  }

  /** The number of writes in a request log. */
  function WriteCount(log: seq<Call>): (n: nat)
    ensures n <= |log|
    ensures n == 0 <==> forall i :: 0 <= i < |log| ==> !IsWrite(log[i])
    decreases |log|
  {
    if log == [] then 0
    else WriteCount(log[..|log| - 1]) + (if IsWrite(log[|log| - 1]) then 1 else 0)
  }

  /** Counting writes distributes over appending to the log. */
  lemma {:induction false} WriteCountAppend(a: seq<Call>, b: seq<Call>)
    ensures WriteCount(a + b) == WriteCount(a) + WriteCount(b)
    decreases |b|
  {
    if b != [] {
      assert (a + b)[..|a + b| - 1] == a + b[..|b| - 1];
      WriteCountAppend(a, b[..|b| - 1]);
    } else {
      assert a + b == a;
    }
  }

  class Tracker {
    /** The base URL, `jira._options["server"]`. */
    const server: string
    const issues: map<string, RemoteIssue>
    /** What `create_issue` answers: the new issue's identity, or the error the library raises. */
    const createAnswer: Result<IssueRef, Error>
    /** The error `issue.update` raises, or None when the tracker accepts the update. */
    const updateError: Option<Error>
    /** What `search_issues` answers: the hits, or the error the library raises. */
    const searchAnswer: Result<seq<RemoteIssue>, Error>
    /** What `fields()` answers: the field definitions, or the error the library raises. */
    const fieldsAnswer: Result<seq<FieldDef>, Error>
    /** The answer to `createmeta`: a raised exception, a falsy answer (None), or the metadata. */
    const meta: Result<Option<CreateMeta>, Error>
    const response: HttpResponse
    var log: seq<Call>

    constructor (server: string, issues: map<string, RemoteIssue>, createAnswer: Result<IssueRef, Error>,
                 updateError: Option<Error>, searchAnswer: Result<seq<RemoteIssue>, Error>,
                 fieldsAnswer: Result<seq<FieldDef>, Error>, meta: Result<Option<CreateMeta>, Error>,
                 response: HttpResponse)
      ensures this.server == server && this.issues == issues && this.createAnswer == createAnswer
      ensures this.updateError == updateError && this.searchAnswer == searchAnswer
      ensures this.fieldsAnswer == fieldsAnswer && this.meta == meta
      ensures this.response == response && log == []
    {
      this.server := server;
      this.issues := issues;
      this.createAnswer := createAnswer;
      this.updateError := updateError;
      this.searchAnswer := searchAnswer;
      this.fieldsAnswer := fieldsAnswer;
      this.meta := meta;
      this.response := response;
      log := [];
    }

    /** `jira.issue(key[, fields=...])`: the issue, or NotFound. */
    method Issue(key: string, fieldList: Option<string>) returns (r: Result<RemoteIssue, Error>)
      modifies this
      ensures log == old(log) + [IssueRequest(key, fieldList)]
      ensures r == if key in issues then Success(issues[key]) else Failure(NotFound(key))
    {
      log := log + [IssueRequest(key, fieldList)];
      r := if key in issues then Success(issues[key]) else Failure(NotFound(key));
    }

    /** `jira.create_issue(fields=...)`: the new issue's identity, or the tracker's rejection. */
    method CreateIssue(payload: map<string, Value>) returns (r: Result<IssueRef, Error>)
      modifies this
      ensures log == old(log) + [CreateRequest(payload)]
      ensures r == createAnswer
    {
      log := log + [CreateRequest(payload)];
      r := createAnswer;
    }

    /** `issue.update(fields=...)`: None when accepted, else the tracker's rejection. */
    method Update(target: IssueRef, payload: map<string, Value>) returns (err: Option<Error>)
      modifies this
      ensures log == old(log) + [UpdateRequest(target, payload)]
      ensures err == updateError
    {
      log := log + [UpdateRequest(target, payload)];
      err := updateError;
    }

    /** `jira.search_issues(jql_str=..., maxResults=..., fields=...)`: the hits, or the tracker's rejection. */
    method SearchIssues(jql: string, maxResults: int, fieldList: string) returns (r: Result<seq<RemoteIssue>, Error>)
      modifies this
      ensures log == old(log) + [SearchRequest(jql, maxResults, fieldList)]
      ensures r == searchAnswer
    {
      log := log + [SearchRequest(jql, maxResults, fieldList)];
      r := searchAnswer;
    }

    /** `jira.fields()`: the field definitions, or the tracker's rejection. */
    method Fields() returns (r: Result<seq<FieldDef>, Error>)
      modifies this
      ensures log == old(log) + [FieldsRequest]
      ensures r == fieldsAnswer
    {
      log := log + [FieldsRequest];
      r := fieldsAnswer;
    }

    /** `jira.createmeta(projectKeys=..., issuetypeNames=..., expand=...)` */
    method Createmeta(projectKey: string, issueType: Option<string>) returns (r: Result<Option<CreateMeta>, Error>)
      modifies this
      ensures log == old(log) + [CreateMetaRequest(projectKey, issueType)]
      ensures r == meta
    {
      log := log + [CreateMetaRequest(projectKey, issueType)];
      r := meta;
    }

    /** `jira._session.get/post/put/delete(url[, json=...])` */
    method Send(verb: Verb, url: string, body: Option<Value>) returns (resp: HttpResponse)
      modifies this
      ensures log == old(log) + [HttpRequest(verb, url, body)]
      ensures resp == response
    {
      log := log + [HttpRequest(verb, url, body)];
      resp := response;
    }
  }
}
