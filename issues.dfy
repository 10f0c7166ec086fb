/**
 * Issue operations (jirahhh/issues.py): the create payload, the update patch,
 * the view, search and field-listing projections, and the raw API call.
 *
 * Each operation that talks to the tracker is a method over a Remote.Tracker
 * that builds its dict step by step as the source does; its result, and the
 * requests it makes, are tied to a specification function whose contract
 * states what the payload or projection contains.
 */
module Issues {
  import opened Wrappers
  import opened Values
  import opened Errors
  import opened Remote

  /** A JSON object. Key order is not modelled. */
  type Fields = map<string, Value>

  /** Logical field name ("acceptance_criteria", "epic_name", "parent_link", "epic_link") to tracker field id. */
  type FieldIds = map<string, string>

  /** `{"id": issue.id, "key": issue.key, "self": issue.self}` */
  function RefObject(ref: IssueRef): (r: Fields)
    ensures r.Keys == {"id", "key", "self"}
    ensures r["id"] == VStr(ref.id) && r["key"] == VStr(ref.key) && r["self"] == VStr(ref.self)
  {
    map["id" := VStr(ref.id), "key" := VStr(ref.key), "self" := VStr(ref.self)]
  }

  /** The logical field `name`, asked to be written, is written under the tracker id `k`. */
  predicate Writes(ids: FieldIds, name: string, write: bool, k: string) {
    write && name in ids && ids[name] == k
  }

  /** The entry a logical field contributes: under its mapped id when it is written, else none. */
  function MappedEntry(ids: FieldIds, name: string, write: bool, value: string): (m: Fields)
    ensures forall k :: k in m <==> Writes(ids, name, write, k)
    ensures forall k :: k in m ==> m[k] == VStr(value)
  {
    if write && name in ids then map[ids[name] := VStr(value)] else map[]
  }

  // ---------------------------------------------------------------------------
  // create_issue

  /** The arguments of `create_issue`; a missing `custom_field_ids` or `additional_fields` is the empty map. */
  datatype CreateArgs = CreateArgs(
    projectKey: string,
    summary: string,
    issueType: string,
    description: string,
    acceptanceCriteria: Option<string>,
    epicName: Option<string>,
    parent: Option<string>,
    epicLink: Option<string>,
    customFieldIds: FieldIds,
    securityLevelId: Option<string>,
    additionalFields: Fields)

  /** The value create_issue passes for a logical field. */
  function CreateLogical(a: CreateArgs, name: string): Option<string> {
    if name == "acceptance_criteria" then a.acceptanceCriteria
    else if name == "epic_name" then a.epicName
    else if name == "parent_link" then a.parent
    else if name == "epic_link" then a.epicLink
    else None
  }

  /** Creating writes logical field `name` under `k`: its value is truthy and the name is mapped to `k`. */
  predicate CreateWrites(a: CreateArgs, name: string, k: string) {
    Writes(a.customFieldIds, name, Given(CreateLogical(a, name)), k)
  }

  /** Some logical field is written under `k`. */
  predicate CreateWritesAny(a: CreateArgs, k: string) {
    CreateWrites(a, "acceptance_criteria", k) || CreateWrites(a, "epic_name", k)
    || CreateWrites(a, "parent_link", k) || CreateWrites(a, "epic_link", k)
  }

  function CreateEntry(a: CreateArgs, name: string): Fields {
    MappedEntry(a.customFieldIds, name, Given(CreateLogical(a, name)), CreateLogical(a, name).GetOr(""))
  }

  const CREATE_BASE_KEYS: set<string> := {"project", "summary", "issuetype", "description"}

  /** The mandatory fields, from the arguments. */
  function CreateBase(a: CreateArgs): Fields {
    map[
      "project" := VMap(map["key" := VStr(a.projectKey)]),
      "summary" := VStr(a.summary),
      "issuetype" := VMap(map["name" := VStr(a.issueType)]),
      "description" := VStr(a.description)]
  }

  /** The mandatory fields with "security" added when a security level id is given. */
  function CreateSecured(a: CreateArgs): Fields {
    if Given(a.securityLevelId) then CreateBase(a)["security" := VMap(map["id" := VStr(a.securityLevelId.value)])]
    else CreateBase(a)
  }

  /** Then the logical fields, in the order acceptance criteria, epic name, parent link, epic link. */
  function CreateMapped(a: CreateArgs): Fields {
    CreateSecured(a) + CreateEntry(a, "acceptance_criteria") + CreateEntry(a, "epic_name")
    + CreateEntry(a, "parent_link") + CreateEntry(a, "epic_link")
  }

  /**
   * The fields create_issue submits: the mandatory fields, then "security"
   * when a security level id is given, then each truthy logical field under
   * its mapped id (later ones win), then every additional field, which may
   * replace anything before it.
   */
  function CreatePayload(a: CreateArgs): (p: Fields)
    ensures forall k :: k in a.additionalFields ==> k in p && p[k] == a.additionalFields[k]
    ensures forall k :: k !in a.additionalFields ==> (k in p <==> k in CreateMapped(a))
    ensures forall k :: k in p && k !in a.additionalFields ==> p[k] == CreateMapped(a)[k]
  {
    CreateMapped(a) + a.additionalFields
  }

  /** Exactly the mandatory keys, "security" when given, the written logical ids and the additional keys are present. */
  lemma CreatePayloadKeys(a: CreateArgs, k: string)
    ensures k in CreatePayload(a) <==>
      k in CREATE_BASE_KEYS || (k == "security" && Given(a.securityLevelId)) || CreateWritesAny(a, k) || k in a.additionalFields
  {
    var e1, e2, e3, e4 := CreateEntry(a, "acceptance_criteria"), CreateEntry(a, "epic_name"),
                          CreateEntry(a, "parent_link"), CreateEntry(a, "epic_link");
    assert CreateMapped(a) == CreateSecured(a) + e1 + e2 + e3 + e4;
    assert k in CreateSecured(a) <==> k in CREATE_BASE_KEYS || (k == "security" && Given(a.securityLevelId));
  }

  /** A mandatory field carries its argument unless an additional field or a logical field id replaces it. */
  lemma CreatePayloadMandatory(a: CreateArgs)
    ensures "project" !in a.additionalFields && !CreateWritesAny(a, "project")
      ==> CreatePayload(a)["project"] == VMap(map["key" := VStr(a.projectKey)])
    ensures "summary" !in a.additionalFields && !CreateWritesAny(a, "summary")
      ==> CreatePayload(a)["summary"] == VStr(a.summary)
    ensures "issuetype" !in a.additionalFields && !CreateWritesAny(a, "issuetype")
      ==> CreatePayload(a)["issuetype"] == VMap(map["name" := VStr(a.issueType)])
    ensures "description" !in a.additionalFields && !CreateWritesAny(a, "description")
      ==> CreatePayload(a)["description"] == VStr(a.description)
  {
    if "project" !in a.additionalFields && !CreateWritesAny(a, "project") {
      PayloadKeepsBase(a, "project");
    }
    if "summary" !in a.additionalFields && !CreateWritesAny(a, "summary") {
      PayloadKeepsBase(a, "summary");
    }
    if "issuetype" !in a.additionalFields && !CreateWritesAny(a, "issuetype") {
      PayloadKeepsBase(a, "issuetype");
    }
    if "description" !in a.additionalFields && !CreateWritesAny(a, "description") {
      PayloadKeepsBase(a, "description");
    }
  }

  /** A mandatory key nothing later writes keeps its mandatory value. */
  lemma PayloadKeepsBase(a: CreateArgs, k: string)
    requires k in CREATE_BASE_KEYS && k !in a.additionalFields && !CreateWritesAny(a, k)
    ensures k in CreatePayload(a) && CreatePayload(a)[k] == CreateBase(a)[k]
  {
    MappedUntouched(a, k);
  }

  /** "security" carries the given level id unless replaced; without a given id it comes only from a replacement. */
  lemma CreatePayloadSecurity(a: CreateArgs)
    ensures Given(a.securityLevelId) && "security" !in a.additionalFields && !CreateWritesAny(a, "security")
      ==> CreatePayload(a)["security"] == VMap(map["id" := VStr(a.securityLevelId.value)])
    ensures !Given(a.securityLevelId) && "security" !in a.additionalFields && !CreateWritesAny(a, "security")
      ==> "security" !in CreatePayload(a)
  {
    if !CreateWritesAny(a, "security") {
      MappedUntouched(a, "security");
    }
  }

  /** A key no logical field writes keeps its value from before the logical fields. */
  lemma MappedUntouched(a: CreateArgs, k: string)
    requires !CreateWritesAny(a, k)
    ensures k in CreateMapped(a) <==> k in CreateSecured(a)
    ensures k in CreateSecured(a) ==> CreateMapped(a)[k] == CreateSecured(a)[k]
  {
    var e1, e2, e3, e4 := CreateEntry(a, "acceptance_criteria"), CreateEntry(a, "epic_name"),
                          CreateEntry(a, "parent_link"), CreateEntry(a, "epic_link");
    assert k !in e1 && k !in e2 && k !in e3 && k !in e4;
  }

  /** A written logical field carries its value unless a later logical field or an additional field takes its id. */
  lemma CreatePayloadLogical(a: CreateArgs, k: string)
    requires k !in a.additionalFields
    ensures CreateWrites(a, "epic_link", k)
      ==> CreatePayload(a)[k] == VStr(a.epicLink.value)
    ensures CreateWrites(a, "parent_link", k) && !CreateWrites(a, "epic_link", k)
      ==> CreatePayload(a)[k] == VStr(a.parent.value)
    ensures CreateWrites(a, "epic_name", k) && !CreateWrites(a, "parent_link", k) && !CreateWrites(a, "epic_link", k)
      ==> CreatePayload(a)[k] == VStr(a.epicName.value)
    ensures CreateWrites(a, "acceptance_criteria", k)
      && !CreateWrites(a, "epic_name", k) && !CreateWrites(a, "parent_link", k) && !CreateWrites(a, "epic_link", k)
      ==> CreatePayload(a)[k] == VStr(a.acceptanceCriteria.value)
  {
    var e1, e2, e3, e4 := CreateEntry(a, "acceptance_criteria"), CreateEntry(a, "epic_name"),
                          CreateEntry(a, "parent_link"), CreateEntry(a, "epic_link");
    assert CreateMapped(a) == CreateSecured(a) + e1 + e2 + e3 + e4;
  }

  /** An override of "summary" replaces the summary argument. */
  lemma CreateSummaryOverride(a: CreateArgs, s: Value)
    requires a.additionalFields == map["summary" := s]
    ensures CreatePayload(a)["summary"] == s
  {
  }

  /** Writing one logical field in place adds that field's entry. */
  lemma EntryStep(before: Fields, after: Fields, a: CreateArgs, name: string)
    requires var v := CreateLogical(a, name);
      after == if Given(v) && name in a.customFieldIds then before[a.customFieldIds[name] := VStr(v.value)] else before
    ensures after == before + CreateEntry(a, name)
  {
  }

  /** Writing one mapped field in place adds its entry. */
  lemma MappedStep(before: Fields, after: Fields, ids: FieldIds, name: string, write: bool, value: string)
    requires after == if write && name in ids then before[ids[name] := VStr(value)] else before
    ensures after == before + MappedEntry(ids, name, write, value)
  {
  }

  /** Setting one key in place, when `present`, adds that one-entry object. */
  lemma OptStep(before: Fields, after: Fields, present: bool, k: string, v: Value)
    requires after == if present then before[k := v] else before
    ensures after == before + OptEntry(present, k, v)
  {
  }

  /** `fields.update(additional)` when `additional` is truthy is the union with it. */
  lemma AdditionalStep(before: Fields, after: Fields, additional: Fields)
    requires after == if |additional| > 0 then before + additional else before
    ensures after == before + additional
  {
    if |additional| == 0 {
      assert additional == map[];
    }
  }

  /** The four `if <value> and "<name>" in field_ids` writes of create_issue, in order. */
  method AddLogicalFields(a: CreateArgs, secured: Fields) returns (fields: Fields)
    requires secured == CreateSecured(a)
    ensures fields == CreateMapped(a)
  {
    var fieldIds := a.customFieldIds;
    fields := secured;
    ghost var s0 := fields;
    if Given(a.acceptanceCriteria) && "acceptance_criteria" in fieldIds {
      fields := fields[fieldIds["acceptance_criteria"] := VStr(a.acceptanceCriteria.value)];
    }
    EntryStep(s0, fields, a, "acceptance_criteria");
    ghost var s1 := fields;
    if Given(a.epicName) && "epic_name" in fieldIds {
      fields := fields[fieldIds["epic_name"] := VStr(a.epicName.value)];
    }
    EntryStep(s1, fields, a, "epic_name");
    ghost var s2 := fields;
    if Given(a.parent) && "parent_link" in fieldIds {
      fields := fields[fieldIds["parent_link"] := VStr(a.parent.value)];
    }
    EntryStep(s2, fields, a, "parent_link");
    ghost var s3 := fields;
    if Given(a.epicLink) && "epic_link" in fieldIds {
      fields := fields[fieldIds["epic_link"] := VStr(a.epicLink.value)];
    }
    EntryStep(s3, fields, a, "epic_link");
  }

  /**
   * `create_issue`: build the payload, submit it once, and return the new
   * issue's identity; the tracker's rejection is passed up unchanged.
   */
  method CreateIssue(jira: Tracker, a: CreateArgs) returns (r: Result<Fields, Error>)
    modifies jira
    ensures jira.log == old(jira.log) + [CreateRequest(CreatePayload(a))]
    ensures r.Failure? <==> jira.createAnswer.Failure?
    ensures r.Failure? ==> r.error == jira.createAnswer.error
    ensures r.Success? ==> r.value == RefObject(jira.createAnswer.value)
  {
    var fields: Fields := map[
      "project" := VMap(map["key" := VStr(a.projectKey)]),
      "summary" := VStr(a.summary),
      "issuetype" := VMap(map["name" := VStr(a.issueType)]),
      "description" := VStr(a.description)];
    if Given(a.securityLevelId) {
      fields := fields["security" := VMap(map["id" := VStr(a.securityLevelId.value)])];
    }
    assert fields == CreateSecured(a);
    fields := AddLogicalFields(a, fields);
    ghost var s4 := fields;
    if |a.additionalFields| > 0 {
      fields := fields + a.additionalFields;
    }
    AdditionalStep(s4, fields, a.additionalFields);
    assert fields == CreatePayload(a);
    var created := jira.CreateIssue(fields);
    if created.Failure? {
      return Failure(created.error);
    }
    r := Success(RefObject(created.value));
  }

  // ---------------------------------------------------------------------------
  // update_issue

  /** The arguments of `update_issue`; None means "leave unchanged". */
  datatype UpdateArgs = UpdateArgs(
    summary: Option<string>,
    description: Option<string>,
    acceptanceCriteria: Option<string>,
    customFieldIds: FieldIds,
    additionalFields: Fields)

  /** Updating writes the acceptance criteria under `k`: they are given (even empty) and mapped to `k`. */
  predicate UpdateWrites(u: UpdateArgs, k: string) {
    Writes(u.customFieldIds, "acceptance_criteria", u.acceptanceCriteria.Some?, k)
  }

  /** No argument asks for a change. */
  predicate NothingToUpdate(u: UpdateArgs) {
    u.summary.None? && u.description.None? && u.acceptanceCriteria.None? && u.additionalFields == map[]
  }

  /** The summary and description entries of an update, each when its argument is not None. */
  function UpdateBase(u: UpdateArgs): Fields {
    OptEntry(u.summary.Some?, "summary", VStr(u.summary.GetOr("")))
    + OptEntry(u.description.Some?, "description", VStr(u.description.GetOr("")))
  }

  function UpdateEntry(u: UpdateArgs): Fields {
    MappedEntry(u.customFieldIds, "acceptance_criteria", u.acceptanceCriteria.Some?, u.acceptanceCriteria.GetOr(""))
  }

  /**
   * The patch update_issue submits: only the arguments that are not None,
   * the acceptance criteria only under a mapped id, then the additional
   * fields over everything. It is empty exactly when there is nothing to change.
   */
  function UpdatePatch(u: UpdateArgs): (p: Fields)
    ensures forall k :: k in u.additionalFields ==> k in p && p[k] == u.additionalFields[k]
  {
    UpdateBase(u) + UpdateEntry(u) + u.additionalFields
  }

  /** Exactly the given summary and description, the mapped acceptance criteria and the additional keys are present. */
  lemma UpdatePatchKeys(u: UpdateArgs, k: string)
    ensures k in UpdatePatch(u) <==>
      (k == "summary" && u.summary.Some?) || (k == "description" && u.description.Some?)
      || UpdateWrites(u, k) || k in u.additionalFields
  {
  }

  /** Each given argument carries its value unless replaced by a later entry. */
  lemma UpdatePatchValues(u: UpdateArgs, k: string)
    requires k !in u.additionalFields
    ensures UpdateWrites(u, k) ==> UpdatePatch(u)[k] == VStr(u.acceptanceCriteria.value)
    ensures k == "summary" && u.summary.Some? && !UpdateWrites(u, k) ==> UpdatePatch(u)[k] == VStr(u.summary.value)
    ensures k == "description" && u.description.Some? && !UpdateWrites(u, k) ==> UpdatePatch(u)[k] == VStr(u.description.value)
  {
  }

  /** The patch is empty exactly when no argument asks for a change that can be written. */
  lemma UpdatePatchEmpty(u: UpdateArgs)
    ensures UpdatePatch(u) == map[] <==>
      u.summary.None? && u.description.None?
      && !(u.acceptanceCriteria.Some? && "acceptance_criteria" in u.customFieldIds)
      && u.additionalFields == map[]
  {
    var p := UpdatePatch(u);
    if u.summary.Some? { UpdatePatchKeys(u, "summary"); }
    if u.description.Some? { UpdatePatchKeys(u, "description"); }
    if u.acceptanceCriteria.Some? && "acceptance_criteria" in u.customFieldIds {
      UpdatePatchKeys(u, u.customFieldIds["acceptance_criteria"]);
    }
  }

  /** With nothing to change the patch is empty. */
  lemma NothingToUpdateEmptyPatch(u: UpdateArgs)
    requires NothingToUpdate(u)
    ensures UpdatePatch(u) == map[]
  {
    UpdatePatchEmpty(u);
  }

  /** The patch of `update_issue`, built as the source builds it, one field at a time. */
  method BuildUpdatePatch(u: UpdateArgs) returns (fields: Fields)
    ensures fields == UpdatePatch(u)
  {
    var fieldIds := u.customFieldIds;
    fields := map[];
    if u.summary.Some? {
      fields := fields["summary" := VStr(u.summary.value)];
    }
    OptStep(map[], fields, u.summary.Some?, "summary", VStr(u.summary.GetOr("")));
    ghost var s0 := fields;
    if u.description.Some? {
      fields := fields["description" := VStr(u.description.value)];
    }
    OptStep(s0, fields, u.description.Some?, "description", VStr(u.description.GetOr("")));
    assert fields == UpdateBase(u);
    s0 := fields;
    if u.acceptanceCriteria.Some? && "acceptance_criteria" in fieldIds {
      fields := fields[fieldIds["acceptance_criteria"] := VStr(u.acceptanceCriteria.value)];
    }
    MappedStep(s0, fields, fieldIds, "acceptance_criteria", u.acceptanceCriteria.Some?, u.acceptanceCriteria.GetOr(""));
    ghost var s1 := fields;
    if |u.additionalFields| > 0 {
      fields := fields + u.additionalFields;
    }
    AdditionalStep(s1, fields, u.additionalFields);
  }

  /**
   * `update_issue`: fetch the issue, build the patch, write it only when it
   * is not empty, and return the fetched identity; an unknown key fails after
   * the fetch, and a rejected write passes the tracker's error up.
   */
  method UpdateIssue(jira: Tracker, issueKey: string, u: UpdateArgs) returns (r: Result<Fields, Error>)
    modifies jira
    ensures issueKey !in jira.issues ==>
      r == Failure(NotFound(issueKey)) && jira.log == old(jira.log) + [IssueRequest(issueKey, None)]
    ensures issueKey in jira.issues ==>
      r == if UpdatePatch(u) != map[] && jira.updateError.Some? then Failure(jira.updateError.value)
           else Success(RefObject(jira.issues[issueKey].ref))
    ensures issueKey in jira.issues ==>
      jira.log == old(jira.log) + [IssueRequest(issueKey, None)]
        + (if UpdatePatch(u) == map[] then [] else [UpdateRequest(jira.issues[issueKey].ref, UpdatePatch(u))])
    ensures NothingToUpdate(u) ==> WriteCount(jira.log) == WriteCount(old(jira.log))
  {
    var fetched := jira.Issue(issueKey, None);
    WriteCountAppend(old(jira.log), [IssueRequest(issueKey, None)]);
    if fetched.Failure? {
      return Failure(fetched.error);
    }
    var issue := fetched.value;
    var fields := BuildUpdatePatch(u);
    if |fields| > 0 {
      var err := jira.Update(issue.ref, fields);
      if err.Some? {
        return Failure(err.value);
      }
    } else {
      assert fields == map[];
    }
    r := Success(RefObject(issue.ref));
  }

  // ---------------------------------------------------------------------------
  // view_issue

  /** `getattr(issue.fields, name, None)` on a text attribute. */
  function TextOrNull(a: Attr<string>): Value {
    if a.Present? then VStr(a.value) else VNone
  }

  /** `getattr(issue.fields, "description", "") or ""` */
  function DescriptionText(a: Attr<string>): string {
    if a.Present? then a.value else ""
  }

  /** `issue.fields.<attr>.name if hasattr(issue.fields, attr) else None`; reading `.name` through a null raises. */
  function NameOrNull(a: Attr<Named>, attr: string): Result<Value, Error> {
    match a
    case Absent => Success(VNone)
    case Null => Failure(NullAttribute(attr))
    case Present(n) => Success(VStr(n.name))
  }

  /** The value of a mapped logical custom field on the issue, when the attribute exists and is truthy. */
  function CustomValue(ids: FieldIds, name: string, custom: map<string, Value>): Option<Value> {
    if name in ids && ids[name] in custom && Truthy(custom[ids[name]]) then Some(custom[ids[name]]) else None
  }

  function StrList(xs: seq<string>): (r: seq<Value>)
    ensures |r| == |xs| && forall i :: 0 <= i < |xs| ==> r[i] == VStr(xs[i])
  {
    seq(|xs|, i requires 0 <= i < |xs| => VStr(xs[i]))
  }

  /** `[c.name for c in components]` */
  function NameList(xs: seq<Named>): (r: seq<Value>)
    ensures |r| == |xs| && forall i :: 0 <= i < |xs| ==> r[i] == VStr(xs[i].name)
  {
    seq(|xs|, i requires 0 <= i < |xs| => VStr(xs[i].name))
  }

  /** A one-entry object when `present`, else the empty one. */
  function OptEntry(present: bool, k: string, v: Value): Fields {
    if present then map[k := v] else map[]
  }

  /** The keys every view carries; "summary", "status" and "type" may be null. */
  const VIEW_BASE_KEYS: set<string> := {"key", "id", "self", "summary", "status", "type", "description"}
  const VIEW_NULLABLE_KEYS: set<string> := {"summary", "status", "type"}

  /** The people keys present for an issue. */
  function PeopleKeys(f: IssueFields): set<string> {
    (if f.assignee.Present? then {"assignee"} else {})
    + (if f.reporter.Present? then {"reporter"} else {})
    + (if f.priority.Present? then {"priority"} else {})
    + (if f.security.Present? then {"security"} else {})
  }

  /** The custom-field keys present for an issue. */
  function CustomKeys(f: IssueFields, ids: FieldIds): set<string> {
    (if CustomValue(ids, "acceptance_criteria", f.custom).Some? then {"acceptance_criteria"} else {})
    + (if CustomValue(ids, "epic_name", f.custom).Some? then {"epic_name"} else {})
    + (if CustomValue(ids, "parent_link", f.custom).Some? then {"parent"} else {})
    + (if CustomValue(ids, "epic_link", f.custom).Some? then {"epic_link"} else {})
  }

  /** The list keys present for an issue. */
  function ListKeys(f: IssueFields): set<string> {
    (if f.labels.Present? && f.labels.value != [] then {"labels"} else {})
    + (if f.components.Present? && f.components.value != [] then {"components"} else {})
  }

  /** The keys view_issue adds only when the issue has a truthy value for them. */
  function ViewOptionalKeys(f: IssueFields, ids: FieldIds): set<string> {
    PeopleKeys(f) + CustomKeys(f, ids) + ListKeys(f)
  }

  /** `result[k] = v` when `present`; the object is otherwise unchanged. */
  function Put(m: Fields, present: bool, k: string, v: Value): (r: Fields)
    ensures r.Keys == if present then m.Keys + {k} else m.Keys
    ensures present ==> r[k] == v
    ensures forall j :: j in m && j != k ==> r[j] == m[j]
  {
    if present then m[k := v] else m
  }

  /** `{"id": security.id, "name": security.name}` */
  function SecurityObject(a: Attr<SecurityLevel>): Value {
    if a.Present? then VMap(map["id" := VStr(a.value.id), "name" := VStr(a.value.name)]) else VNone
  }

  /** The fields every view carries, once status and issue type have been read. */
  function ViewBase(issue: RemoteIssue, status: Value, issueType: Value): (m: Fields)
    ensures m.Keys == VIEW_BASE_KEYS
    ensures NonNullOutside(m)
    ensures m["key"] == VStr(issue.ref.key) && m["id"] == VStr(issue.ref.id) && m["self"] == VStr(issue.ref.self)
    ensures m["summary"] == TextOrNull(issue.fields.summary) && m["status"] == status && m["type"] == issueType
    ensures m["description"] == VStr(DescriptionText(issue.fields.description))
  {
    map[
      "key" := VStr(issue.ref.key), "id" := VStr(issue.ref.id), "self" := VStr(issue.ref.self),
      "summary" := TextOrNull(issue.fields.summary), "status" := status, "type" := issueType,
      "description" := VStr(DescriptionText(issue.fields.description))]
  }

  /** Every key outside "summary", "status" and "type" has a non-null value. */
  predicate NonNullOutside(m: Fields) {
    forall k :: k in m && k !in VIEW_NULLABLE_KEYS ==> m[k] != VNone
  }

  const PEOPLE_KEYS: set<string> := {"assignee", "reporter", "priority", "security"}
  const CUSTOM_KEYS: set<string> := {"acceptance_criteria", "epic_name", "parent", "epic_link"}
  const LIST_KEYS: set<string> := {"labels", "components"}

  /** The assignee, reporter, priority and security level, each when present. */
  function ViewPeople(m: Fields, f: IssueFields): Fields {
    var m1 := Put(m, f.assignee.Present?, "assignee", if f.assignee.Present? then VStr(f.assignee.value.displayName) else VNone);
    var m2 := Put(m1, f.reporter.Present?, "reporter", if f.reporter.Present? then VStr(f.reporter.value.displayName) else VNone);
    var m3 := Put(m2, f.priority.Present?, "priority", if f.priority.Present? then VStr(f.priority.value.name) else VNone);
    Put(m3, f.security.Present?, "security", SecurityObject(f.security))
  }

  /** The four mapped custom fields, each when the attribute exists and is truthy. */
  function ViewCustom(m: Fields, f: IssueFields, ids: FieldIds): Fields {
    var ac, en, pl, el := CustomValue(ids, "acceptance_criteria", f.custom), CustomValue(ids, "epic_name", f.custom),
                          CustomValue(ids, "parent_link", f.custom), CustomValue(ids, "epic_link", f.custom);
    var m1 := Put(m, ac.Some?, "acceptance_criteria", ac.GetOr(VNone));
    var m2 := Put(m1, en.Some?, "epic_name", en.GetOr(VNone));
    var m3 := Put(m2, pl.Some?, "parent", pl.GetOr(VNone));
    Put(m3, el.Some?, "epic_link", el.GetOr(VNone))
  }

  /** Labels, and the component names, each when a non-empty list. */
  function ViewLists(m: Fields, f: IssueFields): Fields {
    var m1 := Put(m, f.labels.Present? && f.labels.value != [], "labels",
      if f.labels.Present? then VList(StrList(f.labels.value)) else VNone);
    Put(m1, f.components.Present? && f.components.value != [], "components",
      if f.components.Present? then VList(NameList(f.components.value)) else VNone)
  }

  /**
   * What view_issue reports for a fetched issue. Reading the name of a null
   * status or issue type raises; everything else is in the lemmas below.
   */
  function View(issue: RemoteIssue, ids: FieldIds): (r: Result<Fields, Error>)
    ensures r.Failure? <==> issue.fields.status.Null? || issue.fields.issuetype.Null?
    ensures issue.fields.status.Null? ==> r == Failure(NullAttribute("status"))
    ensures !issue.fields.status.Null? && issue.fields.issuetype.Null? ==> r == Failure(NullAttribute("issuetype"))
  {
    var f := issue.fields;
    var status :- NameOrNull(f.status, "status");
    var issueType :- NameOrNull(f.issuetype, "issuetype");
    Success(ViewOf(issue, ids, status, issueType))
  }

  /** The view once status and issue type have been read: the base object with its three layers. */
  function ViewOf(issue: RemoteIssue, ids: FieldIds, status: Value, issueType: Value): Fields {
    ViewLists(ViewCustom(ViewPeople(ViewBase(issue, status, issueType), issue.fields), issue.fields, ids), issue.fields)
  }

  /** Once status and issue type have been read, the view is the base object with its three layers. */
  lemma ViewUnfold(issue: RemoteIssue, ids: FieldIds, status: Value, issueType: Value)
    requires NameOrNull(issue.fields.status, "status") == Success(status)
    requires NameOrNull(issue.fields.issuetype, "issuetype") == Success(issueType)
    ensures View(issue, ids) == Success(ViewOf(issue, ids, status, issueType))
  {
  }

  /** One conditional `result[k] = v` is one Put. */
  lemma PutStep(before: Fields, after: Fields, present: bool, k: string, v: Value)
    requires after == if present then before[k := v] else before
    ensures after == Put(before, present, k, v)
  {
  }

  /** One guarded custom-field copy is one Put of its CustomValue. */
  lemma CustomStep(before: Fields, after: Fields, ids: FieldIds, name: string, k: string, custom: map<string, Value>)
    requires after == if name in ids && ids[name] in custom && Truthy(custom[ids[name]]) then before[k := custom[ids[name]]] else before
    ensures after == Put(before, CustomValue(ids, name, custom).Some?, k, CustomValue(ids, name, custom).GetOr(VNone))
  {
  }

  /** The assignee, reporter, priority and security level added to `result` in place. */
  method AddPeople(base: Fields, f: IssueFields) returns (result: Fields)
    ensures result == ViewPeople(base, f)
  {
    result := base;
    ghost var m1 := result;
    if f.assignee.Present? {
      result := result["assignee" := VStr(f.assignee.value.displayName)];
    }
    PutStep(m1, result, f.assignee.Present?, "assignee", if f.assignee.Present? then VStr(f.assignee.value.displayName) else VNone);
    m1 := result;
    if f.reporter.Present? {
      result := result["reporter" := VStr(f.reporter.value.displayName)];
    }
    PutStep(m1, result, f.reporter.Present?, "reporter", if f.reporter.Present? then VStr(f.reporter.value.displayName) else VNone);
    m1 := result;
    if f.priority.Present? {
      result := result["priority" := VStr(f.priority.value.name)];
    }
    PutStep(m1, result, f.priority.Present?, "priority", if f.priority.Present? then VStr(f.priority.value.name) else VNone);
    m1 := result;
    if f.security.Present? {
      result := result["security" := VMap(map["id" := VStr(f.security.value.id), "name" := VStr(f.security.value.name)])];
    }
    PutStep(m1, result, f.security.Present?, "security", SecurityObject(f.security));
  }

  /** The mapped custom fields added to `result` in place. */
  method AddCustomFields(base: Fields, f: IssueFields, ids: FieldIds) returns (result: Fields)
    ensures result == ViewCustom(base, f, ids)
  {
    result := base;
    ghost var m1 := result;
    if "acceptance_criteria" in ids && ids["acceptance_criteria"] in f.custom {
      var acceptanceCriteria := f.custom[ids["acceptance_criteria"]];
      if Truthy(acceptanceCriteria) {
        result := result["acceptance_criteria" := acceptanceCriteria];
      }
    }
    CustomStep(m1, result, ids, "acceptance_criteria", "acceptance_criteria", f.custom);
    m1 := result;
    if "epic_name" in ids && ids["epic_name"] in f.custom {
      var epicName := f.custom[ids["epic_name"]];
      if Truthy(epicName) {
        result := result["epic_name" := epicName];
      }
    }
    CustomStep(m1, result, ids, "epic_name", "epic_name", f.custom);
    m1 := result;
    if "parent_link" in ids && ids["parent_link"] in f.custom {
      var parent := f.custom[ids["parent_link"]];
      if Truthy(parent) {
        result := result["parent" := parent];
      }
    }
    CustomStep(m1, result, ids, "parent_link", "parent", f.custom);
    m1 := result;
    if "epic_link" in ids && ids["epic_link"] in f.custom {
      var epicLink := f.custom[ids["epic_link"]];
      if Truthy(epicLink) {
        result := result["epic_link" := epicLink];
      }
    }
    CustomStep(m1, result, ids, "epic_link", "epic_link", f.custom);
  }

  /** Labels and component names added to `result` in place. */
  method AddLists(base: Fields, f: IssueFields) returns (result: Fields)
    ensures result == ViewLists(base, f)
  {
    result := base;
    ghost var m1 := result;
    if f.labels.Present? && f.labels.value != [] {
      result := result["labels" := VList(StrList(f.labels.value))];
    }
    PutStep(m1, result, f.labels.Present? && f.labels.value != [], "labels",
      if f.labels.Present? then VList(StrList(f.labels.value)) else VNone);
    m1 := result;
    if f.components.Present? && f.components.value != [] {
      result := result["components" := VList(NameList(f.components.value))];
    }
    PutStep(m1, result, f.components.Present? && f.components.value != [], "components",
      if f.components.Present? then VList(NameList(f.components.value)) else VNone);
  }

  /**
   * `view_issue`: fetch the issue with the requested fields ("*all" when none
   * are given) and report it; an unknown key or a null status or issue type
   * fails. Viewing never writes.
   */
  method ViewIssue(jira: Tracker, issueKey: string, fieldList: Option<string>, ids: FieldIds)
    returns (r: Result<Fields, Error>)
    modifies jira
    ensures jira.log == old(jira.log) + [IssueRequest(issueKey, Some(if Given(fieldList) then fieldList.value else "*all"))]
    ensures r == if issueKey in jira.issues then View(jira.issues[issueKey], ids) else Failure(NotFound(issueKey))
    ensures WriteCount(jira.log) == WriteCount(old(jira.log))
  {
    var selection := if Given(fieldList) then fieldList.value else "*all";
    var fetched := jira.Issue(issueKey, Some(selection));
    WriteCountAppend(old(jira.log), [IssueRequest(issueKey, Some(selection))]);
    if fetched.Failure? {
      return Failure(fetched.error);
    }
    var issue := fetched.value;
    var f := issue.fields;
    var status := VNone;
    match f.status {
      case Null => return Failure(NullAttribute("status"));
      case Present(n) => status := VStr(n.name);
      case Absent =>
    }
    var issueType := VNone;
    match f.issuetype {
      case Null => return Failure(NullAttribute("issuetype"));
      case Present(n) => issueType := VStr(n.name);
      case Absent =>
    }
    var result := map[
      "key" := VStr(issue.ref.key), "id" := VStr(issue.ref.id), "self" := VStr(issue.ref.self),
      "summary" := TextOrNull(f.summary), "status" := status, "type" := issueType,
      "description" := VStr(DescriptionText(f.description))];
    ViewUnfold(issue, ids, status, issueType);
    assert result == ViewBase(issue, status, issueType);
    result := AddPeople(result, f);
    result := AddCustomFields(result, f, ids);
    result := AddLists(result, f);
    r := Success(result);
  }

  /** The status and issue type values a successful view was built with. */
  function StatusValue(f: IssueFields): Value {
    if f.status.Present? then VStr(f.status.value.name) else VNone
  }

  function TypeValue(f: IssueFields): Value {
    if f.issuetype.Present? then VStr(f.issuetype.value.name) else VNone
  }

  /** A successful view is ViewOf the status and type values. */
  lemma ViewSuccess(issue: RemoteIssue, ids: FieldIds)
    requires View(issue, ids).Success?
    ensures View(issue, ids).value == ViewOf(issue, ids, StatusValue(issue.fields), TypeValue(issue.fields))
  {
    ViewUnfold(issue, ids, StatusValue(issue.fields), TypeValue(issue.fields));
  }

  // Each layer adds exactly its own keys, keeps every other key, and adds no null.

  lemma PeopleLayerKeys(m: Fields, f: IssueFields)
    ensures ViewPeople(m, f).Keys == m.Keys + PeopleKeys(f)
  {
  }

  lemma CustomLayerKeys(m: Fields, f: IssueFields, ids: FieldIds)
    ensures ViewCustom(m, f, ids).Keys == m.Keys + CustomKeys(f, ids)
  {
  }

  lemma ListLayerKeys(m: Fields, f: IssueFields)
    ensures ViewLists(m, f).Keys == m.Keys + ListKeys(f)
  {
  }

  lemma PeopleLayerKeeps(m: Fields, f: IssueFields, j: string)
    requires j in m && j !in PEOPLE_KEYS
    ensures j in ViewPeople(m, f) && ViewPeople(m, f)[j] == m[j]
  {
  }

  lemma CustomLayerKeeps(m: Fields, f: IssueFields, ids: FieldIds, j: string)
    requires j in m && j !in CUSTOM_KEYS
    ensures j in ViewCustom(m, f, ids) && ViewCustom(m, f, ids)[j] == m[j]
  {
  }

  lemma ListLayerKeeps(m: Fields, f: IssueFields, j: string)
    requires j in m && j !in LIST_KEYS
    ensures j in ViewLists(m, f) && ViewLists(m, f)[j] == m[j]
  {
  }

  lemma PeopleLayerNonNull(m: Fields, f: IssueFields)
    requires NonNullOutside(m)
    ensures NonNullOutside(ViewPeople(m, f))
  {
  }

  lemma CustomLayerNonNull(m: Fields, f: IssueFields, ids: FieldIds)
    requires NonNullOutside(m)
    ensures NonNullOutside(ViewCustom(m, f, ids))
  {
  }

  lemma ListLayerNonNull(m: Fields, f: IssueFields)
    requires NonNullOutside(m)
    ensures NonNullOutside(ViewLists(m, f))
  {
  }

  /** The people layer's own values. */
  lemma PeopleLayerValues(m: Fields, f: IssueFields)
    ensures var r := ViewPeople(m, f);
      (f.assignee.Present? ==> r["assignee"] == VStr(f.assignee.value.displayName))
      && (f.reporter.Present? ==> r["reporter"] == VStr(f.reporter.value.displayName))
      && (f.priority.Present? ==> r["priority"] == VStr(f.priority.value.name))
      && (f.security.Present? ==> r["security"] == SecurityObject(f.security))
  {
  }

  /** The custom layer's own values. */
  lemma CustomLayerValues(m: Fields, f: IssueFields, ids: FieldIds)
    ensures var r, c := ViewCustom(m, f, ids), f.custom;
      (CustomValue(ids, "acceptance_criteria", c).Some? ==> r["acceptance_criteria"] == CustomValue(ids, "acceptance_criteria", c).value)
      && (CustomValue(ids, "epic_name", c).Some? ==> r["epic_name"] == CustomValue(ids, "epic_name", c).value)
      && (CustomValue(ids, "parent_link", c).Some? ==> r["parent"] == CustomValue(ids, "parent_link", c).value)
      && (CustomValue(ids, "epic_link", c).Some? ==> r["epic_link"] == CustomValue(ids, "epic_link", c).value)
  {
  }

  /** The list layer's own values. */
  lemma ListLayerValues(m: Fields, f: IssueFields)
    ensures var r := ViewLists(m, f);
      (f.labels.Present? && f.labels.value != [] ==> r["labels"] == VList(StrList(f.labels.value)))
      && (f.components.Present? && f.components.value != [] ==> r["components"] == VList(NameList(f.components.value)))
  {
  }

  /** The three groups of optional keys and the base keys are pairwise apart. */
  lemma KeyGroupsApart(j: string)
    ensures j in VIEW_BASE_KEYS ==> j !in PEOPLE_KEYS && j !in CUSTOM_KEYS && j !in LIST_KEYS
    ensures j in PEOPLE_KEYS ==> j !in CUSTOM_KEYS && j !in LIST_KEYS
    ensures j in CUSTOM_KEYS ==> j !in LIST_KEYS
  {
  }

  /** The view holds exactly the base keys and the optional keys whose attribute is truthy. */
  lemma ViewKeys(issue: RemoteIssue, ids: FieldIds)
    requires View(issue, ids).Success?
    ensures View(issue, ids).value.Keys == VIEW_BASE_KEYS + ViewOptionalKeys(issue.fields, ids)
  {
    var f := issue.fields;
    ViewSuccess(issue, ids);
    var m0 := ViewBase(issue, StatusValue(f), TypeValue(f));
    var m1 := ViewPeople(m0, f);
    var m2 := ViewCustom(m1, f, ids);
    PeopleLayerKeys(m0, f);
    CustomLayerKeys(m1, f, ids);
    ListLayerKeys(m2, f);
  }

  /** Only "summary", "status" and "type" can be null; an optional key is present only with a value. */
  lemma ViewNeverNull(issue: RemoteIssue, ids: FieldIds, k: string)
    requires View(issue, ids).Success?
    requires k in View(issue, ids).value && k !in VIEW_NULLABLE_KEYS
    ensures View(issue, ids).value[k] != VNone
  {
    var f := issue.fields;
    ViewSuccess(issue, ids);
    var m0 := ViewBase(issue, StatusValue(f), TypeValue(f));
    var m1 := ViewPeople(m0, f);
    var m2 := ViewCustom(m1, f, ids);
    PeopleLayerNonNull(m0, f);
    CustomLayerNonNull(m1, f, ids);
    ListLayerNonNull(m2, f);
  }

  /** The identity, the summary and the description as the issue has them. */
  lemma ViewCommon(issue: RemoteIssue, ids: FieldIds)
    requires View(issue, ids).Success?
    ensures var v := View(issue, ids).value;
      "key" in v && v["key"] == VStr(issue.ref.key) && "id" in v && v["id"] == VStr(issue.ref.id) && "self" in v && v["self"] == VStr(issue.ref.self)
      && "summary" in v && v["summary"] == TextOrNull(issue.fields.summary)
      && "description" in v && v["description"] == VStr(DescriptionText(issue.fields.description))
  {
    ViewBaseKept(issue, ids, "key");
    ViewBaseKept(issue, ids, "id");
    ViewBaseKept(issue, ids, "self");
    ViewBaseKept(issue, ids, "summary");
    ViewBaseKept(issue, ids, "description");
  }

  /** The status and type names, null when the attribute is absent. */
  lemma ViewStatusType(issue: RemoteIssue, ids: FieldIds)
    requires View(issue, ids).Success?
    ensures var v := View(issue, ids).value;
      "status" in v && v["status"] == (if issue.fields.status.Present? then VStr(issue.fields.status.value.name) else VNone)
      && "type" in v && v["type"] == (if issue.fields.issuetype.Present? then VStr(issue.fields.issuetype.value.name) else VNone)
  {
    ViewBaseKept(issue, ids, "status");
    ViewBaseKept(issue, ids, "type");
  }

  /** A base key keeps the value the base object gave it. */
  lemma ViewBaseKept(issue: RemoteIssue, ids: FieldIds, j: string)
    requires View(issue, ids).Success? && j in VIEW_BASE_KEYS
    ensures var f := issue.fields;
      j in View(issue, ids).value && View(issue, ids).value[j] == ViewBase(issue, StatusValue(f), TypeValue(f))[j]
  {
    var f := issue.fields;
    ViewSuccess(issue, ids);
    var m0 := ViewBase(issue, StatusValue(f), TypeValue(f));
    var m1 := ViewPeople(m0, f);
    var m2 := ViewCustom(m1, f, ids);
    KeyGroupsApart(j);
    PeopleLayerKeeps(m0, f, j);
    CustomLayerKeeps(m1, f, ids, j);
    ListLayerKeeps(m2, f, j);
  }

  /** Each optional attribute, when present and truthy, is reported with its value. */
  lemma ViewOptional(issue: RemoteIssue, ids: FieldIds)
    requires View(issue, ids).Success?
    ensures var v, f := View(issue, ids).value, issue.fields;
      (f.assignee.Present? ==> "assignee" in v && v["assignee"] == VStr(f.assignee.value.displayName))
      && (f.reporter.Present? ==> "reporter" in v && v["reporter"] == VStr(f.reporter.value.displayName))
      && (f.priority.Present? ==> "priority" in v && v["priority"] == VStr(f.priority.value.name))
      && (f.security.Present? ==> "security" in v && v["security"] == SecurityObject(f.security))
      && (f.labels.Present? && f.labels.value != [] ==> "labels" in v && v["labels"] == VList(StrList(f.labels.value)))
      && (f.components.Present? && f.components.value != [] ==> "components" in v && v["components"] == VList(NameList(f.components.value)))
  {
    var f := issue.fields;
    ViewSuccess(issue, ids);
    var m0 := ViewBase(issue, StatusValue(f), TypeValue(f));
    var m1 := ViewPeople(m0, f);
    var m2 := ViewCustom(m1, f, ids);
    PeopleLayerValues(m0, f);
    PeopleLayerKeys(m0, f);
    ListLayerValues(m2, f);
    forall j | j in PEOPLE_KEYS && j in m1
      ensures j in ViewLists(m2, f) && ViewLists(m2, f)[j] == m1[j]
    {
      KeyGroupsApart(j);
      CustomLayerKeeps(m1, f, ids, j);
      ListLayerKeeps(m2, f, j);
    }
  }

  /** A mapped custom field is reported under its logical name ("parent" for parent_link) when truthy. */
  lemma ViewCustomFields(issue: RemoteIssue, ids: FieldIds)
    requires View(issue, ids).Success?
    ensures var v, c := View(issue, ids).value, issue.fields.custom;
      (CustomValue(ids, "acceptance_criteria", c).Some? ==> "acceptance_criteria" in v && v["acceptance_criteria"] == CustomValue(ids, "acceptance_criteria", c).value)
      && (CustomValue(ids, "epic_name", c).Some? ==> "epic_name" in v && v["epic_name"] == CustomValue(ids, "epic_name", c).value)
      && (CustomValue(ids, "parent_link", c).Some? ==> "parent" in v && v["parent"] == CustomValue(ids, "parent_link", c).value)
      && (CustomValue(ids, "epic_link", c).Some? ==> "epic_link" in v && v["epic_link"] == CustomValue(ids, "epic_link", c).value)
  {
    var f := issue.fields;
    ViewSuccess(issue, ids);
    var m0 := ViewBase(issue, StatusValue(f), TypeValue(f));
    var m1 := ViewPeople(m0, f);
    var m2 := ViewCustom(m1, f, ids);
    CustomLayerValues(m1, f, ids);
    CustomLayerKeys(m1, f, ids);
    forall j | j in CUSTOM_KEYS && j in m2
      ensures j in ViewLists(m2, f) && ViewLists(m2, f)[j] == m2[j]
    {
      KeyGroupsApart(j);
      ListLayerKeeps(m2, f, j);
    }
  }

  // ---------------------------------------------------------------------------
  // search_issues

  /** The field selection search_issues sends when none is given. */
  const SEARCH_DEFAULT_FIELDS := "summary,status,issuetype,assignee"

  /**
   * One search result: key and summary (reading `issue.fields.summary` raises
   * when the attribute is absent), then status, type, assignee and priority
   * each only when present and truthy.
   */
  function SearchItem(issue: RemoteIssue): (r: Result<Fields, Error>)
    ensures r.Failure? <==> issue.fields.summary.Absent?
    ensures r.Failure? ==> r.error == MissingAttribute("summary")
  {
    var f := issue.fields;
    if f.summary.Absent? then Failure(MissingAttribute("summary"))
    else
      var m0 := map["key" := VStr(issue.ref.key), "summary" := TextOrNull(f.summary)];
      var m1 := Put(m0, f.status.Present?, "status", if f.status.Present? then VStr(f.status.value.name) else VNone);
      var m2 := Put(m1, f.issuetype.Present?, "type", if f.issuetype.Present? then VStr(f.issuetype.value.name) else VNone);
      var m3 := Put(m2, f.assignee.Present?, "assignee", if f.assignee.Present? then VStr(f.assignee.value.displayName) else VNone);
      Success(Put(m3, f.priority.Present?, "priority", if f.priority.Present? then VStr(f.priority.value.name) else VNone))
  }

  /** A search result holds key and summary, and each optional key exactly when its attribute is truthy. */
  lemma SearchItemKeys(issue: RemoteIssue)
    requires SearchItem(issue).Success?
    ensures var f := issue.fields;
      SearchItem(issue).value.Keys == {"key", "summary"}
        + (if f.status.Present? then {"status"} else {})
        + (if f.issuetype.Present? then {"type"} else {})
        + (if f.assignee.Present? then {"assignee"} else {})
        + (if f.priority.Present? then {"priority"} else {})
  {
  }

  /** The values of a search result are the issue's own; only the summary can be null. */
  lemma SearchItemValues(issue: RemoteIssue)
    requires SearchItem(issue).Success?
    ensures var v, f := SearchItem(issue).value, issue.fields;
      "key" in v && v["key"] == VStr(issue.ref.key) && "summary" in v && v["summary"] == TextOrNull(f.summary)
      && (f.status.Present? ==> "status" in v && v["status"] == VStr(f.status.value.name))
      && (f.issuetype.Present? ==> "type" in v && v["type"] == VStr(f.issuetype.value.name))
      && (f.assignee.Present? ==> "assignee" in v && v["assignee"] == VStr(f.assignee.value.displayName))
      && (f.priority.Present? ==> "priority" in v && v["priority"] == VStr(f.priority.value.name))
      && (forall k :: k in v && k != "summary" ==> v[k] != VNone)
  {
  }

  /** The results of a search, one per hit and in the order of the hits; the first bad hit raises. */
  function SearchItems(hits: seq<RemoteIssue>): (r: Result<seq<Value>, Error>)
    ensures r.Failure? <==> exists i :: 0 <= i < |hits| && hits[i].fields.summary.Absent?
    ensures r.Failure? ==> r.error == MissingAttribute("summary")
    ensures r.Success? ==> |r.value| == |hits|
    ensures r.Success? ==> forall i :: 0 <= i < |hits| ==> r.value[i] == VMap(SearchItem(hits[i]).value)
    decreases |hits|
  {
    if hits == [] then Success([])
    else
      var init :- SearchItems(hits[..|hits| - 1]);
      var item :- SearchItem(hits[|hits| - 1]);
      Success(init + [VMap(item)])
  }

  /** `{"total": len(results), "issues": results}` */
  function SearchListing(hits: seq<RemoteIssue>): (r: Result<Fields, Error>)
    ensures r.Success? ==> r.value.Keys == {"total", "issues"}
    ensures r.Success? ==> r.value["total"] == VInt(|hits|)
    ensures r.Success? ==> r.value["issues"].VList? && |r.value["issues"].items| == |hits|
    ensures r.Success? ==> forall i :: 0 <= i < |hits| ==>
      SearchItem(hits[i]).Success? && r.value["issues"].items[i] == VMap(SearchItem(hits[i]).value)
    ensures r.Failure? <==> exists i :: 0 <= i < |hits| && hits[i].fields.summary.Absent?
  {
    var items :- SearchItems(hits);
    Success(map["total" := VInt(|items|), "issues" := VList(items)])
  }

  /** A hit without a summary makes the whole search fail. */
  lemma SearchFailsAt(hits: seq<RemoteIssue>, i: int)
    requires 0 <= i < |hits| && hits[i].fields.summary.Absent?
    ensures SearchListing(hits) == Failure(MissingAttribute("summary"))
  {
    assert SearchItems(hits).Failure?;
  }

  /** Extending the hits by one good hit extends the results by its item. */
  lemma SearchItemsSnoc(hits: seq<RemoteIssue>, i: int)
    requires 0 <= i < |hits| && SearchItems(hits[..i]).Success? && SearchItem(hits[i]).Success?
    ensures SearchItems(hits[..i + 1]) == Success(SearchItems(hits[..i]).value + [VMap(SearchItem(hits[i]).value)])
  {
    assert hits[..i + 1][..i] == hits[..i];
  }

  /** One search result built in place. */
  method BuildSearchItem(issue: RemoteIssue) returns (r: Result<Fields, Error>)
    ensures r == SearchItem(issue)
  {
    var f := issue.fields;
    if f.summary.Absent? {
      return Failure(MissingAttribute("summary"));
    }
    var item := map["key" := VStr(issue.ref.key), "summary" := TextOrNull(f.summary)];
    ghost var m := item;
    if f.status.Present? {
      item := item["status" := VStr(f.status.value.name)];
    }
    PutStep(m, item, f.status.Present?, "status", if f.status.Present? then VStr(f.status.value.name) else VNone);
    m := item;
    if f.issuetype.Present? {
      item := item["type" := VStr(f.issuetype.value.name)];
    }
    PutStep(m, item, f.issuetype.Present?, "type", if f.issuetype.Present? then VStr(f.issuetype.value.name) else VNone);
    m := item;
    if f.assignee.Present? {
      item := item["assignee" := VStr(f.assignee.value.displayName)];
    }
    PutStep(m, item, f.assignee.Present?, "assignee", if f.assignee.Present? then VStr(f.assignee.value.displayName) else VNone);
    m := item;
    if f.priority.Present? {
      item := item["priority" := VStr(f.priority.value.name)];
    }
    PutStep(m, item, f.priority.Present?, "priority", if f.priority.Present? then VStr(f.priority.value.name) else VNone);
    r := Success(item);
  }

  /**
   * `search_issues`: one query (with the default field selection when none
   * is given), then one result per hit in order; a rejected query passes the
   * tracker's error up. Searching never writes.
   */
  method SearchIssues(jira: Tracker, jql: string, fieldList: Option<string>, maxResults: int)
    returns (r: Result<Fields, Error>)
    modifies jira
    ensures jira.log == old(jira.log)
      + [SearchRequest(jql, maxResults, if Given(fieldList) then fieldList.value else SEARCH_DEFAULT_FIELDS)]
    ensures jira.searchAnswer.Failure? ==> r == Failure(jira.searchAnswer.error)
    ensures jira.searchAnswer.Success? ==> r == SearchListing(jira.searchAnswer.value)
    ensures WriteCount(jira.log) == WriteCount(old(jira.log))
  {
    var selection := if Given(fieldList) then fieldList.value else SEARCH_DEFAULT_FIELDS;
    var answer := jira.SearchIssues(jql, maxResults, selection);
    WriteCountAppend(old(jira.log), [SearchRequest(jql, maxResults, selection)]);
    if answer.Failure? {
      return Failure(answer.error);
    }
    var hits := answer.value;
    var results: seq<Value> := [];
    var i := 0;
    while i < |hits|
      invariant 0 <= i <= |hits|
      invariant SearchItems(hits[..i]) == Success(results)
      invariant jira.log == old(jira.log) + [SearchRequest(jql, maxResults, selection)]
    {
      var item := BuildSearchItem(hits[i]);
      if item.Failure? {
        SearchFailsAt(hits, i);
        return Failure(item.error);
      }
      SearchItemsSnoc(hits, i);
      results := results + [VMap(item.value)];
      i := i + 1;
    }
    assert hits[..i] == hits;
    r := Success(map["total" := VInt(|results|), "issues" := VList(results)]);
  }

  // ---------------------------------------------------------------------------
  // get_fields

  /**
   * The fields of the first issue type of the first project of a create
   * metadata answer (`{}` when that issue type has none); None when
   * createmeta raised, answered nothing, or has no project or no issue type.
   */
  function AvailableFields(meta: Result<Option<CreateMeta>, Error>): (r: Option<map<string, FieldMeta>>)
    ensures r.Some? <==>
      meta.Success? && meta.value.Some?
      && meta.value.value.projects.Some? && |meta.value.value.projects.value| > 0
      && meta.value.value.projects.value[0].issuetypes.Some? && |meta.value.value.projects.value[0].issuetypes.value| > 0
    ensures r.Some? ==> r.value == meta.value.value.projects.value[0].issuetypes.value[0].fields.GetOr(map[])
  {
    match meta
    case Failure(_) => None
    case Success(answer) =>
      if answer.None? || answer.value.projects.None? || |answer.value.projects.value| == 0 then None
      else
        var project := answer.value.projects.value[0];
        if project.issuetypes.None? || |project.issuetypes.value| == 0 then None
        else Some(project.issuetypes.value[0].fields.GetOr(map[]))
  }

  /** Whether the create metadata describes the field with this id. */
  predicate Described(available: Option<map<string, FieldMeta>>, id: string) {
    available.Some? && id in available.value
  }

  /**
   * One entry of the field listing: id, name, `custom` (false when not sent)
   * and `schema` ({} when not sent), and `required` (false) and `operations`
   * ([]) when the create metadata describes the field.
   */
  function FieldInfo(def: FieldDef, available: Option<map<string, FieldMeta>>): Fields {
    var info := map[
      "id" := VStr(def.id), "name" := VStr(def.name),
      "custom" := def.custom.GetOr(VBool(false)), "schema" := def.schema.GetOr(VMap(map[]))];
    if Described(available, def.id) then
      var fieldMeta := available.value[def.id];
      info["required" := fieldMeta.required.GetOr(VBool(false))]["operations" := fieldMeta.operations.GetOr(VList([]))]
    else info
  }

  /** The keys of a field entry, the values the tracker sent, and the defaults for what it did not send. */
  lemma FieldInfoShape(def: FieldDef, available: Option<map<string, FieldMeta>>)
    ensures var m := FieldInfo(def, available);
      m.Keys == {"id", "name", "custom", "schema"} + (if Described(available, def.id) then {"required", "operations"} else {})
      && m["id"] == VStr(def.id) && m["name"] == VStr(def.name)
      && m["custom"] == (if def.custom.Some? then def.custom.value else VBool(false))
      && m["schema"] == (if def.schema.Some? then def.schema.value else VMap(map[]))
  {
  }

  /** With metadata for the field: its `required` (false when not sent) and `operations` ([] when not sent). */
  lemma FieldInfoMeta(def: FieldDef, available: Option<map<string, FieldMeta>>)
    requires Described(available, def.id)
    ensures var m, fm := FieldInfo(def, available), available.value[def.id];
      "required" in m && m["required"] == (if fm.required.Some? then fm.required.value else VBool(false))
      && "operations" in m && m["operations"] == (if fm.operations.Some? then fm.operations.value else VList([]))
  {
  }

  /** `{"total": len(fields), "fields": fields}`, one entry per field in the tracker's order. */
  function FieldsListing(defs: seq<FieldDef>, available: Option<map<string, FieldMeta>>): (r: Fields)
    ensures r.Keys == {"total", "fields"}
    ensures r["total"] == VInt(|defs|)
    ensures r["fields"].VList? && |r["fields"].items| == |defs|
    ensures forall i :: 0 <= i < |defs| ==> r["fields"].items[i] == VMap(FieldInfo(defs[i], available))
  {
    map["total" := VInt(|defs|), "fields" := VList(seq(|defs|, i requires 0 <= i < |defs| => VMap(FieldInfo(defs[i], available))))]
  }

  /** A failed or empty createmeta answer gives the same listing as asking for no project at all. */
  lemma FieldsWithoutMetadata(defs: seq<FieldDef>, meta: Result<Option<CreateMeta>, Error>)
    requires meta.Failure? || meta.value.None?
    ensures FieldsListing(defs, AvailableFields(meta)) == FieldsListing(defs, None)
  {
  }

  /**
   * `get_fields`: list every field; createmeta is asked only when a project
   * key is given, and its failure is swallowed; a failure of the field list
   * itself is passed up before createmeta is asked. Listing fields never writes.
   */
  method GetFields(jira: Tracker, projectKey: Option<string>, issueType: Option<string>) returns (r: Result<Fields, Error>)
    modifies jira
    ensures jira.fieldsAnswer.Failure? ==> r == Failure(jira.fieldsAnswer.error) && jira.log == old(jira.log) + [FieldsRequest]
    ensures jira.fieldsAnswer.Success? ==>
      jira.log == old(jira.log) + [FieldsRequest]
        + (if Given(projectKey) then [CreateMetaRequest(projectKey.value, issueType)] else [])
    ensures jira.fieldsAnswer.Success? ==>
      r == Success(FieldsListing(jira.fieldsAnswer.value, if Given(projectKey) then AvailableFields(jira.meta) else None))
    ensures WriteCount(jira.log) == WriteCount(old(jira.log))
  {
    var answer := jira.Fields();
    WriteCountAppend(old(jira.log), [FieldsRequest]);
    if answer.Failure? {
      return Failure(answer.error);
    }
    var allFields := answer.value;
    var available: Option<map<string, FieldMeta>> := None;
    if Given(projectKey) {
      ghost var before := jira.log;
      var meta := jira.Createmeta(projectKey.value, issueType);
      WriteCountAppend(before, [CreateMetaRequest(projectKey.value, issueType)]);
      if meta.Success? && meta.value.Some? {
        var answer := meta.value.value;
        if answer.projects.Some? && |answer.projects.value| > 0 {
          var project := answer.projects.value[0];
          if project.issuetypes.Some? && |project.issuetypes.value| > 0 {
            available := Some(project.issuetypes.value[0].fields.GetOr(map[]));
          }
        }
      }
    }
    var fields: seq<Value> := [];
    var i := 0;
    while i < |allFields|
      invariant 0 <= i <= |allFields|
      invariant |fields| == i
      invariant forall j :: 0 <= j < i ==> fields[j] == VMap(FieldInfo(allFields[j], available))
    {
      var field := allFields[i];
      var fieldInfo := map[
        "id" := VStr(field.id), "name" := VStr(field.name),
        "custom" := field.custom.GetOr(VBool(false)), "schema" := field.schema.GetOr(VMap(map[]))];
      if available.Some? && field.id in available.value {
        var fieldMeta := available.value[field.id];
        fieldInfo := fieldInfo["required" := fieldMeta.required.GetOr(VBool(false))];
        fieldInfo := fieldInfo["operations" := fieldMeta.operations.GetOr(VList([]))];
      }
      fields := fields + [VMap(fieldInfo)];
      i := i + 1;
    }
    var listing := map["total" := VInt(|fields|), "fields" := VList(fields)];
    assert listing["fields"].items == FieldsListing(allFields, available)["fields"].items;
    r := Success(listing);
  }

  // ---------------------------------------------------------------------------
  // call_api

  /** An endpoint with a leading "/" added when it lacks one. */
  function NormalizeEndpoint(endpoint: string): (r: string)
    ensures |r| > 0 && r[0] == '/'
    ensures r == endpoint || r == "/" + endpoint
    ensures r == endpoint <==> |endpoint| > 0 && endpoint[0] == '/'
  {
    if |endpoint| > 0 && endpoint[0] == '/' then endpoint else "/" + endpoint
  }

  /** Normalising an endpoint twice is normalising it once. */
  lemma NormalizeEndpointIdempotent(endpoint: string)
    ensures NormalizeEndpoint(NormalizeEndpoint(endpoint)) == NormalizeEndpoint(endpoint)
  {
  }

  /** A tracker-relative path gains its slash; one that already has it is kept. */
  lemma NormalizeEndpointExample()
    ensures NormalizeEndpoint("rest/api/2/issue/X-1") == "/rest/api/2/issue/X-1"
    ensures NormalizeEndpoint("/rest/api/2/myself") == "/rest/api/2/myself"
  {
    assert "rest/api/2/issue/X-1"[0] == 'r';
    assert "/rest/api/2/myself"[0] == '/';
  }

  /** The upper-case name of an HTTP method call_api accepts. */
  function VerbName(v: Verb): string {
    match v
    case Get => "GET"
    case Post => "POST"
    case Put => "PUT"
    case Delete => "DELETE"
  }

  /** `method.upper()` matched against GET, POST, PUT and DELETE; anything else is rejected. */
  function ParseVerb(httpMethod: string): (r: Result<Verb, Error>)
    ensures r.Success? ==> VerbName(r.value) == Upper(httpMethod)
    ensures r.Failure? ==> (r.error == UnsupportedMethod(Upper(httpMethod))
      && forall v :: VerbName(v) != Upper(httpMethod))
  {
    var name := Upper(httpMethod);
    if name == "GET" then Success(Verb.Get)
    else if name == "POST" then Success(Post)
    else if name == "PUT" then Success(Verb.Put)
    else if name == "DELETE" then Success(Delete)
    else Failure(UnsupportedMethod(name))
  }

  /** Every accepted method parses back from its own name. */
  lemma ParseVerbName(v: Verb)
    ensures ParseVerb(VerbName(v)) == Success(v)
  {
    UpperFixed(VerbName(v));
  }

  /** The method name is matched whatever its letter case: "get" is GET. */
  lemma ParseVerbIgnoresCase(httpMethod: string)
    ensures ParseVerb(Lower(httpMethod)) == ParseVerb(httpMethod)
  {
    UpperOfLower(httpMethod);
  }

  /** The JSON body sent: the data for POST and PUT, none for GET and DELETE. */
  function RequestBody(v: Verb, data: Option<Value>): (body: Option<Value>)
    ensures body.Some? ==> (v == Post || v == Verb.Put) && body == data
    ensures (v == Post || v == Verb.Put) ==> body == data
  {
    if v == Post || v == Verb.Put then data else None
  }

  /**
   * What call_api returns for a response: a 4xx or 5xx status raises; else
   * the JSON body, or the status and text when the body is not JSON.
   */
  function ResponseValue(resp: HttpResponse): (r: Result<Value, Error>)
    ensures r.Failure? <==> 400 <= resp.status < 600
    ensures r.Failure? ==> r.error == HttpError(resp.status, resp.text)
    ensures r.Success? && resp.json.Some? ==> r.value == resp.json.value
    ensures r.Success? && resp.json.None? ==>
      r.value == VMap(map["status_code" := VInt(resp.status), "text" := VStr(resp.text)])
  {
    if 400 <= resp.status < 600 then Failure(HttpError(resp.status, resp.text))
    else if resp.json.Some? then Success(resp.json.value)
    else Success(VMap(map["status_code" := VInt(resp.status), "text" := VStr(resp.text)]))
  }

  /**
   * `call_api`: one request to the server URL joined with the normalised
   * endpoint, or none at all when the method is not supported.
   */
  method CallApi(jira: Tracker, httpMethod: string, endpoint: string, data: Option<Value>) returns (r: Result<Value, Error>)
    modifies jira
    ensures ParseVerb(httpMethod).Failure? ==>
      r == Failure(UnsupportedMethod(Upper(httpMethod))) && jira.log == old(jira.log)
    ensures ParseVerb(httpMethod).Success? ==>
      var v := ParseVerb(httpMethod).value;
      jira.log == old(jira.log) + [HttpRequest(v, jira.server + NormalizeEndpoint(endpoint), RequestBody(v, data))]
      && r == ResponseValue(jira.response)
    ensures Upper(httpMethod) == "GET" ==> WriteCount(jira.log) == WriteCount(old(jira.log))
  {
    var path := endpoint;
    if !(|path| > 0 && path[0] == '/') {
      path := "/" + path;
    }
    var url := jira.server + path;
    // The GET / POST / PUT / DELETE chain on the upper-cased name; POST and PUT carry the data.
    var verb := ParseVerb(httpMethod);
    if verb.Failure? {
      return Failure(verb.error);
    }
    var response := jira.Send(verb.value, url, RequestBody(verb.value, data));
    WriteCountAppend(old(jira.log), [HttpRequest(verb.value, url, RequestBody(verb.value, data))]);
    if 400 <= response.status < 600 {
      return Failure(HttpError(response.status, response.text));
    }
    match response.json {
      case Some(body) => r := Success(body);
      case None => r := Success(VMap(map["status_code" := VInt(response.status), "text" := VStr(response.text)]));
    }
  }
}
