/**
 * The task form schemas as predicates over a raw form payload: the
 * create schema needs a non-empty title, the update schema makes every
 * field optional; status and priority are closed enumerations.
 */
module TaskSchema {
  /** A raw field of the submitted payload. */
  datatype Raw =
    | Missing
    | Str(s: string)
    | DateValue(valid: bool)   // a Date object; `valid` is false for an Invalid Date
    | OtherValue               // anything else: a number, a boolean, an object

  datatype TaskForm = TaskForm(title: Raw, description: Raw, status: Raw, priority: Raw, dueDate: Raw)

  const TaskStatuses: set<string> := {"PENDING", "COMPLETED"}
  const TaskPriorities: set<string> := {"LOW", "MEDIUM", "HIGH"}

  /** Which rule a field broke. */
  datatype Issue =
    | TitleTooShort          // "Task title is required"
    | WrongType(field: string)
    | NotInEnum(field: string)
    | InvalidDate

  /** The issues of an optional string field. */
  function StringIssues(field: string, v: Raw): seq<Issue> {
    if v.Missing? || v.Str? then [] else [WrongType(field)]
  }

  /** The issues of an optional enumeration field. */
  function EnumIssues(field: string, v: Raw, allowed: set<string>): seq<Issue> {
    if v.Missing? then []
    else if v.Str? && v.s in allowed then []
    else if v.Str? then [NotInEnum(field)]
    else [WrongType(field)]
  }

  /** The issues of an optional date field. */
  function DateIssues(v: Raw): seq<Issue> {
    match v
    case Missing => []
    case DateValue(valid) => if valid then [] else [InvalidDate]
    case _ => [WrongType("dueDate")]
  }

  /** The title's issues: a string of at least one character; `optional` also admits it missing. */
  function TitleIssues(v: Raw, optional: bool): seq<Issue> {
    if v.Missing? then (if optional then [] else [WrongType("title")])
    else if !v.Str? then [WrongType("title")]
    else if |v.s| < 1 then [TitleTooShort]
    else []
  }

  /** The issues the other four fields share between the two schemas. */
  function RestIssues(f: TaskForm): seq<Issue> {
    StringIssues("description", f.description)
    + EnumIssues("status", f.status, TaskStatuses)
    + EnumIssues("priority", f.priority, TaskPriorities)
    + DateIssues(f.dueDate)
  }

  /** `createTaskFormSchema`: what parsing a create payload complains about, field by field. */
  function CreateIssues(f: TaskForm): (issues: seq<Issue>)
    ensures issues == [] <==> CreateValid(f)
  {
    TitleIssues(f.title, false) + RestIssues(f)
  }

  /** `updateTaskFormSchema`: the same fields, every one optional. */
  function UpdateIssues(f: TaskForm): (issues: seq<Issue>)
    ensures issues == [] <==> UpdateValid(f)
  {
    TitleIssues(f.title, true) + RestIssues(f)
  }

  predicate OptionalString(v: Raw) { v.Missing? || v.Str? }
  predicate OptionalIn(v: Raw, allowed: set<string>) { v.Missing? || (v.Str? && v.s in allowed) }
  predicate OptionalDate(v: Raw) { v.Missing? || v == DateValue(true) }

  /** Independent statement of the create schema. */
  predicate CreateValid(f: TaskForm) {
    f.title.Str? && |f.title.s| >= 1
    && OptionalString(f.description)
    && OptionalIn(f.status, TaskStatuses)
    && OptionalIn(f.priority, TaskPriorities)
    && OptionalDate(f.dueDate)
  }

  /** Independent statement of the update schema. */
  predicate UpdateValid(f: TaskForm) {
    (f.title.Missing? || (f.title.Str? && |f.title.s| >= 1))
    && OptionalString(f.description)
    && OptionalIn(f.status, TaskStatuses)
    && OptionalIn(f.priority, TaskPriorities)
    && OptionalDate(f.dueDate)
  }

  // ---------------------------------------------------------------------------
  // Properties

  /** Every payload the create schema accepts, the update schema accepts. */
  lemma CreateImpliesUpdate(f: TaskForm)
    ensures CreateIssues(f) == [] ==> UpdateIssues(f) == []
  {
  }

  /** The two schemas differ only on a missing title. */
  lemma UpdateWithTitleIsCreate(f: TaskForm)
    requires !f.title.Missing?
    ensures UpdateIssues(f) == [] <==> CreateIssues(f) == []
  {
  }

  /** An empty title is reported with the schema's own message, under both schemas. */
  lemma EmptyTitleRejected(f: TaskForm)
    requires f.title == Str("")
    ensures TitleTooShort in CreateIssues(f) && TitleTooShort in UpdateIssues(f)
  {
  }

  /** Only the title is required to create: a payload with just a title passes. */
  lemma TitleAloneCreates(t: string)
    requires |t| >= 1
    ensures CreateIssues(TaskForm(Str(t), Missing, Missing, Missing, Missing)) == []
  {
  }

  /** An empty update payload passes; the same payload cannot create. */
  lemma EmptyPayloadUpdatesOnly()
    ensures UpdateIssues(TaskForm(Missing, Missing, Missing, Missing, Missing)) == []
    ensures CreateIssues(TaskForm(Missing, Missing, Missing, Missing, Missing)) == [WrongType("title")]
  {
  }

  /** Status and priority accept only their listed values. */
  lemma EnumsAreClosed(f: TaskForm)
    requires f.status.Str? && f.status.s !in TaskStatuses
    ensures NotInEnum("status") in CreateIssues(f) && NotInEnum("status") in UpdateIssues(f)
  {
    assert RestIssues(f) == StringIssues("description", f.description) + [NotInEnum("status")]
      + EnumIssues("priority", f.priority, TaskPriorities) + DateIssues(f.dueDate);
    var k := |TitleIssues(f.title, false)| + |StringIssues("description", f.description)|;
    assert CreateIssues(f)[k] == NotInEnum("status");
    var m := |TitleIssues(f.title, true)| + |StringIssues("description", f.description)|;
    assert UpdateIssues(f)[m] == NotInEnum("status");
  }
}
