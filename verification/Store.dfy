/** Rows of the `tasks` and `messages` tables and the queries made on them. */
module Store {
  import opened Wrappers
  import opened Results

  // Identifiers are only ever compared for equality.
  type TaskId = int

  type ScenarioId = int

  // ---- server ids -----------------------------------------------------------------

  /** A server id as a key of a table: numbers and booleans are compared by value. */
  datatype ServerId = TextId(text: Text) | NumberId(r: real) {
    /** Register frames with an empty id are refused. */
    predicate Named() { this != TextId([]) && this != NumberId(0.0) }
  }

  predicate Hashable(v: Value) {
    !v.List? && !v.Object?
  }

  function KeyOf(v: Value): ServerId
    requires Truthy(v) && Hashable(v)
  {
    match v
    case Bool(b) => NumberId(if b then 1.0 else 0.0)
    case Int(n) => NumberId(n as real)
    case Float(r) => NumberId(r)
    case String(text) => TextId(text)
  }

  /** Numbers and booleans as numbers. */
  function NumberOf(v: Value): Option<real> {
    match v
    case Bool(b) => Some(if b then 1.0 else 0.0)
    case Int(n) => Some(n as real)
    case Float(r) => Some(r)
    case _ => None
  }

  /** Two server ids are the same key exactly when they are the same text or equal numbers; a text
      is never a number. */
  lemma SameKey(a: Value, b: Value)
    requires Truthy(a) && Hashable(a) && Truthy(b) && Hashable(b)
    ensures KeyOf(a) == KeyOf(b)
            <==> (a.String? && b.String? && a.text == b.text)
                 || (NumberOf(a).Some? && NumberOf(a) == NumberOf(b))
    ensures a.String? ==> KeyOf(a) == TextId(a.text)
    ensures KeyOf(a).Named()
  {
  }

  /** Looking up such a server raises. */
  predicate Unroutable(server: Value) {
    Truthy(server) && !Hashable(server)
  }

  datatype TaskState = Pending | Running | Waiting | Success | Failed | Timeout | Cancelled {
    predicate Terminal() {
      Success? || Failed? || Timeout? || Cancelled?
    }
  }

  type TaskTable = map<TaskId, TaskState>

  datatype Upstream = Upstream(results: map<int, JsonObject>, outputs: seq<Value>)

  /** The context of a dispatched task, `rest` being its other entries. A missing server or role
      is `Null`. */
  datatype Context = Context(server: Value, role: Value, upstream: Option<Upstream>, rest: Value)

  datatype TaskMessage = TaskMessage(taskId: TaskId, context: Context)

  // ---- what a dispatch row can hold -----------------------------------------------

  // Subtask names are only compared, but some contain an unpaired surrogate: the negative ones.
  predicate CleanName(lid: int) {
    lid >= 0
  }

  predicate CleanUpstream(u: Upstream) {
    && (forall d | d in u.results :: CleanName(d) && Clean(u.results[d]))
    && (forall i | 0 <= i < |u.outputs| :: Clean(u.outputs[i]))
  }

  /** The content of the dispatch row is text that can be encoded as UTF-8. */
  predicate CleanContext(c: Context) {
    && Clean(c.server) && Clean(c.role) && Clean(c.rest)
    && (c.upstream.Some? ==> CleanUpstream(c.upstream.value))
  }

  function TaskIds(msgs: seq<TaskMessage>): set<TaskId> {
    set m | m in msgs :: m.taskId
  }

  /** A row of the messages table. `parses` says whether its content is readable. */
  datatype Message =
    | Dispatch(scenario: ScenarioId, msg: TaskMessage, parses: bool, acked: bool)
    | Reply(scenario: ScenarioId, task: TaskId, result: JsonObject, parses: bool)

  // Rows are never deleted, so the row with id n is the element at index n - 1.
  type MessageTable = seq<Message>

  // ---- task rows ------------------------------------------------------------------

  /** `mark_as_started`, `mark_as_completed`, `mark_as_failed`: no row, no effect. */
  function Mark(tasks: TaskTable, t: TaskId, state: TaskState): TaskTable {
    if t in tasks then tasks[t := state] else tasks
  }

  // ---- dispatch rows --------------------------------------------------------------

  /** A row as read by a query, with its id. */
  datatype Record = Record(id: nat, row: Message)

  predicate Unacked(m: Message) {
    m.Dispatch? && !m.acked
  }

  /** `find_unacked_dispatch(limit)`, for the rows after the first k. */
  function FindUnacked(messages: MessageTable, k: nat, limit: nat): seq<Record>
    requires k <= |messages|
    decreases |messages| - k
  {
    if k == |messages| || limit == 0 then []
    else if Unacked(messages[k]) then
      [Record(k + 1, messages[k])] + FindUnacked(messages, k + 1, limit - 1)
    else FindUnacked(messages, k + 1, limit)
  }

  /** `ack_message(id)`. Acking a reply row would set its unused flag. */
  function AckRow(messages: MessageTable, id: nat): MessageTable {
    if 1 <= id <= |messages| && messages[id - 1].Dispatch?
    then messages[id - 1 := messages[id - 1].(acked := true)]
    else messages
  }

  ghost predicate SameButAck(a: Message, b: Message) {
    if a.Dispatch? then b.Dispatch? && b.(acked := a.acked) == a && (a.acked ==> b.acked) else a == b
  }

  /** `later` is the table `earlier` after some rows were acked and appended. */
  ghost predicate Extends(earlier: MessageTable, later: MessageTable) {
    && |earlier| <= |later|
    && (forall k | 0 <= k < |earlier| :: SameButAck(earlier[k], later[k]))
  }

  lemma ExtendsTransitive(a: MessageTable, b: MessageTable, c: MessageTable)
    requires Extends(a, b) && Extends(b, c)
    ensures Extends(a, c)
  {
    forall k | 0 <= k < |a| ensures SameButAck(a[k], c[k]) {
      assert SameButAck(a[k], b[k]) && SameButAck(b[k], c[k]);
    }
  }
}
