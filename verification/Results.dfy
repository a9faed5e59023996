/** Execution results: JSON values as they arrive from agents and servers, and which of them
    `finalize_task` can write. */
module Results {

  /** A character of a JSON text. An unpaired surrogate escape is legal JSON, but cannot be
      encoded as UTF-8. */
  datatype Char = Scalar(c: char) | LoneSurrogate

  type Text = seq<Char>

  function Literal(s: string): Text {
    seq(|s|, i requires 0 <= i < |s| => Scalar(s[i]))
  }

  /** The keys that are looked up, and all others. */
  datatype Key = SuccessKey | OutputKey | ErrorKey | RoleKey | OtherKey(name: Text)

  datatype Value =
    | Null
    | Bool(b: bool)
    | Int(n: int)
    | Float(r: real)
    | String(text: Text)
    | List(items: seq<Value>)
    | Object(fields: map<Key, Value>)

  type JsonObject = v: Value | v.Object? witness Object(map[])

  /** `d.get(key, default)`. */
  function Get(d: JsonObject, key: Key, default: Value): Value {
    if key in d.fields then d.fields[key] else default
  }

  predicate Truthy(v: Value) {
    match v
    case Null => false
    case Bool(b) => b
    case Int(n) => n != 0
    case Float(r) => r != 0.0
    case String(text) => text != []
    case List(items) => items != []
    case Object(fields) => fields != map[]
  }

  predicate CleanText(text: Text) {
    forall i | 0 <= i < |text| :: text[i].Scalar?
  }

  /** `json.dumps(v, ensure_ascii=False)` is text that can be encoded as UTF-8. */
  predicate Clean(v: Value) {
    match v
    case String(text) => CleanText(text)
    case List(items) => forall i | 0 <= i < |items| :: Clean(items[i])
    case Object(fields) => forall k | k in fields :: (k.OtherKey? ==> CleanText(k.name)) && Clean(fields[k])
    case _ => true
  }

  const INT_LIMIT: int := 0x8000_0000_0000_0000

  /** SQLite takes the value as a parameter. A null is left out of the statement. */
  predicate Binds(v: Value) {
    match v
    case Int(n) => -INT_LIMIT <= n < INT_LIMIT
    case String(text) => CleanText(text)
    case List(_) => false
    case Object(_) => false
    case _ => true
  }

  /** What `finalize_task` is called with: a result and the role for the task row. */
  datatype Outcome = Outcome(result: Value, role: Value) {
    predicate Success() {
      result.Object? && Truthy(Get(result, SuccessKey, Null))
    }

    /** The task row can be written. A success stores the whole result and the role, a
        failure only its error. */
    predicate Storable() {
      && result.Object?
      && if Success() then Clean(result) && Binds(role)
         else Binds(Get(result, ErrorKey, String(Literal("Unknown"))))
    }

    /** The reply row can be written. It holds the whole result. */
    predicate Encodable() {
      result.Object? && Clean(result)
    }
  }

  // ---- from an agent or a server to finalize_task ------------------------------------------------

  /** How a local agent's `run` ends. */
  datatype AgentRun = Raises(message: Text) | Returns(result: Value)

  function Failure(message: Text): JsonObject {
    Object(map[SuccessKey := Bool(false), OutputKey := String([]), ErrorKey := String(message)])
  }

  /** `run_task_locally` around `agent.run`: reading `success` from a result that is not an
      object raises, too. */
  function LocalOutcome(run: AgentRun, role: Value): Outcome {
    match run
    case Raises(message) => Outcome(Failure(message), Null)
    case Returns(result) =>
      if result.Object? then Outcome(result, role) else Outcome(Failure(Literal("no attribute 'get'")), Null)
  }

  /** `forward_task` after its future: the result's own role wins. */
  function RemoteOutcome(result: Value, role: Value): Outcome {
    var own := if result.Object? then Get(result, RoleKey, Null) else Null;
    Outcome(result, if Truthy(own) then own else role)
  }

  /** Reading the role raises: the value is neither an object nor falsy. */
  predicate KillsForward(result: Value) {
    Truthy(result) && !result.Object?
  }

  // ---- ordinary results ----------------------------------------------------------------------------

  /** Objects without unpaired surrogates whose `error` and `role`, if present, are null, a
      boolean, a number in range, or text. */
  predicate Ordinary(result: Value) {
    && result.Object? && Clean(result)
    && Binds(Get(result, ErrorKey, Null)) && Binds(Get(result, RoleKey, Null))
  }

  /** Ordinary results can always be written, and never kill a forward. */
  lemma OrdinaryIsWritten(result: Value, role: Value)
    requires Ordinary(result) && Binds(role)
    ensures RemoteOutcome(result, role).Storable() && RemoteOutcome(result, role).Encodable()
    ensures LocalOutcome(Returns(result), role).Storable() && LocalOutcome(Returns(result), role).Encodable()
    ensures !KillsForward(result)
  {
  }

  lemma FailureIsWritten(message: Text)
    requires CleanText(message)
    ensures Outcome(Failure(message), Null).Storable() && Outcome(Failure(message), Null).Encodable()
  {
    var v := Failure(message);
    assert Get(v, SuccessKey, Null) == Bool(false) && Get(v, ErrorKey, Null) == String(message);
    forall k | k in v.fields ensures !k.OtherKey? && Clean(v.fields[k]) {
    }
  }

  /** A failure with a message that cannot be encoded can neither be stored nor replied. */
  lemma FailureIsNotWritten(message: Text)
    requires !CleanText(message)
    ensures !Outcome(Failure(message), Null).Storable() && !Outcome(Failure(message), Null).Encodable()
  {
    var v := Failure(message);
    assert Get(v, SuccessKey, Null) == Bool(false) && Get(v, ErrorKey, Null) == String(message);
    assert ErrorKey in v.fields && !Clean(v.fields[ErrorKey]);
  }

  /** A success that can be encoded is stored if the role can be bound: the context's, unless the
      result comes from a server and has one of its own. */
  lemma RoleDecides(result: JsonObject, role: Value)
    requires Clean(result) && Truthy(Get(result, SuccessKey, Null))
    ensures LocalOutcome(Returns(result), role).Storable() <==> Binds(role)
    ensures RemoteOutcome(result, role).Storable()
            <==> Binds(if Truthy(Get(result, RoleKey, Null)) then Get(result, RoleKey, Null) else role)
    ensures LocalOutcome(Returns(result), role).Encodable() && RemoteOutcome(result, role).Encodable()
  {
  }

  // ---- which results fail --------------------------------------------------------------------------

  /** Falsy values that are not objects reach `finalize_task` and fail both writes; truthy ones
      kill the forward. */
  lemma NotAnObject(result: Value, role: Value)
    requires !result.Object?
    ensures !RemoteOutcome(result, role).Storable() && !RemoteOutcome(result, role).Encodable()
    ensures KillsForward(result) <==> Truthy(result)
  {
  }

  /** A success whose role cannot be bound: the reply is written, the task row is not. */
  const ODD_ROLE: JsonObject :=
    Object(map[SuccessKey := Bool(true), OutputKey := String(Literal("x")), RoleKey := List([String(Literal("a"))])])

  /** A failure whose error cannot be bound. */
  const ODD_ERROR: JsonObject := Object(map[SuccessKey := Bool(false), ErrorKey := List([])])

  /** A success with an unpaired surrogate in its output: neither write succeeds. */
  const ODD_OUTPUT: JsonObject := Object(map[SuccessKey := Bool(true), OutputKey := String([LoneSurrogate])])

  lemma OddRole(role: Value)
    ensures RemoteOutcome(ODD_ROLE, role).Encodable() && !RemoteOutcome(ODD_ROLE, role).Storable()
    ensures RemoteOutcome(ODD_ROLE, role).Success()
  {
    assert Clean(List([String(Literal("a"))]));
  }

  lemma OddError(role: Value)
    ensures RemoteOutcome(ODD_ERROR, role).Encodable() && !RemoteOutcome(ODD_ERROR, role).Storable()
  {
  }

  lemma OddOutput(role: Value)
    ensures !RemoteOutcome(ODD_OUTPUT, role).Encodable() && !RemoteOutcome(ODD_OUTPUT, role).Storable()
  {
    var output := ODD_OUTPUT.fields[OutputKey];
    assert output == String([LoneSurrogate]) && !output.text[0].Scalar?;
    assert OutputKey in ODD_OUTPUT.fields && !Clean(ODD_OUTPUT.fields[OutputKey]);
  }
}
