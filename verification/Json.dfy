/** JSON values and the reserved authority names of the commerce tool gateway. */
module Json {

  /** A decoded JSON value. Object members are a map because Go's decoder keeps the last of two
      equal names. */
  datatype Value =
    | Null
    | Bool(flag: bool)
    | Num(number: real)
    | Str(text: string)
    | Arr(items: seq<Value>)
    | Obj(fields: map<string, Value>)

  const RESERVED_AUTHORITY_FIELDS: seq<string> := [
    "tenant_id", "user_id", "roles", "permission", "call_id", "agent_id", "agent_version",
    "agent_run_id", "business_task_id", "trace_id", "idempotency_key", "tool_id", "tool_version"
  ]

  predicate IsReserved(name: string) {
    name in RESERVED_AUTHORITY_FIELDS
  }

  /** The runtime check: does a reserved name occur at any depth? */
  predicate ContainsReserved(document: Value) {
    match document
    case Obj(fields) => exists name | name in fields :: IsReserved(name) || ContainsReserved(fields[name])
    case Arr(items) => exists i | 0 <= i < |items| :: ContainsReserved(items[i])
    case _ => false
  }
}
