/** Vocabulary shared by every part of the model: optional values, the loosely
    typed fields of a JSON request body, the server configuration and time. */
module Common {

  datatype Option<+T> = None | Some(value: T)

  /** One field of a parsed JSON request body. The handlers receive `any`,
      so a field may be missing (or null), a string, or some other JSON value,
      of which only its JavaScript truthiness matters to the guards. */
  datatype Field = Absent | Text(text: string) | NonText(truthy: bool)

  /** JavaScript truthiness: a missing field, null, "", 0 and false are falsy. */
  predicate Truthy(f: Field)
  {
    match f
    case Absent => false
    case Text(s) => s != ""
    case NonText(t) => t
  }

  /** Milliseconds in a day, the unit of every duration in the source. */
  const MS_PER_DAY: int := 24 * 60 * 60 * 1000

  /** The environment of the server process. `hmac(key, message)` stands for
      the hex digest of HMAC-SHA256 (RFC 2104), which the model takes as given. */
  datatype Config = Config(
    gatewayKeyId: Option<string>,
    gatewayKeySecret: Option<string>,
    webhookSecret: Option<string>,
    adminToken: Option<string>,
    hmac: (string, string) -> string)

  /** The value stored under `k`, if any. */
  function Lookup<K, V>(m: map<K, V>, k: K): (r: Option<V>)
    ensures r.Some? <==> k in m
    ensures r.Some? ==> r.value == m[k]
  {
    if k in m then Some(m[k]) else None
  }
}
