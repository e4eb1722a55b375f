/** Values as the handlers receive them (request bodies, route and query
    parameters, socket payloads) and the shape of an HTTP reply. */
module Common {

  /** Milliseconds since the epoch. Every `new Date()` of the handlers is
      passed in as a parameter of this type. */
  type Time = int

  datatype Option<+T> = None | Some(value: T)

  /** An HTTP reply: its status code and, when `success` is true, its payload. */
  datatype Reply<+T> = Ok(code: int, data: T) | Err(code: int)

  /** The outcome of a validation step: the validated value, or the status
      code the handler answers with. */
  datatype Result<+T> = Accept(value: T) | Refuse(status: int)

  const OK: int := 200
  const CREATED: int := 201
  const BAD_REQUEST: int := 400
  const NOT_FOUND: int := 404
  const SERVER_ERROR: int := 500

  /** A string field of a request: None when it is undefined or null.
      JavaScript treats it as true when it is present and not empty. */
  predicate Given(s: Option<string>)
  {
    s.Some? && s.value != ""
  }

  /** `s || fallback` on a string field. */
  function OrElse(s: Option<string>, fallback: string): (r: string)
    ensures Given(s) ==> r == s.value
    ensures !Given(s) ==> r == fallback
  {
    if Given(s) then s.value else fallback
  }

  /** A JSON scalar, for fields whose type the handler inspects or whose
      truthiness depends on the type. */
  datatype Value = Null | Bool(b: bool) | Num(n: int) | Str(s: string)

  /** JavaScript truthiness of an optional JSON scalar (None is undefined). */
  predicate Truthy(v: Option<Value>)
  {
    match v
    case None => false
    case Some(Null) => false
    case Some(Bool(b)) => b
    case Some(Num(n)) => n != 0
    case Some(Str(s)) => s != ""
  }

  /** A body or query value that the handler passes to `Number(x)`,
      classified by what `Number` makes of it: undefined, null, the empty
      string, a value converting to the integer `n` (a number, a numeric
      string, a boolean), or a value converting to NaN. */
  datatype NumberArg = Undefined | NullArg | Blank | Numeric(n: int) | NotANumber

  /** `Number(a)`; None stands for NaN. */
  function ToNumber(a: NumberArg): (r: Option<int>)
    ensures r.None? <==> a.Undefined? || a.NotANumber?
    ensures a.Numeric? ==> r == Some(a.n)
    ensures a.NullArg? || a.Blank? ==> r == Some(0)
  {
    match a
    case Undefined => None
    case NullArg => Some(0)
    case Blank => Some(0)
    case Numeric(n) => Some(n)
    case NotANumber => None
  }

  /** SIM slot 0 (SIM1) or 1 (SIM2): the enum `[0, 1]` of the schemas. */
  type SimSlot = s: int | 0 <= s <= 1

  /** `[0, 1].includes(Number(a))`, giving the slot it selects. */
  function SlotOf(a: NumberArg): (r: Option<SimSlot>)
    ensures r.Some? <==> ToNumber(a) == Some(0) || ToNumber(a) == Some(1)
    ensures r.Some? ==> ToNumber(a) == Some(r.value)
  {
    match ToNumber(a)
    case Some(n) => if n == 0 || n == 1 then Some(n) else None
    case None => None
  }

  /** `timestamp ? new Date(timestamp) : new Date()`, for a timestamp given
      in milliseconds: a missing or zero timestamp means now. */
  function TimeOr(timestamp: Option<Time>, now: Time): (t: Time)
    ensures timestamp.Some? && timestamp.value != 0 ==> t == timestamp.value
    ensures timestamp.None? || timestamp.value == 0 ==> t == now
  {
    if timestamp.Some? && timestamp.value != 0 then timestamp.value else now
  }

  /** The `["active", "inactive"]` enum of the last-seen and call code schemas. */
  datatype Activity = Active | Inactive

  /** `Model.findOne({ key })` on a collection kept as a map by that key. */
  function Lookup<K, V>(m: map<K, V>, k: K): (r: Option<V>)
    ensures r.Some? <==> k in m
    ensures r.Some? ==> r.value == m[k]
  {
    if k in m then Some(m[k]) else None
  }
}
