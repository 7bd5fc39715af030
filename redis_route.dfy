/**
 * The record-store route (`app/api/redis/route.ts`): its `GET`, `POST` and
 * `DELETE` handlers map the query's `action`, `type` and `id` and the
 * `x-user-id` header to one operation of the per-user Redis store, or to an
 * error status. The operation itself is the `StorageRedis` model's.
 */
module RedisRoute {
  import opened Wrappers
  import StorageRedis

  /** The store operation a request is dispatched to. */
  datatype Op =
    | GetAssessmentOp(date: string)
    | ListOp(kind: StorageRedis.Kind)
    | AllDataOp
    | HealthCheckOp
    | SaveOp(kind: StorageRedis.Kind)
    | MigrateOp
    | ClearOp
    | DeleteOp(kind: StorageRedis.Kind, id: string)

  /** A handler's decision: answer at once with an error status, or run an operation for a user. */
  datatype Routed = Reject(status: int, error: string) | Run(userId: string, op: Op)

  /** The JSON answer once the operation has run. */
  datatype Reply = DataReply | HealthReply(healthy: bool) | SuccessReply

  const NotAvailable: string := "Redis not available"
  const BadRequest: string := "Invalid action or parameters"

  /** `x-user-id || 'default_user'`, the same rule the store's constructor applies. */
  function RouteUser(header: Option<string>): (u: string)
    ensures u == StorageRedis.EffectiveUserId(header)
    ensures u != ""
  {
    if header.Some? && header.value != "" then header.value else "default_user"
  }

  /** The list kind a `GET` `type` names (plural spellings). */
  function ListKind(t: Option<string>): Option<StorageRedis.Kind> {
    if t == Some("assessments") then Some(StorageRedis.AssessmentKind)
    else if t == Some("fatigue-scales") then Some(StorageRedis.ScaleKind)
    else if t == Some("exercise-sessions") then Some(StorageRedis.SessionKind)
    else None
  }

  /** The record kind a `POST`/`DELETE` `type` names (singular spellings). */
  function RecordKind(t: Option<string>): Option<StorageRedis.Kind> {
    if t == Some("assessment") then Some(StorageRedis.AssessmentKind)
    else if t == Some("fatigue-scale") then Some(StorageRedis.ScaleKind)
    else if t == Some("exercise-session") then Some(StorageRedis.SessionKind)
    else None
  }

  /** `GET`: availability first, then `get` by type (a single assessment needs a non-empty `id`) or `health-check`. */
  function GetRoute(action: Option<string>, t: Option<string>, id: Option<string>, header: Option<string>, available: bool): (r: Routed)
    ensures !available ==> r == Reject(503, NotAvailable)
    ensures r.Run? ==> r.userId == StorageRedis.EffectiveUserId(header)
    ensures r.Run? && r.op.GetAssessmentOp? ==> id.Some? && id.value != "" && r.op.date == id.value
  {
    var user := RouteUser(header);
    if !available then Reject(503, NotAvailable)
    else if action == Some("get") then
      if t == Some("assessment") && id.Some? && id.value != "" then Run(user, GetAssessmentOp(id.value))
      else if ListKind(t).Some? then Run(user, ListOp(ListKind(t).value))
      else if t == Some("all") then Run(user, AllDataOp)
      else Reject(400, BadRequest)
    else if action == Some("health-check") then Run(user, HealthCheckOp)
    else Reject(400, BadRequest)
  }

  /** `POST`: an unreadable body is a 500 before anything else, then availability, then `save` by type, `migrate` or `clear`. */
  function PostRoute(action: Option<string>, t: Option<string>, bodyParses: bool, header: Option<string>, available: bool): (r: Routed)
    ensures !bodyParses ==> r == Reject(500, "Internal server error")
    ensures bodyParses && !available ==> r == Reject(503, NotAvailable)
    ensures r.Run? ==> r.userId == StorageRedis.EffectiveUserId(header) && (r.op.SaveOp? || r.op.MigrateOp? || r.op.ClearOp?)
  {
    var user := RouteUser(header);
    if !bodyParses then Reject(500, "Internal server error")
    else if !available then Reject(503, NotAvailable)
    else if action == Some("save") then
      if RecordKind(t).Some? then Run(user, SaveOp(RecordKind(t).value)) else Reject(400, BadRequest)
    else if action == Some("migrate") then Run(user, MigrateOp)
    else if action == Some("clear") then Run(user, ClearOp)
    else Reject(400, BadRequest)
  }

  /** `DELETE`: a missing `type` or `id` is a 400 before availability is checked; an unknown type is a 400 after it. */
  function DeleteRoute(t: Option<string>, id: Option<string>, header: Option<string>, available: bool): (r: Routed)
    ensures (t.None? || t.value == "" || id.None? || id.value == "") ==> r == Reject(400, "Missing type or id")
    ensures r.Run? ==> r.userId == StorageRedis.EffectiveUserId(header) && r.op.DeleteOp? && r.op.id == id.value
  {
    if t.None? || t.value == "" || id.None? || id.value == "" then Reject(400, "Missing type or id")
    else if !available then Reject(503, NotAvailable)
    else if RecordKind(t).Some? then Run(RouteUser(header), DeleteOp(RecordKind(t).value, id.value))
    else Reject(400, "Invalid type")
  }

  /**
   * The answer once the operation ran: reads answer `{data}`, the health
   * check answers the second availability probe, and every write answers
   * `{success: true}` whatever the store reported.
   */
  function Answer(op: Op, stored: bool, healthyNow: bool): (r: Reply)
    ensures op.HealthCheckOp? <==> r.HealthReply?
    ensures r.HealthReply? ==> r.healthy == healthyNow
  {
    match op
    case GetAssessmentOp(_) => DataReply
    case ListOp(_) => DataReply
    case AllDataOp => DataReply
    case HealthCheckOp => HealthReply(healthyNow)
    case _ => SuccessReply
  }

  // ---------------------------------------------------------------------------
  // Properties

  /** A missing or empty `x-user-id` means `default_user` in all three handlers. */
  lemma DefaultUserEverywhere(action: Option<string>, t: Option<string>, id: Option<string>, bodyParses: bool, header: Option<string>, available: bool)
    requires header.None? || header.value == ""
    ensures GetRoute(action, t, id, header, available).Run? ==> GetRoute(action, t, id, header, available).userId == "default_user"
    ensures PostRoute(action, t, bodyParses, header, available).Run? ==> PostRoute(action, t, bodyParses, header, available).userId == "default_user"
    ensures DeleteRoute(t, id, header, available).Run? ==> DeleteRoute(t, id, header, available).userId == "default_user"
  {
  }

  /** `get` of a single assessment dispatches exactly when `id` is non-empty; without it the request is a 400. */
  lemma GetAssessmentNeedsId(id: Option<string>, header: Option<string>)
    ensures id.Some? && id.value != "" ==>
              GetRoute(Some("get"), Some("assessment"), id, header, true) == Run(RouteUser(header), GetAssessmentOp(id.value))
    ensures id.None? || id.value == "" ==>
              GetRoute(Some("get"), Some("assessment"), id, header, true) == Reject(400, BadRequest)
  {
  }

  /** Each list type dispatches to its kind's listing, `all` to the full dump, `health-check` to the probe. */
  lemma GetListDispatch(id: Option<string>, header: Option<string>)
    ensures GetRoute(Some("get"), Some("assessments"), id, header, true).op == ListOp(StorageRedis.AssessmentKind)
    ensures GetRoute(Some("get"), Some("fatigue-scales"), id, header, true).op == ListOp(StorageRedis.ScaleKind)
    ensures GetRoute(Some("get"), Some("exercise-sessions"), id, header, true).op == ListOp(StorageRedis.SessionKind)
    ensures GetRoute(Some("get"), Some("all"), id, header, true).op == AllDataOp
    ensures forall t :: GetRoute(Some("health-check"), t, id, header, true) == Run(RouteUser(header), HealthCheckOp)
  {
  }

  /** The singular `POST`/`DELETE` type names and the plural `GET` ones never overlap. */
  lemma TypeSpellingsDisjoint(t: Option<string>)
    ensures !(ListKind(t).Some? && RecordKind(t).Some?)
  {
  }

  /** A dispatched save answers success whether or not the store's save succeeded. */
  lemma SaveAlwaysSucceeds(action: Option<string>, t: Option<string>, header: Option<string>, stored: bool, healthyNow: bool)
    requires PostRoute(action, t, true, header, true).Run?
    ensures Answer(PostRoute(action, t, true, header, true).op, stored, healthyNow) == SuccessReply
  {
  }

  /** With the store unavailable, no handler dispatches anything once its own earlier checks pass. */
  lemma UnavailableNeverDispatches(action: Option<string>, t: Option<string>, id: Option<string>, bodyParses: bool, header: Option<string>)
    ensures !GetRoute(action, t, id, header, false).Run?
    ensures !PostRoute(action, t, bodyParses, header, false).Run?
    ensures !DeleteRoute(t, id, header, false).Run?
    ensures bodyParses ==> PostRoute(action, t, bodyParses, header, false) == Reject(503, NotAvailable)
  {
  }

  /** An unmatched action or type is a 400 in every handler. */
  lemma UnmatchedIsBadRequest(action: Option<string>, t: Option<string>, id: Option<string>, header: Option<string>)
    requires action !in {Some("get"), Some("health-check"), Some("save"), Some("migrate"), Some("clear")}
    ensures GetRoute(action, t, id, header, true) == Reject(400, BadRequest)
    ensures PostRoute(action, t, true, header, true) == Reject(400, BadRequest)
    ensures RecordKind(t).None? && t.Some? && t.value != "" && id.Some? && id.value != "" ==>
              DeleteRoute(t, id, header, true) == Reject(400, "Invalid type")
  {
  }
}
