/** The client-side admin service (src/features/admin/services/adminService.ts): each
    wrapper calls a remote function and turns a thrown error into a failure reply, and
    `getStats` falls back to zeroed statistics. The remote call is an input: what
    `apiClient.callFunction` returned, or that it threw. */
module AdminService {
  import opened JsValues

  /** The outcome of `apiClient.callFunction`: a response, or a thrown error whose
      `message` may be missing. */
  datatype Call = Ok(response: Json) | Throw(message: Option<string>)

  /** The CRUD wrappers of the `services`, `branches` and `users` objects. */
  datatype Operation =
    | ServicesGetAll | ServicesCreate | ServicesUpdate | ServicesToggleStatus
    | ServicesCheckHasRequests | ServicesDelete
    | BranchesGetAll | BranchesCreate | BranchesToggleStatus
    | UsersGetAll | UsersCreate | UsersToggleStatus

  /** The remote function a wrapper calls. */
  function Endpoint(op: Operation): string {
    match op
    case ServicesGetAll | ServicesCreate | ServicesUpdate | ServicesToggleStatus
       | ServicesCheckHasRequests | ServicesDelete => "admin-services"
    case BranchesGetAll | BranchesCreate | BranchesToggleStatus => "admin-branches"
    case UsersGetAll | UsersCreate | UsersToggleStatus => "admin-users"
  }

  /** The `action` discriminator a wrapper sends. */
  function Action(op: Operation): string {
    match op
    case ServicesGetAll | BranchesGetAll | UsersGetAll => "list"
    case ServicesCreate | BranchesCreate | UsersCreate => "create"
    case ServicesUpdate => "update"
    case ServicesToggleStatus | BranchesToggleStatus | UsersToggleStatus => "toggle_status"
    case ServicesCheckHasRequests => "check_has_requests"
    case ServicesDelete => "delete"
  }

  /** No two wrappers send the same request: the endpoint and the action identify the wrapper. */
  lemma RoutingIsInjective(a: Operation, b: Operation)
    requires Endpoint(a) == Endpoint(b) && Action(a) == Action(b)
    ensures a == b
  {
  }

  /** The fixed message a wrapper reports when the thrown error has no message. */
  function FallbackMessage(op: Operation): string {
    match op
    case ServicesGetAll => "فشل في جلب الخدمات"
    case ServicesCreate => "فشل في إنشاء الخدمة"
    case ServicesUpdate => "فشل في تحديث الخدمة"
    case ServicesToggleStatus => "فشل في تغيير حالة الخدمة"
    case ServicesCheckHasRequests => "فشل في التحقق من الطلبات"
    case ServicesDelete => "فشل في حذف الخدمة"
    case BranchesGetAll => "فشل في جلب الفروع"
    case BranchesCreate => "فشل في إنشاء الفرع"
    case BranchesToggleStatus => "فشل في تغيير حالة الفرع"
    case UsersGetAll => "فشل في جلب المستخدمين"
    case UsersCreate => "فشل في إنشاء المستخدم"
    case UsersToggleStatus => "فشل في تغيير حالة المستخدم"
  }

  /** The keys a wrapper's failure reply carries besides `success` and `error`. */
  function FailureExtras(op: Operation): map<string, Json> {
    match op
    case ServicesCheckHasRequests => map["hasRequests" := JBool(false), "requestCount" := JNum(0)]
    case BranchesGetAll => map["branches" := JArr([])]
    case UsersGetAll => map["users" := JArr([])]
    case _ => map[]
  }

  /** `error.message || fallback`. */
  function ErrorText(op: Operation, message: Option<string>): string {
    if message.Some? && message.value != "" then message.value else FallbackMessage(op)
  }

  /** The reply a wrapper gives for one outcome of its remote call. */
  function Invoke(op: Operation, call: Call): (r: Json)
    ensures call.Ok? ==> r == call.response
    ensures call.Throw? ==>
      && r.JObj?
      && r.fields.Keys == {"success", "error"} + FailureExtras(op).Keys
      && r.fields["success"] == JBool(false)
      && r.fields["error"] == JStr(ErrorText(op, call.message))
      && (forall k :: k in FailureExtras(op) ==> r.fields[k] == FailureExtras(op)[k])
  {
    match call
    case Ok(response) => response
    case Throw(message) =>
      JObj(FailureExtras(op)["success" := JBool(false)]["error" := JStr(ErrorText(op, message))])
  }

  /** A thrown error always reaches the caller as a non-empty message: the error's own
      one when it has one, otherwise the wrapper's fallback. */
  lemma ThrownErrorIsNormalised(op: Operation, message: Option<string>)
    ensures var r := Invoke(op, Throw(message));
      && Truthy(Prop(Some(r), "error"))
      && !Truthy(Prop(Some(r), "success"))
    ensures message.Some? && message.value != "" ==>
      Invoke(op, Throw(message)).fields["error"] == JStr(message.value)
    ensures message == None || message == Some("") ==>
      Invoke(op, Throw(message)).fields["error"] == JStr(FallbackMessage(op))
  {
  }

  /** On a throw, `checkHasRequests` reports no requests, and the two `getAll`
      wrappers of branches and users report an empty list. */
  lemma FailureExtrasOnThrow(message: Option<string>)
    ensures var r := Invoke(ServicesCheckHasRequests, Throw(message));
      r.fields["hasRequests"] == JBool(false) && r.fields["requestCount"] == JNum(0)
    ensures Invoke(BranchesGetAll, Throw(message)).fields["branches"] == JArr([])
    ensures Invoke(UsersGetAll, Throw(message)).fields["users"] == JArr([])
    ensures Invoke(ServicesGetAll, Throw(message)).fields.Keys == {"success", "error"}
  {
  }

  /** The zeroed statistics the dashboard falls back to. */
  function ZeroStats(health: string): Json {
    JObj(map[
      "totalUsers" := JNum(0), "totalMembers" := JNum(0), "pendingRequests" := JNum(0),
      "activeBranches" := JNum(0), "totalServices" := JNum(0), "systemHealth" := JStr(health)])
  }

  /** `response.success && response.data?.stats`: the reply carries usable statistics. */
  predicate HasStats(response: Json) {
    Truthy(Prop(Some(response), "success")) && Truthy(Prop(Prop(Some(response), "data"), "stats"))
  }

  /** `dashboard.getStats`. Reading `response.success` on a `null` response throws
      inside the `try`, so it ends in the `catch` branch. */
  function DashboardGetStats(call: Call): (r: Json)
    ensures call.Throw? ==> r == ZeroStats("warning")
    ensures call == Ok(JNull) ==> r == ZeroStats("warning")
    ensures call.Ok? && call.response != JNull && HasStats(call.response) ==>
      Some(r) == Prop(Prop(Some(call.response), "data"), "stats")
    ensures call.Ok? && call.response != JNull && !HasStats(call.response) ==>
      r == ZeroStats("good")
    ensures Truthy(Some(r))
  {
    match call
    case Throw(_) => ZeroStats("warning")
    case Ok(response) =>
      if response == JNull then ZeroStats("warning")
      else if HasStats(response) then Prop(Prop(Some(response), "data"), "stats").value
      else ZeroStats("good")
  }

  /** The static `AdminService.getStats`, written out again in the source. */
  function StaticGetStats(call: Call): Json {
    match call
    case Throw(_) => ZeroStats("warning")
    case Ok(response) =>
      if response == JNull then ZeroStats("warning")
      else if HasStats(response) then Prop(Prop(Some(response), "data"), "stats").value
      else ZeroStats("good")
  }

  /** The static and the instance `getStats` agree on every outcome of the remote call. */
  lemma StaticGetStatsAgrees(call: Call)
    ensures StaticGetStats(call) == DashboardGetStats(call)
  {
  }

  /** The two fallbacks differ only in the health label, and a reply that carries
      statistics is passed through unchanged. */
  lemma GetStatsFallbacks(stats: Json, message: Option<string>)
    requires Truthy(Some(stats))
    ensures DashboardGetStats(Ok(JObj(map["success" := JBool(true), "data" := JObj(map["stats" := stats])]))) == stats
    ensures DashboardGetStats(Ok(JObj(map["success" := JBool(false)]))) == ZeroStats("good")
    ensures DashboardGetStats(Throw(message)) == ZeroStats("warning")
    ensures ZeroStats("good").fields - {"systemHealth"} == ZeroStats("warning").fields - {"systemHealth"}
  {
  }
}
