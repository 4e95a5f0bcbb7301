/** The `admin-stats` server function (supabase/functions/admin-stats/index.ts): an
    admin gate, five count queries and a health label derived from the pending count.
    The queries themselves are inputs: what each awaited step returned, or that it threw. */
module AdminStats {
  import opened JsValues

  datatype Health = Excellent | Good | Warning | Critical

  /** How bad a health label is, from 0 (excellent) to 3 (critical). */
  function Severity(h: Health): nat {
    match h
    case Excellent => 0
    case Good => 1
    case Warning => 2
    case Critical => 3
  }

  /** The health thresholds for a known pending count. */
  function HealthOf(pending: nat): (h: Health)
    ensures h == Excellent <==> pending == 0
    ensures h == Good <==> 1 <= pending <= 5
    ensures h == Warning <==> 6 <= pending <= 15
    ensures h == Critical <==> 15 < pending
  {
    if pending == 0 then Excellent
    else if pending <= 5 then Good
    else if pending <= 15 then Warning
    else Critical
  }

  /** More pending requests never give a better health label. */
  lemma HealthMonotone(a: nat, b: nat)
    requires a <= b
    ensures Severity(HealthOf(a)) <= Severity(HealthOf(b))
  {
  }

  /** JavaScript `v <= k` for a count that may be `null`: `null` is coerced to 0. */
  predicate LooseAtMost(v: Option<nat>, k: nat) {
    match v
    case None => 0 <= k
    case Some(n) => n <= k
  }

  /** The `let systemHealth` if-chain, run on the raw query count: `=== 0` is false for
      `null`, while `null <= 5` is true. */
  function ClassifyPending(pending: Option<nat>): (h: Health)
    ensures pending.Some? ==> h == HealthOf(pending.value)
    ensures pending == None ==> h == Good
  {
    if pending == Some(0) then Excellent
    else if LooseAtMost(pending, 5) then Good
    else if LooseAtMost(pending, 15) then Warning
    else Critical
  }

  /** `count || 0` for a count that may be `null`. */
  function OrZero(count: Option<nat>): (n: nat)
    ensures count.Some? ==> n == count.value
    ensures count == None ==> n == 0
  {
    if count.Some? && count.value != 0 then count.value else 0
  }

  /** What the five count queries returned; `null` (None) when a query reported an error. */
  datatype Counts = Counts(
    totalUsers: Option<nat>,
    totalMembers: Option<nat>,
    pendingRequests: Option<nat>,
    activeBranches: Option<nat>,
    totalServices: Option<nat>)

  datatype Stats = Stats(
    totalUsers: nat,
    totalMembers: nat,
    pendingRequests: nat,
    activeBranches: nat,
    totalServices: nat,
    systemHealth: Health)

  /** The `stats` object built from the query counts. */
  function StatsFrom(c: Counts): (s: Stats)
    ensures s.totalUsers == (if c.totalUsers.Some? then c.totalUsers.value else 0)
    ensures s.totalMembers == (if c.totalMembers.Some? then c.totalMembers.value else 0)
    ensures s.pendingRequests == (if c.pendingRequests.Some? then c.pendingRequests.value else 0)
    ensures s.activeBranches == (if c.activeBranches.Some? then c.activeBranches.value else 0)
    ensures s.totalServices == (if c.totalServices.Some? then c.totalServices.value else 0)
    ensures c.pendingRequests.Some? ==> s.systemHealth == HealthOf(s.pendingRequests)
  {
    Stats(
      OrZero(c.totalUsers), OrZero(c.totalMembers), OrZero(c.pendingRequests),
      OrZero(c.activeBranches), OrZero(c.totalServices), ClassifyPending(c.pendingRequests))
  }

  /** A `null` pending count is reported as 0 pending requests, yet labelled `good`,
      not the `excellent` that 0 pending requests otherwise earns. */
  lemma NullPendingReportedZeroButGood(c: Counts)
    requires c.pendingRequests == None
    ensures StatsFrom(c).pendingRequests == 0
    ensures StatsFrom(c).systemHealth == Good
    ensures HealthOf(StatsFrom(c).pendingRequests) == Excellent
  {
  }

  /** An awaited step: it returned a value or it threw. */
  datatype Outcome<T> = Returned(value: T) | Threw

  /** The admin-user row found by the lookup, if any. */
  datatype UserRow = UserRow(id: string, role: string)

  /** `{ data: adminUser, error: adminError }` of the single-row lookup filtered on the
      given id and role `admin`. */
  datatype AdminLookup = AdminLookup(error: Option<string>, data: Option<UserRow>)

  predicate Authorised(lookup: AdminLookup) {
    lookup.error == None && lookup.data.Some?
  }

  datatype Request = Request(httpMethod: string, adminId: Outcome<string>)

  datatype Body =
    | Text(text: string)
    | Payload(success: bool, stats: Option<Stats>, error: Option<string>, message: Option<string>)

  /** A response; every response carries the CORS headers, JSON ones also a content type. */
  datatype Response = Response(status: nat, body: Body, jsonContentType: bool)

  const UnauthorisedText := "غير مصرح للوصول"
  const LoadFailedText := "حدث خطأ في تحميل الإحصائيات"
  const LoadedText := "تم تحميل الإحصائيات بنجاح"

  const Preflight := Response(200, Text("ok"), false)

  function Forbidden(): Response {
    Response(403, Payload(false, None, Some(UnauthorisedText), None), true)
  }

  function ServerError(): Response {
    Response(500, Payload(false, None, Some(LoadFailedText), None), true)
  }

  /** The request handler. `adminId` is what `req.json()` yielded; `lookup` is what the
      admin lookup yielded (Threw when it, or the client set-up before it, threw);
      `counts` is what the five count queries yielded (Threw when any of them threw). */
  function Handle(req: Request, lookup: Outcome<AdminLookup>, counts: Outcome<Counts>): (r: Response)
    ensures req.httpMethod == "OPTIONS" ==> r == Preflight
    ensures req.httpMethod != "OPTIONS" ==> r.body.Payload? && r.jsonContentType
    ensures r.body.Payload? ==>
      && (r.body.success <==> r.status == 200)
      && (r.body.stats.Some? <==> r.status == 200)
      && (r.body.error.Some? <==> r.status != 200)
    ensures r.status in {200, 403, 500}
    ensures r.status == 403 <==>
      req.httpMethod != "OPTIONS" && req.adminId.Returned? && lookup.Returned?
      && !Authorised(lookup.value)
    ensures r.status == 500 <==>
      req.httpMethod != "OPTIONS"
      && (req.adminId.Threw? || lookup.Threw? || (Authorised(lookup.value) && counts.Threw?))
    ensures r.status == 200 && r.body.Payload? ==>
      counts.Returned? && r.body.stats == Some(StatsFrom(counts.value))
  {
    if req.httpMethod == "OPTIONS" then Preflight
    else if req.adminId.Threw? || lookup.Threw? then ServerError()
    else if lookup.value.error.Some? || lookup.value.data.None? then Forbidden()
    else if counts.Threw? then ServerError()
    else Response(200, Payload(true, Some(StatsFrom(counts.value)), None, Some(LoadedText)), true)
  }

  /** A caller that the admin lookup does not confirm gets the same 403 without stats,
      whatever the counts in the store are. */
  lemma NonAdminGetsNoStats(req: Request, lookup: AdminLookup, counts1: Outcome<Counts>, counts2: Outcome<Counts>)
    requires req.httpMethod != "OPTIONS" && req.adminId.Returned?
    requires !Authorised(lookup)
    ensures Handle(req, Returned(lookup), counts1) == Handle(req, Returned(lookup), counts2)
    ensures Handle(req, Returned(lookup), counts1).status == 403
    ensures Handle(req, Returned(lookup), counts1).body.stats == None
  {
  }

  /** Every successful reply carries all five counts and a label that is never better
      than the thresholds give for the reported pending count, except for a `null`
      pending count, which is labelled `good`. */
  lemma SuccessfulStatsAreConsistent(req: Request, lookup: Outcome<AdminLookup>, c: Counts)
    requires Handle(req, lookup, Returned(c)).status == 200
    requires req.httpMethod != "OPTIONS"
    ensures var s := Handle(req, lookup, Returned(c)).body.stats.value;
      && (c.pendingRequests.Some? ==> s.systemHealth == HealthOf(s.pendingRequests))
      && (c.pendingRequests == None ==> s.pendingRequests == 0 && s.systemHealth == Good)
  {
  }

  /** An admin with seven pending requests sees `warning`. */
  lemma SevenPendingIsWarning(req: Request, row: UserRow, c: Counts)
    requires req.httpMethod == "POST" && req.adminId.Returned?
    requires c.pendingRequests == Some(7)
    ensures Handle(req, Returned(AdminLookup(None, Some(row))), Returned(c)).body.stats.value.systemHealth == Warning
  {
  }
}
