/**
 The durable side of account reactivation for one account: the reactivation jobs, the
 legacy repair outbox, the profile life cycle, the Auth user, and the two Auth triggers.

 Every function below is one transaction of the service.  `Step` applies one event and is
 total: a transaction that raises leaves the world as it was.  Nothing restricts who sends
 an event or when, so lost, late and duplicated messages are ordinary events.
 */
module ReactivationWorld {
  import opened Wrappers

  const MAX_INT4: nat := 2147483647
  const LEASE_SECONDS: nat := 120
  // 9999-12-31 23:59:59Z, the sentinel date of a quarantined row.
  const QUARANTINE_AT: nat := 253402300799

  /** A normalised address.  `Marker` is the deletion marker of this account. */
  datatype Email = Marker | Real(address: string)

  datatype Action = Activate | Cancel

  /** The private metadata key that an arm transaction writes on the Auth user. */
  datatype Fence =
    | JobFence(requestId: nat, adminId: nat, token: nat, version: nat, action: Action,
               deletedAt: nat, generation: nat)
    | RepairFence(repairId: nat, token: nat, version: nat, generation: nat)

  datatype User = User(email: Email, fence: Option<Fence>)

  datatype Status = Pending | Leased(token: nat, until: nat) | Completed | Cancelled | Superseded

  datatype Job = Job(adminId: nat, email: Email, deletedAt: nat, generation: nat,
                     status: Status, version: nat, attempts: nat,
                     cancelRequested: bool, nextAttempt: nat)

  datatype Repair = Repair(email: Email, generation: nat, status: Status,
                           version: nat, attempts: nat, nextAttempt: nat)

  /** What a claim hands to a worker. */
  datatype Lease = Lease(requestId: nat, adminId: nat, email: Email, deletedAt: nat, generation: nat,
                         token: nat, version: nat, attempts: nat, action: Action,
                         preflight: Option<string>)

  datatype RepairLease = RepairLease(repairId: nat, email: Email, generation: nat,
                                     token: nat, version: nat, attempts: nat,
                                     preflight: Option<string>)

  /**
   `identity` is the address that the provider identities prove (None when preparing it
   raises), `member` the stored member row, `scrubLease` an exact live scrub lease of the
   deletion clean-up, and `nextToken` the supply of never repeated lease tokens.
   */
  datatype World = World(now: nat, user: Option<User>, deletedAt: Option<nat>, generation: nat,
                         member: Option<Email>, identity: Option<Email>,
                         cleanupPending: bool, scrubLease: bool,
                         jobs: map<nat, Job>, repairs: map<nat, Repair>, nextToken: nat)

  predicate Live(s: Status) {
    s.Pending? || s.Leased?
  }

  predicate Terminal(s: Status) {
    !Live(s)
  }

  function ActionOf(j: Job): Action {
    if j.cancelRequested then Cancel else Activate
  }

  predicate HasLiveJob(w: World) {
    exists r :: r in w.jobs && Live(w.jobs[r].status)
  }

  predicate DueRow(now: nat, s: Status, nextAttempt: nat) {
    (s.Pending? && nextAttempt <= now) || (s.Leased? && s.until <= now)
  }

  predicate Due(w: World, r: nat) {
    r in w.jobs && DueRow(w.now, w.jobs[r].status, w.jobs[r].nextAttempt)
  }

  predicate RepairDue(w: World, id: nat) {
    id in w.repairs && DueRow(w.now, w.repairs[id].status, w.repairs[id].nextAttempt)
  }

  predicate HoldsLease(now: nat, s: Status, version: nat, token: nat, leaseVersion: nat) {
    s.Leased? && s.token == token && version == leaseVersion && now < s.until
  }

  /** Delay in seconds before a failed attempt may be claimed again. */
  function Backoff(attempts: nat): nat {
    var shift := if attempts < 10 then attempts else 10;
    var delay := 5 * PowerOfTwo(shift);
    if delay < 3600 then delay else 3600
  }

  function PowerOfTwo(n: nat): nat {
    if n == 0 then 1 else 2 * PowerOfTwo(n - 1)
  }

  // ---------------------------------------------------------------- reactivation jobs

  predicate ExpectedLifecycle(w: World, j: Job) {
    w.deletedAt == Some(j.deletedAt) && w.generation == j.generation
  }

  function Begin(w: World, r: nat, adminId: nat): World {
    if r in w.jobs || HasLiveJob(w) || w.deletedAt.None? || w.generation == 0
       || w.member.None? || w.cleanupPending || w.identity.None? || w.identity.value.Marker? then w
    else
      w.(jobs := w.jobs[r := Job(adminId, w.identity.value, w.deletedAt.value, w.generation,
                                 Pending, 0, 0, false, w.now)])
  }

  function RequestCancel(w: World, r: nat): World {
    if r !in w.jobs || Terminal(w.jobs[r].status) || !ExpectedLifecycle(w, w.jobs[r]) then w
    else
      var j := w.jobs[r];
      if j.cancelRequested && j.version != MAX_INT4 && j.attempts != MAX_INT4 then w
      else
        w.(jobs := w.jobs[r := j.(status := Pending,
                                  version := if j.version == MAX_INT4 then 0 else j.version,
                                  attempts := if j.attempts == MAX_INT4 then 0 else j.attempts,
                                  cancelRequested := true,
                                  nextAttempt := w.now)])
  }

  function Preflight(w: World, j: Job): Option<string> {
    if !ExpectedLifecycle(w, j) then Some("state_conflict")
    else if j.cancelRequested then None
    else if w.member.None? then Some("member_not_found")
    else if w.cleanupPending then Some("account_cleanup_pending")
    else if w.identity.None? then Some("identity_email_missing")
    else if w.identity != Some(j.email) then Some("reactivation_email_changed")
    else if w.user.None? then Some("auth_user_missing")
    else if w.user.value.email != j.email && w.user.value.email != Marker then Some("auth_identity_conflict")
    else None
  }

  function Claim(w: World, r: nat): (World, Option<Lease>) {
    if !Due(w, r) then (w, None)
    else
      var j := w.jobs[r];
      if j.version >= MAX_INT4 || j.attempts >= MAX_INT4 then
        (w.(jobs := w.jobs[r := j.(status := Pending, nextAttempt := QUARANTINE_AT)]), None)
      else
        var j' := j.(status := Leased(w.nextToken, w.now + LEASE_SECONDS),
                     version := j.version + 1, attempts := j.attempts + 1);
        (w.(jobs := w.jobs[r := j'], nextToken := w.nextToken + 1),
         Some(Lease(r, j.adminId, j.email, j.deletedAt, j.generation, w.nextToken,
                    j'.version, j'.attempts, ActionOf(j), Preflight(w, j))))
  }

  predicate LiveLease(w: World, l: Lease) {
    && l.requestId in w.jobs
    && w.jobs[l.requestId].adminId == l.adminId
    && HoldsLease(w.now, w.jobs[l.requestId].status, w.jobs[l.requestId].version, l.token, l.version)
  }

  predicate ArmAllowed(w: World, l: Lease) {
    && LiveLease(w, l)
    && var j := w.jobs[l.requestId];
    && ExpectedLifecycle(w, j)
    && (ActionOf(j) == Activate ==> w.member.Some?)
    && w.user.Some?
    && (w.user.value.email == j.email || w.user.value.email == Marker)
  }

  function FenceFor(l: Lease): Fence {
    JobFence(l.requestId, l.adminId, l.token, l.version, l.action, l.deletedAt, l.generation)
  }

  function StoredFence(j: Job, l: Lease): Fence {
    JobFence(l.requestId, j.adminId, l.token, l.version, ActionOf(j), j.deletedAt, j.generation)
  }

  function Arm(w: World, l: Lease): World {
    if !ArmAllowed(w, l) then w
    else w.(user := Some(w.user.value.(fence := Some(StoredFence(w.jobs[l.requestId], l)))))
  }

  predicate CancelAllowed(w: World, l: Lease) {
    && LiveLease(w, l)
    && var j := w.jobs[l.requestId];
    && j.cancelRequested
    && ExpectedLifecycle(w, j)
    && (w.user.None? || w.user.value.email == Marker)
  }

  predicate CompleteAllowed(w: World, l: Lease) {
    && LiveLease(w, l)
    && var j := w.jobs[l.requestId];
    && !j.cancelRequested
    && ExpectedLifecycle(w, j)
    && w.member.Some?
    && w.user.Some?
    && w.identity == Some(j.email)
    && w.user.value.email == j.email
    && w.user.value.fence == Some(StoredFence(j, l))
  }

  function ClearFence(w: World): World {
    if w.user.None? then w else w.(user := Some(w.user.value.(fence := None)))
  }

  function WithStatus(w: World, r: nat, s: Status): World
    requires r in w.jobs
  {
    w.(jobs := w.jobs[r := w.jobs[r].(status := s)])
  }

  predicate FinishAllowed(w: World, l: Lease, success: bool) {
    if !success then LiveLease(w, l)
    else CancelAllowed(w, l) || CompleteAllowed(w, l)
  }

  function Finish(w: World, l: Lease, success: bool): World {
    if !FinishAllowed(w, l, success) then w
    else
      var r, j := l.requestId, w.jobs[l.requestId];
      if !success then
        w.(jobs := w.jobs[r := j.(status := Pending, nextAttempt := w.now + Backoff(j.attempts))])
      else if j.cancelRequested then
        WithStatus(ClearFence(w), r, Cancelled)
      else
        WithStatus(ClearFence(w), r, Completed).(deletedAt := None, member := Some(j.email))
  }

  // ---------------------------------------------------------------- legacy repairs

  /** The retired route activates the profile first and leaves the Auth address to a repair. */
  function LegacyActivate(w: World, id: nat, email: Email): World {
    if w.deletedAt.None? || HasLiveJob(w) || w.member.None? || email.Marker? then w
    else
      var active := w.(deletedAt := None, member := Some(email));
      if id in w.repairs || (exists k :: k in w.repairs && w.repairs[k].generation == w.generation)
         || (w.user.Some? && w.user.value.email == email) then active
      else active.(repairs := w.repairs[id := Repair(email, w.generation, Pending, 0, 0, w.now)])
  }

  predicate RepairLifecycle(w: World, j: Repair) {
    w.deletedAt.None? && w.generation == j.generation
  }

  predicate FenceOfRepair(f: Option<Fence>, id: nat, j: Repair) {
    f.Some? && f.value.RepairFence? && f.value.repairId == id && f.value.generation == j.generation
  }

  function Supersede(w: World, id: nat, clear: bool): World
    requires id in w.repairs
  {
    var w' := if clear then ClearFence(w) else w;
    w'.(repairs := w.repairs[id := w.repairs[id].(status := Superseded)])
  }

  datatype RepairClaim = NoRepair | RepairSuperseded(repairId: nat) | RepairLeased(lease: RepairLease)

  function ClaimRepair(w: World, id: nat): (r: (World, RepairClaim))
    ensures r.0.jobs == w.jobs && r.0.deletedAt == w.deletedAt && r.0.generation == w.generation
  {
    if !RepairDue(w, id) then (w, NoRepair)
    else
      var j := w.repairs[id];
      if j.version >= MAX_INT4 || j.attempts >= MAX_INT4 then
        (w.(repairs := w.repairs[id := j.(status := Pending, nextAttempt := QUARANTINE_AT)]), NoRepair)
      else if !RepairLifecycle(w, j) then
        (Supersede(w, id, w.user.Some? && FenceOfRepair(w.user.value.fence, id, j)), RepairSuperseded(id))
      else
        var j' := j.(status := Leased(w.nextToken, w.now + LEASE_SECONDS),
                     version := j.version + 1, attempts := j.attempts + 1);
        var preflight :=
          if w.member.None? then Some("member_not_found")
          else if w.member != Some(j.email) then Some("member_email_changed")
          else None;
        (w.(repairs := w.repairs[id := j'], nextToken := w.nextToken + 1),
         RepairLeased(RepairLease(id, j.email, j.generation, w.nextToken, j'.version, j'.attempts, preflight)))
  }

  predicate LiveRepairLease(w: World, l: RepairLease) {
    && l.repairId in w.repairs
    && HoldsLease(w.now, w.repairs[l.repairId].status, w.repairs[l.repairId].version, l.token, l.version)
  }

  function RepairFenceFor(l: RepairLease): Fence {
    RepairFence(l.repairId, l.token, l.version, l.generation)
  }

  predicate ArmRepairAllowed(w: World, l: RepairLease) {
    && LiveRepairLease(w, l)
    && var j := w.repairs[l.repairId];
    && RepairLifecycle(w, j)
    && w.member == Some(j.email)
    && w.user.Some?
    && (w.user.value.email == j.email || w.user.value.email == Marker)
  }

  function ArmRepair(w: World, l: RepairLease): World {
    if !ArmRepairAllowed(w, l) then w
    else
      var fence := RepairFence(l.repairId, l.token, l.version, w.repairs[l.repairId].generation);
      w.(user := Some(w.user.value.(fence := Some(fence))))
  }

  datatype RepairFinish = RepairRejected | RepairRetry | RepairDone | RepairRetired

  function FinishRepairResult(w: World, l: RepairLease, success: bool): RepairFinish {
    if !LiveRepairLease(w, l) then RepairRejected
    else if !success then RepairRetry
    else
      var j := w.repairs[l.repairId];
      if !RepairLifecycle(w, j) then RepairRetired
      else if && w.member == Some(j.email) && w.user.Some? && w.user.value.email == j.email
              && w.user.value.fence == Some(RepairFence(l.repairId, l.token, l.version, j.generation)) then RepairDone
      else RepairRejected
  }

  function FinishRepair(w: World, l: RepairLease, success: bool): (r: World)
    ensures r.jobs == w.jobs && r.deletedAt == w.deletedAt && r.generation == w.generation
  {
    match FinishRepairResult(w, l, success)
    case RepairRejected => w
    case RepairRetry =>
      var j := w.repairs[l.repairId];
      w.(repairs := w.repairs[l.repairId := j.(status := Pending, nextAttempt := w.now + Backoff(j.attempts))])
    case RepairRetired =>
      var j := w.repairs[l.repairId];
      Supersede(w, l.repairId,
                w.user.Some? && w.user.value.fence == Some(RepairFence(l.repairId, l.token, l.version, j.generation)))
    case RepairDone =>
      ClearFence(w).(repairs := w.repairs[l.repairId := w.repairs[l.repairId].(status := Completed)])
  }

  // ---------------------------------------------------------------- the Auth user

  /** The trigger that guards every other address -> marker. */
  predicate ScrubTriggerAllows(w: World, newEmail: Email)
    requires w.user.Some?
  {
    || newEmail != Marker
    || w.user.value.email == Marker
    || (w.user.value.fence.Some? && w.user.value.fence.value.JobFence? && w.user.value.fence.value.action == Cancel)
    || (w.scrubLease && w.deletedAt.Some?)
  }

  predicate RepairFenceAllows(w: World, f: Fence, newEmail: Email)
    requires f.RepairFence?
  {
    && f.repairId in w.repairs
    && var j := w.repairs[f.repairId];
    && HoldsLease(w.now, j.status, j.version, f.token, f.version)
    && j.generation == f.generation
    && RepairLifecycle(w, j)
    && w.member == Some(j.email)
    && newEmail == j.email
  }

  predicate JobFenceAllows(w: World, f: Fence, oldEmail: Email, newEmail: Email)
    requires f.JobFence?
  {
    && f.requestId in w.jobs
    && var j := w.jobs[f.requestId];
    && j.adminId == f.adminId
    && HoldsLease(w.now, j.status, j.version, f.token, f.version)
    && j.deletedAt == f.deletedAt
    && j.generation == f.generation
    && ExpectedLifecycle(w, j)
    && (|| (f.action == Activate && !j.cancelRequested && oldEmail == Marker && newEmail == j.email
            && w.member.Some? && w.identity == Some(j.email))
        || (f.action == Cancel && j.cancelRequested && oldEmail == j.email && newEmail == Marker))
  }

  /** The trigger that fences address changes to the live reactivation lease. */
  predicate ReactivationTriggerAllows(w: World, newEmail: Email)
    requires w.user.Some?
  {
    var oldEmail, fence := w.user.value.email, w.user.value.fence;
    if oldEmail == newEmail then true
    else if oldEmail == Marker && fence.Some? && fence.value.RepairFence? then
      RepairFenceAllows(w, fence.value, newEmail)
    else if !HasLiveJob(w) then oldEmail != Marker
    else fence.Some? && fence.value.JobFence? && JobFenceAllows(w, fence.value, oldEmail, newEmail)
  }

  predicate UpdateAllowed(w: World, newEmail: Email) {
    w.user.Some? && ScrubTriggerAllows(w, newEmail) && ReactivationTriggerAllows(w, newEmail)
  }

  function AuthUpdate(w: World, newEmail: Email): World {
    if UpdateAllowed(w, newEmail) then w.(user := Some(w.user.value.(email := newEmail))) else w
  }

  // ---------------------------------------------------------------- life cycle around the saga

  /** A withdrawal: refused while a job is live; advances the withdrawal generation. */
  function Withdraw(w: World, at: nat): World {
    if w.deletedAt.Some? || HasLiveJob(w) then w
    else w.(deletedAt := Some(at), generation := w.generation + 1,
            member := if w.member.Some? then Some(Marker) else None, cleanupPending := true)
  }

  datatype Event =
    | Tick(seconds: nat)
    | BeginJob(r: nat, adminId: nat)
    | CancelRequest(r: nat)
    | ClaimJob(r: nat)
    | ArmJob(lease: Lease)
    | FinishJob(lease: Lease, success: bool)
    | UpdateEmail(email: Email)
    | ActivateLegacy(id: nat, email: Email)
    | ClaimLegacy(id: nat)
    | ArmLegacy(repair: RepairLease)
    | FinishLegacy(repair: RepairLease, success: bool)
    | WithdrawAccount(at: nat)
    | ChangeMember(member: Option<Email>)
    | ChangeIdentity(identity: Option<Email>)
    | ChangeCleanup(pending: bool, scrub: bool)
    | RemoveUser

  function Step(w: World, e: Event): World {
    match e
    case Tick(d) => w.(now := w.now + d)
    case BeginJob(r, a) => Begin(w, r, a)
    case CancelRequest(r) => RequestCancel(w, r)
    case ClaimJob(r) => Claim(w, r).0
    case ArmJob(l) => Arm(w, l)
    case FinishJob(l, s) => Finish(w, l, s)
    case UpdateEmail(m) => AuthUpdate(w, m)
    case ActivateLegacy(id, m) => LegacyActivate(w, id, m)
    case ClaimLegacy(id) => ClaimRepair(w, id).0
    case ArmLegacy(l) => ArmRepair(w, l)
    case FinishLegacy(l, s) => FinishRepair(w, l, s)
    case WithdrawAccount(at) => Withdraw(w, at)
    case ChangeMember(m) => w.(member := m)
    case ChangeIdentity(i) => w.(identity := i)
    case ChangeCleanup(p, s) => w.(cleanupPending := p, scrubLease := s)
    case RemoveUser => w.(user := None)
  }

  function Run(w: World, es: seq<Event>): World
    decreases |es|
  {
    if es == [] then w else Run(Step(w, es[0]), es[1..])
  }

  /** A world before any reactivation was requested. */
  predicate Initial(w: World) {
    w.jobs == map[] && w.repairs == map[] && (w.user.Some? ==> w.user.value.fence.None?)
  }
}
