/**
 * The job store: a list of jobs and the persisted list of users, and the operations
 * that move a job from pending through accepted to completed.
 *
 * Lookups follow the source exactly: a job or user is found by the FIRST element
 * with the given id, while an update is applied to EVERY element with that id.
 * Nothing here assumes ids are unique.
 *
 * The transitions are first given as pure functions over a `Snapshot` of both
 * collections (`Accept`, `Complete`, `Release`); the class `Store` below holds the
 * two collections as fields and its methods are proved to perform those transitions.
 */
module JobStore {
  import opened Types
  import opened Seqs

  // ---------------------------------------------------------------------------
  // Severity tables

  /** Minutes of handling time granted when a job is accepted. */
  function TimerMinutes(level: GarbageLevel): nat
  {
    if level == High then 240 else if level == Medium then 120 else 60
  }

  /** Bonus paid to the worker who completes a job. */
  function BonusAmount(level: GarbageLevel): nat
  {
    if level == High then 500 else if level == Medium then 300 else 200
  }

  /** The tables grow with severity together, and every granted duration is 1, 2 or 4 whole hours. */
  lemma TablesAgree(level: GarbageLevel)
    ensures TimerMinutes(level) == 60 * (if level == High then 4 else if level == Medium then 2 else 1)
    ensures TimerMinutes(Low) < TimerMinutes(Medium) < TimerMinutes(High)
    ensures BonusAmount(Low) < BonusAmount(Medium) < BonusAmount(High)
  {
  }

  // ---------------------------------------------------------------------------
  // Lookups (`find`)

  /** Position of the job `find` returns for `jobId`. */
  function JobIndex(jobs: seq<Job>, jobId: Id): (r: Option<nat>)
    ensures r.Some? ==> r.value < |jobs| && jobs[r.value].id == jobId
    ensures r.Some? ==> forall k :: 0 <= k < r.value ==> jobs[k].id != jobId
    ensures r.None? <==> forall k :: 0 <= k < |jobs| ==> jobs[k].id != jobId
  {
    FirstIndex(jobs, (j: Job) => j.id == jobId)
  }

  /** Position of the user `find` returns for `userId`. */
  function UserIndex(users: seq<User>, userId: Id): (r: Option<nat>)
    ensures r.Some? ==> r.value < |users| && users[r.value].id == userId
    ensures r.Some? ==> forall k :: 0 <= k < r.value ==> users[k].id != userId
    ensures r.None? <==> forall k :: 0 <= k < |users| ==> users[k].id != userId
  {
    FirstIndex(users, (u: User) => u.id == userId)
  }

  /** A lookup is unaffected by an update that keeps every id in place. */
  lemma JobIndexKeepsIds(a: seq<Job>, b: seq<Job>, jobId: Id)
    requires |a| == |b| && forall i :: 0 <= i < |a| ==> a[i].id == b[i].id
    ensures JobIndex(a, jobId) == JobIndex(b, jobId)
  {
    var ra, rb := JobIndex(a, jobId), JobIndex(b, jobId);
    if ra.Some? && rb.Some? {
      assert !(ra.value < rb.value) && !(rb.value < ra.value);
    }
  }

  lemma UserIndexKeepsIds(a: seq<User>, b: seq<User>, userId: Id)
    requires |a| == |b| && forall i :: 0 <= i < |a| ==> a[i].id == b[i].id
    ensures UserIndex(a, userId) == UserIndex(b, userId)
  {
    var ra, rb := UserIndex(a, userId), UserIndex(b, userId);
    if ra.Some? && rb.Some? {
      assert !(ra.value < rb.value) && !(rb.value < ra.value);
    }
  }

  // ---------------------------------------------------------------------------
  // Field groups used to say what an operation leaves alone

  /** The facts fixed when the job was reported. */
  predicate SameReport(a: Job, b: Job)
  {
    && a.id == b.id && a.reporterName == b.reporterName && a.reporterContact == b.reporterContact
    && a.location == b.location && a.description == b.description && a.imageUrl == b.imageUrl
    && a.garbageLevel == b.garbageLevel && a.vehicle == b.vehicle && a.timestamp == b.timestamp
    && a.zone == b.zone && a.estimatedETA == b.estimatedETA
  }

  /** The assignment written at acceptance: assignee, worker name and timer fields. */
  predicate SameAssignment(a: Job, b: Job)
  {
    && a.assignedTo == b.assignedTo && a.assignedWorkerName == b.assignedWorkerName
    && a.acceptedAt == b.acceptedAt && a.timerDuration == b.timerDuration
    && a.timerStartedAt == b.timerStartedAt
  }

  /** The account fields of a user, which no job operation touches. */
  predicate SameAccount(a: User, b: User)
  {
    && a.id == b.id && a.name == b.name && a.username == b.username && a.password == b.password
    && a.role == b.role && a.zone == b.zone && a.salary == b.salary
    && a.dailyQuota == b.dailyQuota && a.bonusRate == b.bonusRate
  }

  // ---------------------------------------------------------------------------
  // Creating a job (`addJob`)

  /** What a reporter supplies: every field of a job except id, timestamp, status and bonusPaid. */
  datatype JobDraft = JobDraft(
    reporterName: string,
    reporterContact: Option<string>,
    location: Location,
    description: string,
    imageUrl: string,
    garbageLevel: GarbageLevel,
    vehicle: VehicleType,
    assignedTo: Option<Id>,
    assignedWorkerName: Option<string>,
    completedAt: Option<Instant>,
    zone: Zone,
    estimatedETA: Option<int>,
    acceptedAt: Option<Instant>,
    timerDuration: Option<int>,
    timerStartedAt: Option<Instant>)

  /** The supplied fields of a job: the inverse of `NewJob`. */
  function DraftOf(j: Job): JobDraft
  {
    JobDraft(j.reporterName, j.reporterContact, j.location, j.description, j.imageUrl,
             j.garbageLevel, j.vehicle, j.assignedTo, j.assignedWorkerName, j.completedAt,
             j.zone, j.estimatedETA, j.acceptedAt, j.timerDuration, j.timerStartedAt)
  }

  /** The job `addJob` builds: the draft, a fresh id and the creation time, pending and unpaid. */
  function NewJob(d: JobDraft, id: Id, timestamp: Instant): (j: Job)
    ensures j.id == id && j.timestamp == timestamp
    ensures j.status == Pending && !j.bonusPaid
    ensures DraftOf(j) == d
  {
    Job(id, d.reporterName, d.reporterContact, d.location, d.description, d.imageUrl,
        d.garbageLevel, d.vehicle, Pending, d.assignedTo, d.assignedWorkerName, false,
        timestamp, d.completedAt, d.zone, d.estimatedETA, d.acceptedAt, d.timerDuration,
        d.timerStartedAt)
  }

  /** Every pending, unpaid job is the one built from its own draft, id and timestamp. */
  lemma NewJobOfDraft(j: Job)
    requires j.status == Pending && !j.bonusPaid
    ensures NewJob(DraftOf(j), j.id, j.timestamp) == j
  {
  }

  // ---------------------------------------------------------------------------
  // Partial updates (`updateJob`): `{ ...job, ...updates }`

  /**
   * A `Partial<Job>`: `None` leaves the field alone, `Some(v)` overwrites it. For an
   * optional field, `Some(None)` is an update that sets the field to undefined.
   */
  datatype JobPatch = JobPatch(
    id: Option<Id>,
    reporterName: Option<string>,
    reporterContact: Option<Option<string>>,
    location: Option<Location>,
    description: Option<string>,
    imageUrl: Option<string>,
    garbageLevel: Option<GarbageLevel>,
    vehicle: Option<VehicleType>,
    status: Option<JobStatus>,
    assignedTo: Option<Option<Id>>,
    assignedWorkerName: Option<Option<string>>,
    bonusPaid: Option<bool>,
    timestamp: Option<Instant>,
    completedAt: Option<Option<Instant>>,
    zone: Option<Zone>,
    estimatedETA: Option<Option<int>>,
    acceptedAt: Option<Option<Instant>>,
    timerDuration: Option<Option<int>>,
    timerStartedAt: Option<Option<Instant>>)

  const NoChanges := JobPatch(None, None, None, None, None, None, None, None, None, None,
                              None, None, None, None, None, None, None, None, None)

  function Over<T>(current: T, update: Option<T>): T
  {
    if update.Some? then update.value else current
  }

  function Later<T>(first: Option<T>, second: Option<T>): Option<T>
  {
    if second.Some? then second else first
  }

  function Apply(j: Job, p: JobPatch): Job
  {
    Job(Over(j.id, p.id), Over(j.reporterName, p.reporterName),
        Over(j.reporterContact, p.reporterContact), Over(j.location, p.location),
        Over(j.description, p.description), Over(j.imageUrl, p.imageUrl),
        Over(j.garbageLevel, p.garbageLevel), Over(j.vehicle, p.vehicle),
        Over(j.status, p.status), Over(j.assignedTo, p.assignedTo),
        Over(j.assignedWorkerName, p.assignedWorkerName), Over(j.bonusPaid, p.bonusPaid),
        Over(j.timestamp, p.timestamp), Over(j.completedAt, p.completedAt),
        Over(j.zone, p.zone), Over(j.estimatedETA, p.estimatedETA),
        Over(j.acceptedAt, p.acceptedAt), Over(j.timerDuration, p.timerDuration),
        Over(j.timerStartedAt, p.timerStartedAt))
  }

  /** The object spread of two update objects: later fields win. */
  function Merge(p: JobPatch, q: JobPatch): JobPatch
  {
    JobPatch(Later(p.id, q.id), Later(p.reporterName, q.reporterName),
             Later(p.reporterContact, q.reporterContact), Later(p.location, q.location),
             Later(p.description, q.description), Later(p.imageUrl, q.imageUrl),
             Later(p.garbageLevel, q.garbageLevel), Later(p.vehicle, q.vehicle),
             Later(p.status, q.status), Later(p.assignedTo, q.assignedTo),
             Later(p.assignedWorkerName, q.assignedWorkerName), Later(p.bonusPaid, q.bonusPaid),
             Later(p.timestamp, q.timestamp), Later(p.completedAt, q.completedAt),
             Later(p.zone, q.zone), Later(p.estimatedETA, q.estimatedETA),
             Later(p.acceptedAt, q.acceptedAt), Later(p.timerDuration, q.timerDuration),
             Later(p.timerStartedAt, q.timerStartedAt))
  }

  /** An empty update changes nothing; applying an update twice is applying it once. */
  lemma ApplyNoChangesAndTwice(j: Job, p: JobPatch)
    ensures Apply(j, NoChanges) == j
    ensures Apply(Apply(j, p), p) == Apply(j, p)
  {
  }

  /** Two successive updates are one update by their merge. */
  lemma ApplyMerge(j: Job, p: JobPatch, q: JobPatch)
    ensures Apply(Apply(j, p), q) == Apply(j, Merge(p, q))
  {
  }

  // ---------------------------------------------------------------------------
  // The accept / complete / release transitions

  datatype Snapshot = Snapshot(jobs: seq<Job>, users: seq<User>)

  /** The boolean an operation returns, and both collections afterwards. */
  datatype Outcome = Outcome(ok: bool, store: Snapshot)

  /** `jobs.map`: every job with id `jobId` is taken by `userId`, with a timer of `minutes`. */
  function AcceptAll(jobs: seq<Job>, jobId: Id, userId: Id, workerName: string, minutes: int, now: Instant): seq<Job>
  {
    seq(|jobs|, i requires 0 <= i < |jobs| =>
      if jobs[i].id == jobId then
        jobs[i].(status := Accepted, assignedTo := Some(userId), assignedWorkerName := Some(workerName),
                 acceptedAt := Some(now), timerDuration := Some(minutes), timerStartedAt := Some(now))
      else jobs[i])
  }

  /** `jobs.map`: every job with id `jobId` is closed and marked paid. */
  function CompleteAll(jobs: seq<Job>, jobId: Id, now: Instant): seq<Job>
  {
    seq(|jobs|, i requires 0 <= i < |jobs| =>
      if jobs[i].id == jobId then jobs[i].(status := Completed, completedAt := Some(now), bonusPaid := true)
      else jobs[i])
  }

  /** `users.map`: every user with id `userId` gets availability `st`. */
  function SetStatus(users: seq<User>, userId: Id, st: UserStatus): seq<User>
  {
    seq(|users|, i requires 0 <= i < |users| =>
      if users[i].id == userId then users[i].(status := st) else users[i])
  }

  /** `users.map`: every user with id `userId` is freed and credited with one completion and `rec`. */
  function CreditAll(users: seq<User>, userId: Id, rec: EarningRecord): seq<User>
  {
    seq(|users|, i requires 0 <= i < |users| =>
      if users[i].id == userId then
        users[i].(status := Free, completedToday := users[i].completedToday + 1,
                  totalVolunteerJobs := users[i].totalVolunteerJobs + 1,
                  earningsHistory := users[i].earningsHistory + [rec])
      else users[i])
  }

  /**
   * `acceptJob`: succeeds exactly when the user exists, the job exists and the job is
   * pending. The user's availability is not consulted.
   */
  function Accept(s: Snapshot, jobId: Id, userId: Id, now: Instant): (r: Outcome)
    ensures r.ok <==> && UserIndex(s.users, userId).Some?
                      && JobIndex(s.jobs, jobId).Some?
                      && s.jobs[JobIndex(s.jobs, jobId).value].status == Pending
    ensures !r.ok ==> r.store == s
    ensures r.ok ==> |r.store.jobs| == |s.jobs| && |r.store.users| == |s.users|
    ensures r.ok ==>
      var worker := s.users[UserIndex(s.users, userId).value];
      var minutes := TimerMinutes(s.jobs[JobIndex(s.jobs, jobId).value].garbageLevel);
      forall i :: 0 <= i < |s.jobs| ==>
        var a, b := s.jobs[i], r.store.jobs[i];
        if a.id == jobId then
          && SameReport(a, b) && b.bonusPaid == a.bonusPaid && b.completedAt == a.completedAt
          && b.status == Accepted && b.assignedTo == Some(userId)
          && b.assignedWorkerName == Some(worker.name) && b.timerDuration == Some(minutes)
          && b.acceptedAt == Some(now) && b.timerStartedAt == Some(now)
        else b == a
    ensures r.ok ==>
      forall i :: 0 <= i < |s.users| ==>
        var a, b := s.users[i], r.store.users[i];
        if a.id == userId then
          && SameAccount(a, b) && b.status == Busy && b.earningsHistory == a.earningsHistory
          && b.completedToday == a.completedToday && b.totalVolunteerJobs == a.totalVolunteerJobs
        else b == a
  {
    match (UserIndex(s.users, userId), JobIndex(s.jobs, jobId))
    case (Some(u), Some(k)) =>
      if s.jobs[k].status != Pending then Outcome(false, s)
      else
        var minutes := TimerMinutes(s.jobs[k].garbageLevel);
        Outcome(true, Snapshot(AcceptAll(s.jobs, jobId, userId, s.users[u].name, minutes, now),
                               SetStatus(s.users, userId, Busy)))
    case _ => Outcome(false, s)
  }

  /**
   * `completeJob`: succeeds exactly when the user exists, the job exists and the job is
   * assigned to that user. The job's status is not consulted.
   */
  function Complete(s: Snapshot, jobId: Id, userId: Id, now: Instant): (r: Outcome)
    ensures r.ok <==> && UserIndex(s.users, userId).Some?
                      && JobIndex(s.jobs, jobId).Some?
                      && s.jobs[JobIndex(s.jobs, jobId).value].assignedTo == Some(userId)
    ensures !r.ok ==> r.store == s
    ensures r.ok ==> |r.store.jobs| == |s.jobs| && |r.store.users| == |s.users|
    ensures r.ok ==>
      forall i :: 0 <= i < |s.jobs| ==>
        var a, b := s.jobs[i], r.store.jobs[i];
        if a.id == jobId then
          && SameReport(a, b) && SameAssignment(a, b)
          && b.status == Completed && b.completedAt == Some(now) && b.bonusPaid
        else b == a
    ensures r.ok ==>
      var level := s.jobs[JobIndex(s.jobs, jobId).value].garbageLevel;
      forall i :: 0 <= i < |s.users| ==>
        var a, b := s.users[i], r.store.users[i];
        if a.id == userId then
          && SameAccount(a, b) && b.status == Free
          && b.completedToday == a.completedToday + 1
          && b.totalVolunteerJobs == a.totalVolunteerJobs + 1
          && b.earningsHistory == a.earningsHistory + [EarningRecord(now, jobId, BonusAmount(level), Bonus)]
        else b == a
  {
    match (UserIndex(s.users, userId), JobIndex(s.jobs, jobId))
    case (Some(u), Some(k)) =>
      if s.jobs[k].assignedTo != Some(userId) then Outcome(false, s)
      else
        var rec := EarningRecord(now, jobId, BonusAmount(s.jobs[k].garbageLevel), Bonus);
        Outcome(true, Snapshot(CompleteAll(s.jobs, jobId, now), CreditAll(s.users, userId, rec)))
    case _ => Outcome(false, s)
  }

  /**
   * The deferred auto-release: if the user found for `userId` is busy, every user with
   * that id becomes free. Jobs, counters and earnings are never touched.
   */
  function Release(s: Snapshot, userId: Id): (r: Snapshot)
    ensures r.jobs == s.jobs
    ensures |r.users| == |s.users|
    ensures forall i :: 0 <= i < |s.users| ==> r.users[i] == s.users[i].(status := r.users[i].status)
    ensures forall i :: 0 <= i < |s.users| && s.users[i].id != userId ==> r.users[i] == s.users[i]
    ensures UserIndex(s.users, userId).Some? ==> r.users[UserIndex(s.users, userId).value].status == Free
    ensures UserIndex(s.users, userId).Some? && s.users[UserIndex(s.users, userId).value].status == Busy ==>
              forall i :: 0 <= i < |s.users| && s.users[i].id == userId ==> r.users[i].status == Free
    ensures (UserIndex(s.users, userId).None? || s.users[UserIndex(s.users, userId).value].status == Free)
            ==> r == s
  {
    match UserIndex(s.users, userId)
    case Some(u) =>
      if s.users[u].status == Busy then Snapshot(s.jobs, SetStatus(s.users, userId, Free))
      else assert s.users[u].status == Free; s
    case None => s
  }

  // ---------------------------------------------------------------------------
  // Bonus bookkeeping

  predicate IsBonus(e: EarningRecord)
  {
    e.kind == Bonus
  }

  /** `reduce((sum, e) => sum + e.amount, 0)`: a left fold. */
  function SumAmounts(rs: seq<EarningRecord>): (r: int)
    ensures (forall i :: 0 <= i < |rs| ==> rs[i].amount >= 0) ==> r >= 0
  {
    if rs == [] then 0 else SumAmounts(rs[..|rs| - 1]) + rs[|rs| - 1].amount
  }

  /** The bonus total a worker's profile shows: the amounts of the bonus records. */
  function BonusTotal(history: seq<EarningRecord>): (r: int)
    ensures (forall i :: 0 <= i < |history| ==> !IsBonus(history[i])) ==> r == 0
    ensures (forall i :: 0 <= i < |history| ==> history[i].amount >= 0) ==> r >= 0
  {
    var f := Filter(history, IsBonus);
    assert forall i :: 0 <= i < |f| ==> f[i] in history && IsBonus(f[i]) by {
      forall i | 0 <= i < |f| ensures f[i] in history && IsBonus(f[i]) {
        assert f[i] in f;
      }
    }
    SumAmounts(f)
  }

  lemma SumAmountsAppend(rs: seq<EarningRecord>, e: EarningRecord)
    ensures SumAmounts(rs + [e]) == SumAmounts(rs) + e.amount
  {
    assert (rs + [e])[..|rs|] == rs;
  }

  /** Appending a record raises the bonus total by its amount if it is a bonus, else not at all. */
  lemma BonusTotalAppend(history: seq<EarningRecord>, e: EarningRecord)
    ensures BonusTotal(history + [e]) == BonusTotal(history) + (if e.kind == Bonus then e.amount else 0)
  {
    var f := Filter(history, IsBonus);
    FilterAppend(history, e, IsBonus);
    if IsBonus(e) {
      assert Filter(history + [e], IsBonus) == f + [e];
      SumAmountsAppend(f, e);
    } else {
      assert Filter(history + [e], IsBonus) == f + [];
      assert f + [] == f;
    }
  }

  /** A successful completion raises the worker's bonus total by exactly the tier's bonus. */
  lemma CompletePaysBonus(s: Snapshot, jobId: Id, userId: Id, now: Instant)
    requires Complete(s, jobId, userId, now).ok
    ensures var t := Complete(s, jobId, userId, now).store;
            var level := s.jobs[JobIndex(s.jobs, jobId).value].garbageLevel;
            forall i :: 0 <= i < |s.users| && s.users[i].id == userId ==>
              BonusTotal(t.users[i].earningsHistory) == BonusTotal(s.users[i].earningsHistory) + BonusAmount(level)
  {
    var t := Complete(s, jobId, userId, now).store;
    var level := s.jobs[JobIndex(s.jobs, jobId).value].garbageLevel;
    forall i | 0 <= i < |s.users| && s.users[i].id == userId
      ensures BonusTotal(t.users[i].earningsHistory) == BonusTotal(s.users[i].earningsHistory) + BonusAmount(level)
    {
      BonusTotalAppend(s.users[i].earningsHistory, EarningRecord(now, jobId, BonusAmount(level), Bonus));
    }
  }

  // ---------------------------------------------------------------------------
  // How the transitions interact

  /** The store does not check availability: a busy user can still accept a pending job. */
  lemma AcceptIgnoresBusy(s: Snapshot, jobId: Id, userId: Id, now: Instant)
    requires UserIndex(s.users, userId).Some? && s.users[UserIndex(s.users, userId).value].status == Busy
    requires JobIndex(s.jobs, jobId).Some? && s.jobs[JobIndex(s.jobs, jobId).value].status == Pending
    ensures Accept(s, jobId, userId, now).ok
  {
  }

  /** Once a job is accepted, a second accept of it (by anyone) fails and it stays with the first worker. */
  lemma SecondAcceptFails(s: Snapshot, jobId: Id, first: Id, second: Id, t1: Instant, t2: Instant)
    requires Accept(s, jobId, first, t1).ok
    ensures var s1 := Accept(s, jobId, first, t1).store;
            var r := Accept(s1, jobId, second, t2);
            && !r.ok && r.store == s1
            && JobIndex(s1.jobs, jobId).Some?
            && s1.jobs[JobIndex(s1.jobs, jobId).value].assignedTo == Some(first)
  {
    var s1 := Accept(s, jobId, first, t1).store;
    JobIndexKeepsIds(s.jobs, s1.jobs, jobId);
  }

  /**
   * Completion does not require the job to be accepted: completing the same job again
   * by the same worker succeeds and pays a second bonus.
   */
  lemma CompleteTwicePaysTwice(s: Snapshot, jobId: Id, userId: Id, t1: Instant, t2: Instant)
    requires Complete(s, jobId, userId, t1).ok
    ensures var s1 := Complete(s, jobId, userId, t1).store;
            var r := Complete(s1, jobId, userId, t2);
            && r.ok
            && forall i :: 0 <= i < |s.users| && s.users[i].id == userId ==>
                 && |r.store.users[i].earningsHistory| == |s.users[i].earningsHistory| + 2
                 && r.store.users[i].completedToday == s.users[i].completedToday + 2
  {
    var s1 := Complete(s, jobId, userId, t1).store;
    JobIndexKeepsIds(s.jobs, s1.jobs, jobId);
    UserIndexKeepsIds(s.users, s1.users, userId);
  }

  /** A release that fires after the job was completed finds the worker free and changes nothing. */
  lemma ReleaseAfterComplete(s: Snapshot, jobId: Id, userId: Id, now: Instant)
    requires Complete(s, jobId, userId, now).ok
    ensures var s1 := Complete(s, jobId, userId, now).store;
            Release(s1, userId) == s1
  {
    var s1 := Complete(s, jobId, userId, now).store;
    UserIndexKeepsIds(s.users, s1.users, userId);
  }

  /** Releasing twice is releasing once. */
  lemma ReleaseIdempotent(s: Snapshot, userId: Id)
    ensures Release(Release(s, userId), userId) == Release(s, userId)
  {
    UserIndexKeepsIds(s.users, Release(s, userId).users, userId);
  }

  /**
   * A job accepted and never completed: when the release fires the worker is free
   * again, but the job is still accepted and still assigned to them.
   */
  lemma AcceptThenRelease(s: Snapshot, jobId: Id, userId: Id, now: Instant)
    requires Accept(s, jobId, userId, now).ok
    ensures var s1 := Accept(s, jobId, userId, now).store;
            var s2 := Release(s1, userId);
            var u := UserIndex(s.users, userId).value;
            var k := JobIndex(s.jobs, jobId).value;
            && UserIndex(s2.users, userId) == Some(u) && s2.users[u].status == Free
            && JobIndex(s2.jobs, jobId) == Some(k)
            && s2.jobs[k].status == Accepted && s2.jobs[k].assignedTo == Some(userId)
  {
    var s1 := Accept(s, jobId, userId, now).store;
    var s2 := Release(s1, userId);
    var u := UserIndex(s.users, userId).value;
    var k := JobIndex(s.jobs, jobId).value;
    JobIndexKeepsIds(s.jobs, s1.jobs, jobId);
    UserIndexKeepsIds(s.users, s1.users, userId);
    assert s2.jobs == s1.jobs;
    assert s1.jobs[k].status == Accepted && s1.jobs[k].assignedTo == Some(userId);
    UserIndexKeepsIds(s1.users, s2.users, userId);
  }

  // ---------------------------------------------------------------------------
  // The store object

  /** The zustand store: `jobs` is its state, `users` the persisted users collection. */
  class Store {
    var jobs: seq<Job>
    var users: seq<User>

    function Snap(): Snapshot
      reads this
    {
      Snapshot(jobs, users)
    }

    constructor (jobs0: seq<Job>, users0: seq<User>)
      ensures jobs == jobs0 && users == users0
    {
      jobs := jobs0;
      users := users0;
    }

    /** `addJob`: append one pending job built from `draft`, the fresh `id` and the clock. */
    method AddJob(draft: JobDraft, id: Id, now: Instant) returns (job: Job)
      modifies this
      ensures job == NewJob(draft, id, now)
      ensures jobs == old(jobs) + [job]
      ensures users == old(users)
    {
      job := NewJob(draft, id, now);
      jobs := jobs + [job];
    }

    /** `updateJob`: every job with id `jobId` is overwritten field by field by `updates`. */
    method UpdateJob(jobId: Id, updates: JobPatch)
      modifies this
      ensures |jobs| == |old(jobs)|
      ensures forall i :: 0 <= i < |jobs| ==>
        jobs[i] == if old(jobs)[i].id == jobId then Apply(old(jobs)[i], updates) else old(jobs)[i]
      ensures users == old(users)
    {
      var js := jobs;
      jobs := seq(|js|, i requires 0 <= i < |js| => if js[i].id == jobId then Apply(js[i], updates) else js[i]);
    }

    /** `acceptJob` */
    method AcceptJob(jobId: Id, userId: Id, now: Instant) returns (ok: bool)
      modifies this
      ensures var r := Accept(old(Snap()), jobId, userId, now);
              ok == r.ok && Snap() == r.store
    {
      var us := users;
      var user := UserIndex(us, userId);
      var job := JobIndex(jobs, jobId);
      if user.None? || job.None? || jobs[job.value].status != Pending {
        return false;
      }
      var minutes := TimerMinutes(jobs[job.value].garbageLevel);
      jobs := AcceptAll(jobs, jobId, userId, us[user.value].name, minutes, now);
      users := SetStatus(us, userId, Busy);
      ok := true;
    }

    /** The body of the timer `acceptJob` arms: free the user if still busy. */
    method ReleaseUser(userId: Id)
      modifies this
      ensures Snap() == Release(old(Snap()), userId)
    {
      var current := users;
      var user := UserIndex(current, userId);
      if user.Some? && current[user.value].status == Busy {
        users := SetStatus(current, userId, Free);
      }
    }

    /** `completeJob` */
    method CompleteJob(jobId: Id, userId: Id, now: Instant) returns (ok: bool)
      modifies this
      ensures var r := Complete(old(Snap()), jobId, userId, now);
              ok == r.ok && Snap() == r.store
    {
      var us := users;
      var user := UserIndex(us, userId);
      var job := JobIndex(jobs, jobId);
      if user.None? || job.None? || jobs[job.value].assignedTo != Some(userId) {
        return false;
      }
      var bonus := BonusAmount(jobs[job.value].garbageLevel);
      jobs := CompleteAll(jobs, jobId, now);
      users := CreditAll(us, userId, EarningRecord(now, jobId, bonus, Bonus));
      ok := true;
    }

    /** `getJobsByZone` */
    function JobsByZone(zone: Zone): (r: seq<Job>)
      reads this
      ensures IsSubsequence(r, jobs)
      ensures forall j :: j in r <==> j in jobs && j.zone == zone
      ensures forall j :: multiset(r)[j] == if j.zone == zone then multiset(jobs)[j] else 0
    {
      Filter(jobs, (j: Job) => j.zone == zone)
    }

    /** `getJobsByStatus` */
    function JobsByStatus(status: JobStatus): (r: seq<Job>)
      reads this
      ensures IsSubsequence(r, jobs)
      ensures forall j :: j in r <==> j in jobs && j.status == status
      ensures forall j :: multiset(r)[j] == if j.status == status then multiset(jobs)[j] else 0
    {
      Filter(jobs, (j: Job) => j.status == status)
    }

    /** `getUserJobs` */
    function UserJobs(userId: Id): (r: seq<Job>)
      reads this
      ensures IsSubsequence(r, jobs)
      ensures forall j :: j in r <==> j in jobs && j.assignedTo == Some(userId)
      ensures forall j :: multiset(r)[j] == if j.assignedTo == Some(userId) then multiset(jobs)[j] else 0
    {
      Filter(jobs, (j: Job) => j.assignedTo == Some(userId))
    }
  }
}
