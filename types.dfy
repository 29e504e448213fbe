/**
 * The records of the dispatch tracker: workers (users), their earning records and
 * jobs (reported dump sites). Every optional field of the source becomes an `Option`;
 * every ISO date string and every millisecond timestamp becomes an `Instant`.
 */
module Types {

  datatype Option<+T> = None | Some(value: T)

  type Id = string

  /** A wall-clock instant in milliseconds since the epoch. */
  type Instant = int

  datatype UserRole = Public | Worker | SeniorWorker | Supervisor | Manager
  datatype Zone = North | Central | South
  datatype UserStatus = Free | Busy
  datatype GarbageLevel = Low | Medium | High
  datatype VehicleType = Small | Large
  datatype JobStatus = Pending | Accepted | Completed
  datatype EarningKind = Bonus | Salary

  /** One entry of a worker's earnings ledger. */
  datatype EarningRecord = EarningRecord(date: Instant, jobId: Id, amount: int, kind: EarningKind)

  /** A worker (or any other account) as kept in the persisted users collection. */
  datatype User = User(
    id: Id,
    name: string,
    username: string,
    password: string,
    role: UserRole,
    zone: Option<Zone>,
    salary: int,
    dailyQuota: int,
    bonusRate: int,
    status: UserStatus,
    earningsHistory: seq<EarningRecord>,
    completedToday: int,
    totalVolunteerJobs: int)

  /** Coordinates are carried, never computed with. */
  datatype Location = Location(lat: real, lng: real, address: string)

  /** A reported dump site and the state of its handling. */
  datatype Job = Job(
    id: Id,
    reporterName: string,
    reporterContact: Option<string>,
    location: Location,
    description: string,
    imageUrl: string,
    garbageLevel: GarbageLevel,
    vehicle: VehicleType,
    status: JobStatus,
    assignedTo: Option<Id>,
    assignedWorkerName: Option<string>,
    bonusPaid: bool,
    timestamp: Instant,
    completedAt: Option<Instant>,
    zone: Zone,
    estimatedETA: Option<int>,
    acceptedAt: Option<Instant>,
    timerDuration: Option<int>,      // minutes
    timerStartedAt: Option<Instant>)
}
