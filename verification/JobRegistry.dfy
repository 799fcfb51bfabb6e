/** The `job_registry` table: rows, lease guards and single-row updates. */
module JobRegistry {
  import opened Common

  datatype Desired = DesiredRunning | DesiredStopped

  datatype Role = RoleAll | RoleSnapshot | RoleStreaming

  datatype Status =
    | Created | Queued | Pending | Running | Pausing | Paused
    | Stopping | Stopped | Failed | OtherStatus(name: string)

  const REBUILD_FULL_MODE := "rebuild-truncate-append-v1"
  const SCOPED_TRINO_MODE := "rebuild-scoped-trino-v1"
  const SCOPED_NATIVE_MODE := "rebuild-scoped-native-v2"

  /** The parts of `config_json` that recovery reads and writes. */
  datatype Config = Config(
    rebuildable: bool,          // config.ValidateIcebergSnapshotRebuild accepts it
    usesTrino: bool,            // config.IcebergSnapshotRebuildUsesTrino
    scopedEpoch: Option<string>,
    fullResetEpoch: Option<string>,
    writeMode: string,
    rolling: bool)

  datatype JobRow = JobRow(
    submission: string,
    metaKey: string,            // NULL is read as ''
    config: Config,
    desired: Desired,
    role: Role,
    resumeRequested: bool,
    status: Status,
    owner: Option<string>,
    until: Option<Instant>)

  /** What a worker holds: the fields a fenced statement compares with the row. */
  datatype Token = Token(job: string, submission: string, owner: string, stateKey: string)

  /** `submission_id=? AND lease_owner=?` */
  predicate Holds(row: JobRow, submission: string, owner: string) {
    row.submission == submission && row.owner == Some(owner)
  }

  predicate Unexpired(row: JobRow, now: Instant) {
    row.until.Some? && row.until.value >= now
  }

  /** The ownership predicate of a fenced write, as the database evaluates it at `now`. */
  predicate Owns(jobs: map<string, JobRow>, token: Token, now: Instant) {
    && token.job in jobs
    && var row := jobs[token.job];
       Holds(row, token.submission, token.owner) && Unexpired(row, now) && (row.desired == DesiredRunning || row.status == Pausing)
  }

  /** A lease always has both an owner and a deadline, or neither. */
  predicate LeaseWellFormed(row: JobRow) {
    row.owner.Some? <==> row.until.Some?
  }

  predicate Claimable(row: JobRow, role: Role, now: Instant) {
    row.role == role && row.desired == DesiredRunning && Free(row.until, now)
  }

  function Claimed(row: JobRow, owner: string, until: Instant, uuid: string): (r: JobRow) {
    row.(owner := Some(owner), until := Some(until),
         submission := if row.submission == "" then uuid else row.submission)
  }

  predicate Renewable(row: JobRow, submission: string, owner: string) {
    Holds(row, submission, owner) && (row.desired == DesiredRunning || row.status == Pausing || row.status == Stopping)
  }

  function Unleased(row: JobRow): (r: JobRow) {
    row.(owner := None, until := None)
  }

  predicate ActiveStatus(s: Status) {
    s.Created? || s.Queued? || s.Pending? || s.Running?
  }

  predicate TerminalStatus(s: Status) {
    s.Paused? || s.Failed? || s.Stopped?
  }

  /** The claimed save: routine progress must not overwrite a pause request. */
  function Saved(row: JobRow, metaKey: string, desired: Desired, role: Role, status: Status): (r: JobRow) {
    row.(metaKey := metaKey, desired := desired, role := role, resumeRequested := false,
         status := if row.status.Pausing? && ActiveStatus(status) then row.status else status)
  }

  function Requeued(row: JobRow, role: Role, resume: bool): (r: JobRow) {
    Unleased(row).(desired := DesiredRunning, role := role, resumeRequested := resume, status := Queued)
  }

  /** The row guard shared by a rebuild and an in-place writer upgrade. */
  predicate Idle(row: JobRow, submission: string, stateKey: string) {
    && row.submission == submission
    && row.metaKey == stateKey
    && row.owner.None?
    && row.desired == DesiredStopped
    && TerminalStatus(row.status)
  }

  /** The configuration of the new epoch a rebuild opens. */
  function RebuildConfig(c: Config, epoch: string): (r: Config) {
    if c.usesTrino then
      c.(fullResetEpoch := None, scopedEpoch := Some(epoch), writeMode := SCOPED_NATIVE_MODE, rolling := false)
    else
      c.(scopedEpoch := None, fullResetEpoch := Some(epoch), writeMode := REBUILD_FULL_MODE)
  }
}
