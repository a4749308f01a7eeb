/** The event table (`db/Event.cds`) and the row-level effect of the three statements the
    processor runs on it: the claim, the keep-alive and the status write. */
module EventTable {

  datatype Option<+T> = None | Some(value: T)

  datatype Status = Open | InProgress | Done | Error | Exceeded | Suspended

  /** Rows are numbered in the order of the select: by creation time, then by ID. */
  type Id = nat

  datatype Row = Row(status: Status, attempts: int, lastAttempt: Option<int>, startAfter: Option<int>)

  type Table = map<Id, Row>

  /** Times are milliseconds.  `lookAhead` is how far ahead of its start time a row is selected
      (1.2 run intervals), `maxInProgress` is keepAliveMaxInProgressTime. */
  datatype Config = Config(
    retryAttempts: int,
    maxInProgress: int,
    lookAhead: int,
    retryFailedAfter: int,
    retryOpenAfter: int)

  const TRIES_FOR_EXCEEDED_EVENTS: int := 3
  const EVENT_START_AFTER_HEADROOM: int := 3000

  /** The where clause of the claim, for ad-hoc events.  A comparison with NULL is false. */
  predicate Selectable(row: Row, startTime: int, base: int, cfg: Config)
  {
    && (row.startAfter.None? || row.startAfter.value <= base + cfg.lookAhead)
    && match row.status {
         case Open => row.lastAttempt.None? || row.lastAttempt.value <= startTime
         case Error => row.lastAttempt.Some? && row.lastAttempt.value <= startTime
         case InProgress => row.lastAttempt.Some? && row.lastAttempt.value <= base - cfg.maxInProgress
         case _ => false
       }
  }

  datatype Kind = Ready | Delayed | ExceededTries | ExceededTriesExceeded

  /** How a selected row is sorted (`#clusterEvents`): the last test is an equality. */
  function KindOf(row: Row, base: int, cfg: Config): Kind
  {
    if row.attempts == cfg.retryAttempts + TRIES_FOR_EXCEEDED_EVENTS then ExceededTriesExceeded
    else if row.attempts >= cfg.retryAttempts then ExceededTries
    else if row.startAfter.Some? && row.startAfter.value > base + EVENT_START_AFTER_HEADROOM then Delayed
    else Ready
  }

  function OfKind(table: Table, chunk: set<Id>, kind: Kind, base: int, cfg: Config): set<Id>
  {
    set e | e in chunk && e in table && KindOf(table[e], base, cfg) == kind
  }

  function ClaimRow(row: Row, now: int): Row
  {
    row.(status := InProgress, lastAttempt := Some(now), attempts := row.attempts + 1)
  }

  function ClaimRows(table: Table, claimed: set<Id>, now: int): Table
  {
    map e | e in table :: if e in claimed then ClaimRow(table[e], now) else table[e]
  }

  /** The keep-alive touches the time stamp only. */
  function RefreshRows(table: Table, valid: set<Id>, now: int): Table
  {
    map e | e in table :: if e in valid then table[e].(lastAttempt := Some(now)) else table[e]
  }

  /** What a status write stores for one event. */
  datatype Update = Update(status: Status, startAfter: Option<int>)

  function WriteRow(row: Row, u: Update, now: int, cfg: Config): Row
  {
    Row(
      u.status,
      if u.status == Open then row.attempts - 1 else row.attempts,
      Some(now),
      match u.status {
        case Open => Some(if u.startAfter.Some? then u.startAfter.value else now + cfg.retryOpenAfter)
        case Error => Some(if u.startAfter.Some? then u.startAfter.value else now + cfg.retryFailedAfter)
        case _ => row.startAfter
      })
  }

  function WriteRows(table: Table, writes: map<Id, Update>, now: int, cfg: Config): Table
  {
    map e | e in table :: if e in writes then WriteRow(table[e], writes[e], now, cfg) else table[e]
  }
}
