/** The entities that the cafe server and the PC agent exchange and store.

    Ids are opaque: an event id is a `nat` chosen fresh by the agent, and a session id is
    the index of its row, because rows are only ever appended. All instants are integer
    milliseconds. */
module Domain {
  datatype Option<+T> = None | Some(value: T)

  const MINUTE_MS := 60_000
  const MIN_MINUTES := 5
  const MAX_MINUTES := 1440

  // ---- Events sent by the agent ------------------------------------------------

  datatype EventType =
    | SessionStarted
    | SessionExtended
    | SessionEnded
    | SessionCancelled
    | CustomerAssigned
    | OrderCreated
    | SuperadminEntered
    | SuperadminLoginFailed
    | TamperSuspected
  {
    predicate IsSession() {
      SessionStarted? || SessionExtended? || SessionEnded? || SessionCancelled?
    }
  }

  /** A JSON payload field that should hold a number of minutes. */
  datatype Field = Missing | Malformed | Number(n: int)

  datatype Payload = Payload(localRef: Option<nat>, planned: Field, minutes: Field)

  datatype SyncEvent = SyncEvent(id: nat, seqNo: nat, etype: EventType, occurredAt: int, payload: Payload)

  datatype Verdict = Accepted | Duplicate | Conflicted | Unrecognized(name: string)

  datatype Reason = DuplicateSession | SessionAlreadyEnded

  datatype SyncResult = SyncResult(id: nat, seqNo: nat, state: Verdict, reason: Option<Reason>, session: Option<nat>)

  function EventSeq(e: SyncEvent): int { e.seqNo }

  function ResultSeq(r: SyncResult): int { r.seqNo }

  // ---- Server tables -----------------------------------------------------------

  datatype Status = Scheduled | Active | Paused | Expired | Ended | Cancelled
  {
    predicate Terminal() { Expired? || Ended? || Cancelled? }
  }

  datatype Origin = Admin | Launcher | SuperadminOffline

  /** One run of minutes priced by one rule; `rule` is the rule's label. */
  datatype Segment = Segment(from: int, to: int, rule: Option<string>, rate: int, minutes: int)

  datatype Session = Session(
    cafe: nat, pc: nat,
    startedAt: int, expiresAt: int, endedAt: Option<int>,
    planned: int, extended: int,
    price: int, breakdown: seq<Segment>,
    status: Status, origin: Origin, idempotencyKey: Option<string>)

  datatype Happening =
    | Started(planned: int, price: Option<int>)
    | Extension(minutes: int, delta: Option<int>)
    | EndOf
    | CancelOf
    | PauseOf
    | ResumeOf
    | ExpiryOf(expiresAt: int)

  datatype SessionEvent = SessionEvent(session: nat, what: Happening, at: int)

  datatype OfflineRow = OfflineRow(
    cafe: nat, pc: nat, seqNo: nat, etype: EventType, occurredAt: int, payload: Payload,
    state: Verdict, reason: Option<Reason>, session: Option<nat>)

  /** The server's tables: `sessions`, `session_events` and `offline_events`. */
  datatype Server = Server(sessions: seq<Session>, log: seq<SessionEvent>, offline: map<nat, OfflineRow>)
}
