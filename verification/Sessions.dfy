/** The replicated state machine: Client Sessions and key-value data, as in
    internal/node/session.go and internal/node/snapshot.go. */
module Sessions {
  import opened Types

  datatype Failure = Succeeded | LimitReached | Unknown | Closed | AlreadyExists | StaleSequence | OutOfOrderSequence

  datatype Record = Record(closed: bool, lastSequence: nat, lastResult: Failure, lastExisted: bool)

  datatype Machine = Machine(limit: int, active: int, sessions: map<SessionId, Record>, values: map<Bytes, Bytes>)

  /** What a Client is told about its command. */
  datatype Reply = Reply(session: SessionId, failure: Failure, sequence: nat, want: nat, existed: bool)

  function Empty(limit: int): Machine { Machine(limit, 0, map[], map[]) }

  /** A mutation takes effect only as the next sequence of an open session. */
  predicate Effective(m: Machine, e: Entry) {
    match e.kind
    case NoOp => false
    case OpenSession => e.session !in m.sessions && m.active < m.limit
    case CloseSession => e.session in m.sessions && !m.sessions[e.session].closed
    case SetKey => IsNext(m, e)
    case DeleteKey => IsNext(m, e)
  }

  predicate IsNext(m: Machine, e: Entry) {
    && e.session in m.sessions && !m.sessions[e.session].closed
    && e.sequence == m.sessions[e.session].lastSequence + 1
  }

  function Apply(m: Machine, e: Entry): Machine {
    if !Effective(m, e) then m
    else
      match e.kind
      case NoOp => m
      case OpenSession =>
        m.(sessions := m.sessions[e.session := Record(false, 0, Succeeded, false)], active := m.active + 1)
      case CloseSession =>
        m.(sessions := m.sessions[e.session := m.sessions[e.session].(closed := true)], active := m.active - 1)
      case SetKey =>
        m.(sessions := m.sessions[e.session := Record(false, e.sequence, Succeeded, false)],
           values := m.values[e.key := e.value])
      case DeleteKey =>
        m.(sessions := m.sessions[e.session := Record(false, e.sequence, Succeeded, e.key in m.values)],
           values := m.values - {e.key})
  }

  /** The state after applying a whole log in order. */
  function Replay(m: Machine, log: seq<Entry>): Machine
    decreases |log|
  {
    if log == [] then m else Apply(Replay(m, log[..|log| - 1]), log[|log| - 1])
  }

  // ------------------------------------------------------------------------ replies

  predicate Mutates(e: Entry) { e.kind == SetKey || e.kind == DeleteKey }

  /** Why a mutation is not the next one, or what the latest one was told. */
  function Evaluate(m: Machine, session: SessionId, sequence: nat): Reply {
    if session !in m.sessions then Reply(session, Unknown, sequence, 0, false)
    else
      var record := m.sessions[session];
      if record.closed then Reply(session, Closed, sequence, 0, false)
      else if sequence == record.lastSequence && sequence != 0 then Reply(session, record.lastResult, sequence, 0, record.lastExisted)
      else if sequence < record.lastSequence then Reply(session, StaleSequence, sequence, record.lastSequence, false)
      else if sequence != record.lastSequence + 1 then Reply(session, OutOfOrderSequence, sequence, record.lastSequence + 1, false)
      else Reply(session, Succeeded, sequence, 0, false)
  }

  function ReplyTo(m: Machine, e: Entry): Reply {
    var plain := Reply(e.session, Succeeded, 0, 0, false);
    match e.kind
    case NoOp => plain
    case OpenSession =>
      if e.session in m.sessions then plain.(failure := AlreadyExists)
      else if m.active >= m.limit then plain.(failure := LimitReached)
      else plain
    case CloseSession =>
      if e.session !in m.sessions then plain.(failure := Unknown)
      else if m.sessions[e.session].closed then plain.(failure := Closed)
      else plain
    case SetKey => Evaluate(m, e.session, e.sequence)
    case DeleteKey =>
      if IsNext(m, e) then Evaluate(m, e.session, e.sequence).(existed := e.key in m.values) else Evaluate(m, e.session, e.sequence)
  }
}
