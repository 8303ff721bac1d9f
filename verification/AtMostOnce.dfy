/** At-most-once effect: what a log does to the replicated state machine, however
    often Clients retry and in whatever order their commands were committed. */
module AtMostOnce {
  import opened Types
  import opened Sessions

  // --------------------------------------------------------------- counting sessions

  function Open(m: Machine): set<SessionId> { set s | s in m.sessions && !m.sessions[s].closed }

  /** The counter is the number of open sessions and respects the limit. */
  predicate Counted(m: Machine) { m.active == |Open(m)| && m.active <= m.limit }

  /** How writing one record changes the set of open sessions. */
  lemma OpenAfter(m: Machine, session: SessionId, record: Record)
    ensures var m' := m.(sessions := m.sessions[session := record]);
            Open(m') == if record.closed then Open(m) - {session} else Open(m) + {session}
  {
  }

  lemma ApplyCounted(m: Machine, e: Entry)
    requires Counted(m)
    ensures Counted(Apply(m, e))
  {
    hide Open;
    if Effective(m, e) && e.kind != NoOp {
      var m' := Apply(m, e);
      var record := m'.sessions[e.session];
      OpenAfter(m, e.session, record);
      SameOpen(m', m.(sessions := m.sessions[e.session := record]));
      OpenIff(m, e.session);
    }
  }

  lemma SameOpen(m: Machine, n: Machine)
    requires m.sessions == n.sessions
    ensures Open(m) == Open(n)
  {
  }

  lemma OpenIff(m: Machine, session: SessionId)
    ensures session in Open(m) <==> session in m.sessions && !m.sessions[session].closed
  {
  }

  lemma {:induction false} ReplayCounted(m: Machine, log: seq<Entry>)
    requires Counted(m)
    ensures Counted(Replay(m, log))
    decreases |log|
  {
    if log != [] {
      ReplayCounted(m, log[..|log| - 1]);
      ApplyCounted(Replay(m, log[..|log| - 1]), log[|log| - 1]);
    }
  }

  lemma EmptyCounted(limit: int)
    requires 0 <= limit
    ensures Counted(Empty(limit))
  {
    assert Open(Empty(limit)) == {};
  }

  // ------------------------------------------------------- each sequence exactly once

  /** The sequences of one session's mutations that took effect, in log order. */
  function Effects(m: Machine, log: seq<Entry>, session: SessionId): seq<nat>
    decreases |log|
  {
    if log == [] then []
    else
      var init, last := log[..|log| - 1], log[|log| - 1];
      Effects(m, init, session)
        + if last.session == session && Mutates(last) && Effective(Replay(m, init), last) then [last.sequence] else []
  }

  function LastSequence(m: Machine, session: SessionId): nat {
    if session in m.sessions then m.sessions[session].lastSequence else 0
  }

  function UpTo(n: nat): seq<nat> { seq(n, i => i + 1) }

  lemma UpToNext(n: nat)
    ensures UpTo(n + 1) == UpTo(n) + [n + 1]
  {
  }

  lemma SequenceAfter(m: Machine, e: Entry, session: SessionId)
    ensures var counts := e.session == session && Mutates(e) && Effective(m, e);
            && LastSequence(Apply(m, e), session) == LastSequence(m, session) + (if counts then 1 else 0)
            && (counts ==> e.sequence == LastSequence(m, session) + 1)
  {
  }

  /** In every log each session's effective mutations are exactly the sequences
      1, 2, ..., lastSequence, each once and in that order. */
  lemma {:induction false} EffectsInOrder(limit: int, log: seq<Entry>, session: SessionId)
    ensures Effects(Empty(limit), log, session) == UpTo(LastSequence(Replay(Empty(limit), log), session))
    decreases |log|
  {
    hide LastSequence, UpTo, Apply, Effective;
    if log == [] {
      NothingYet(limit, session);
    } else {
      var init, last := log[..|log| - 1], log[|log| - 1];
      EffectsInOrder(limit, init, session);
      SequenceAfter(Replay(Empty(limit), init), last, session);
      UpToNext(LastSequence(Replay(Empty(limit), init), session));
    }
  }

  lemma NothingYet(limit: int, session: SessionId)
    ensures UpTo(LastSequence(Empty(limit), session)) == []
  {
  }

  // -------------------------------------------------------------- ineffective entries

  /** The entries that took effect. */
  function Effectual(m: Machine, log: seq<Entry>): seq<Entry>
    decreases |log|
  {
    if log == [] then []
    else
      var init, last := log[..|log| - 1], log[|log| - 1];
      Effectual(m, init) + if Effective(Replay(m, init), last) then [last] else []
  }

  /** Deleting every entry without effect leaves the final state as it was. */
  lemma {:induction false} IneffectiveInvisible(m: Machine, log: seq<Entry>)
    ensures Replay(m, Effectual(m, log)) == Replay(m, log)
    decreases |log|
  {
    if log != [] {
      var init, last := log[..|log| - 1], log[|log| - 1];
      IneffectiveInvisible(m, init);
      if Effective(Replay(m, init), last) {
        assert (Effectual(m, init) + [last])[..|Effectual(m, init)|] == Effectual(m, init);
      } else {
        assert Effectual(m, init) + [] == Effectual(m, init);
      }
    }
  }

  // ---------------------------------------------------------------------------- reads

  /** The position after the last effective mutation of a key, 0 when there is none. */
  function LastWrite(m: Machine, log: seq<Entry>, key: Bytes): (i: nat)
    ensures i <= |log|
    decreases |log|
  {
    if log == [] then 0
    else
      var init, last := log[..|log| - 1], log[|log| - 1];
      if last.key == key && Mutates(last) && Effective(Replay(m, init), last) then |log| else LastWrite(m, init, key)
  }

  lemma OtherKey(m: Machine, e: Entry, key: Bytes)
    requires !(e.key == key && Mutates(e) && Effective(m, e))
    ensures var m' := Apply(m, e);
            (key in m'.values <==> key in m.values) && (key in m.values ==> m'.values[key] == m.values[key])
  {
  }

  /** After any log a lookup finds what the key's last effective mutation left: its
      value if that was a Set, nothing if it was a Delete, and what was there
      before the log if there was none. */
  lemma {:induction false} ReadsLastWrite(m: Machine, log: seq<Entry>, key: Bytes)
    ensures var i, v := LastWrite(m, log, key), Replay(m, log).values;
            if i == 0 then (key in v <==> key in m.values) && (key in v ==> v[key] == m.values[key])
            else if log[i - 1].kind == SetKey then key in v && v[key] == log[i - 1].value
            else key !in v
    decreases |log|
  {
    hide Effective;
    if log != [] {
      var init, last := log[..|log| - 1], log[|log| - 1];
      var before := Replay(m, init);
      ReadsLastWrite(m, init, key);
      if last.key == key && Mutates(last) && Effective(before, last) {
        Written(before, last);
      } else {
        OtherKey(before, last, key);
      }
    }
  }

  lemma Written(m: Machine, e: Entry)
    requires Mutates(e) && Effective(m, e)
    ensures var v := Apply(m, e).values;
            if e.kind == SetKey then e.key in v && v[e.key] == e.value else e.key !in v
  {
  }

  // -------------------------------------------------------------------------- retries

  predicate SameBut(a: Record, b: Record) { b == a.(closed := b.closed) }

  lemma RecordKept(m: Machine, e: Entry, session: SessionId)
    requires session in m.sessions
    ensures var m' := Apply(m, e);
            && session in m'.sessions && m.sessions[session].lastSequence <= m'.sessions[session].lastSequence
            && (m'.sessions[session].lastSequence == m.sessions[session].lastSequence ==> SameBut(m.sessions[session], m'.sessions[session]))
  {
  }

  /** A session's cached answer lasts as long as its last sequence. */
  lemma {:induction false} AnswerKept(m: Machine, log: seq<Entry>, session: SessionId)
    requires session in m.sessions
    ensures var m' := Replay(m, log);
            && session in m'.sessions && m.sessions[session].lastSequence <= m'.sessions[session].lastSequence
            && (m'.sessions[session].lastSequence == m.sessions[session].lastSequence ==> SameBut(m.sessions[session], m'.sessions[session]))
    decreases |log|
  {
    if log != [] {
      AnswerKept(m, log[..|log| - 1], session);
      RecordKept(Replay(m, log[..|log| - 1]), log[|log| - 1], session);
    }
  }

  /** However much was applied in between, a retry of the session's latest
      mutation changes nothing and is told what the original was told, even if
      the retry carries other data. */
  lemma RetryAnswered(m: Machine, e: Entry, between: seq<Entry>, retry: Entry)
    requires Mutates(e) && Effective(m, e) && Mutates(retry) && retry.session == e.session && retry.sequence == e.sequence
    requires var m' := Replay(Apply(m, e), between); LastSequence(m', e.session) == e.sequence && !m'.sessions[e.session].closed
    ensures var m' := Replay(Apply(m, e), between);
            Apply(m', retry) == m' && ReplyTo(m', retry) == ReplyTo(m, e)
  {
    AnswerKept(Apply(m, e), between, e.session);
  }

  /** Nothing that is told a failure has an effect, and everything that takes
      effect is told so. */
  lemma RepliesHonest(m: Machine, e: Entry)
    requires forall s :: s in m.sessions ==> m.sessions[s].lastResult == Succeeded
    ensures ReplyTo(m, e).failure != Succeeded ==> Apply(m, e) == m
    ensures Effective(m, e) ==> ReplyTo(m, e).failure == Succeeded
    ensures forall s :: s in Apply(m, e).sessions ==> Apply(m, e).sessions[s].lastResult == Succeeded
  {
  }

  // -------------------------------------------------------------- the reference model

  /** The simple state machine the simulator compares Nodes with. */
  datatype ModelSession = ModelSession(closed: bool, lastSequence: nat, deleteResult: bool)

  datatype Model = Model(values: map<Bytes, Bytes>, sessions: map<SessionId, ModelSession>)

  function ModelApply(m: Model, e: Entry): Model {
    match e.kind
    case NoOp => m
    case OpenSession =>
      if e.session in m.sessions then m else m.(sessions := m.sessions[e.session := ModelSession(false, 0, false)])
    case CloseSession =>
      if e.session in m.sessions && !m.sessions[e.session].closed
      then m.(sessions := m.sessions[e.session := m.sessions[e.session].(closed := true)]) else m
    case _ =>
      if e.session !in m.sessions || m.sessions[e.session].closed || e.sequence != m.sessions[e.session].lastSequence + 1 then m
      else
        var result := e.kind == DeleteKey && e.key in m.values;
        Model(if e.kind == SetKey then m.values[e.key := e.value] else m.values - {e.key},
              m.sessions[e.session := ModelSession(false, e.sequence, result)])
  }

  function ModelReplay(m: Model, log: seq<Entry>): Model
    decreases |log|
  {
    if log == [] then m else ModelApply(ModelReplay(m, log[..|log| - 1]), log[|log| - 1])
  }

  function ModelOf(m: Machine): Model {
    Model(m.values, map s | s in m.sessions :: ModelRecord(m.sessions[s]))
  }

  /** No session was turned away for the limit. */
  predicate NeverLimited(m: Machine, log: seq<Entry>)
    decreases |log|
  {
    log == [] ||
    (NeverLimited(m, log[..|log| - 1]) && ReplyTo(Replay(m, log[..|log| - 1]), log[|log| - 1]).failure != LimitReached)
  }

  function ModelRecord(r: Record): ModelSession { ModelSession(r.closed, r.lastSequence, r.lastExisted) }

  /** Writing one record on both sides. */
  lemma ModelUpdated(m: Machine, session: SessionId, record: Record, values: map<Bytes, Bytes>, active: int)
    ensures var m' := m.(sessions := m.sessions[session := record], values := values, active := active);
            ModelOf(m') == Model(values, ModelOf(m).sessions[session := ModelRecord(record)])
  {
    var m' := m.(sessions := m.sessions[session := record], values := values, active := active);
    assert ModelOf(m').sessions == ModelOf(m).sessions[session := ModelRecord(record)];
  }

  lemma ModelFacts(m: Machine, session: SessionId)
    ensures ModelOf(m).values == m.values
    ensures session in ModelOf(m).sessions <==> session in m.sessions
    ensures session in m.sessions ==> ModelOf(m).sessions[session] == ModelRecord(m.sessions[session])
  {
  }

  lemma ModelStep(m: Machine, e: Entry)
    requires ReplyTo(m, e).failure != LimitReached
    ensures ModelOf(Apply(m, e)) == ModelApply(ModelOf(m), e)
  {
    hide ModelOf;
    ModelFacts(m, e.session);
    if Effective(m, e) && e.kind != NoOp {
      var m' := Apply(m, e);
      ModelUpdated(m, e.session, m'.sessions[e.session], m'.values, m'.active);
    }
  }

  /** As long as the session limit turns nobody away, every log leaves the real
      machine where it leaves the reference model. */
  lemma {:induction false} AgreesWithModel(m: Machine, log: seq<Entry>)
    requires NeverLimited(m, log)
    ensures ModelOf(Replay(m, log)) == ModelReplay(ModelOf(m), log)
    decreases |log|
  {
    if log != [] {
      AgreesWithModel(m, log[..|log| - 1]);
      ModelStep(Replay(m, log[..|log| - 1]), log[|log| - 1]);
    }
  }
}
