/** The session machine as the object the runtime loop owns, and how it is saved
    to a Snapshot and restored from one. */
module SessionStore {
  import opened Types
  import opened Sessions
  import opened AtMostOnce
  import Machines

  // ------------------------------------------------------------------- saved sessions

  /** One session in a Snapshot; the result is stored as a number. */
  datatype Saved = Saved(id: SessionId, closed: bool, lastSequence: nat, lastResult: nat, lastExisted: bool)

  function Code(f: Failure): nat {
    match f
    case Succeeded => 0
    case LimitReached => 1
    case Unknown => 2
    case Closed => 3
    case AlreadyExists => 4
    case StaleSequence => 5
    case OutOfOrderSequence => 6
  }

  /** The failure with that number; callers refuse numbers above 6 first. */
  function Decode(n: nat): Failure {
    match n
    case 0 => Succeeded
    case 1 => LimitReached
    case 2 => Unknown
    case 3 => Closed
    case 4 => AlreadyExists
    case 5 => StaleSequence
    case _ => OutOfOrderSequence
  }

  function Save(id: SessionId, r: Record): Saved { Saved(id, r.closed, r.lastSequence, Code(r.lastResult), r.lastExisted) }

  function Load(s: Saved): Record { Record(s.closed, s.lastSequence, Decode(s.lastResult), s.lastExisted) }

  lemma LoadSaved(id: SessionId, r: Record)
    ensures Load(Save(id, r)) == r && Save(id, r).lastResult <= 6
  {
  }

  // ---------------------------------------------------------------------- byte order

  /** bytes.Compare(a, b) < 0. */
  predicate Before(a: Bytes, b: Bytes)
    decreases |a|
  {
    if b == [] then false
    else if a == [] then true
    else a[0] < b[0] || (a[0] == b[0] && Before(a[1..], b[1..]))
  }

  lemma {:induction false} BeforeTrichotomy(a: Bytes, b: Bytes)
    ensures Before(a, b) || Before(b, a) || a == b
    ensures !(Before(a, b) && Before(b, a)) && !Before(a, a)
    decreases |a|
  {
    if a != [] {
      if b != [] {
        BeforeTrichotomy(a[1..], b[1..]);
        assert a == [a[0]] + a[1..] && b == [b[0]] + b[1..];
      }
      BeforeTrichotomy(a[1..], a[1..]);
    }
  }

  lemma {:induction false} BeforeTransitive(a: Bytes, b: Bytes, c: Bytes)
    requires Before(a, b) && Before(b, c)
    ensures Before(a, c)
    decreases |a|
  {
    if a != [] && a[0] == b[0] && b[0] == c[0] {
      BeforeTransitive(a[1..], b[1..], c[1..]);
    }
  }

  predicate Ordered(list: seq<Saved>) {
    forall i, j :: 0 <= i < j < |list| ==> Before(list[i].id, list[j].id)
  }

  function Ids(list: seq<Saved>): set<SessionId> { set i | 0 <= i < |list| :: list[i].id }

  predicate Describes(list: seq<Saved>, sessions: map<SessionId, Record>) {
    forall i :: 0 <= i < |list| ==> list[i].id in sessions && list[i] == Save(list[i].id, sessions[list[i].id])
  }

  /** The list is the Snapshot's account of the sessions: each once, in byte order. */
  predicate Lists(list: seq<Saved>, sessions: map<SessionId, Record>) {
    Ordered(list) && Describes(list, sessions) && Ids(list) == sessions.Keys
  }

  /** The place of a session in an ordered list. */
  method Place(list: seq<Saved>, id: SessionId) returns (k: nat)
    requires Ordered(list) && id !in Ids(list)
    ensures k <= |list|
    ensures forall i :: 0 <= i < k ==> Before(list[i].id, id)
    ensures forall i :: k <= i < |list| ==> Before(id, list[i].id)
  {
    k := 0;
    while k < |list| && Before(list[k].id, id)
      invariant k <= |list|
      invariant forall i :: 0 <= i < k ==> Before(list[i].id, id)
    {
      k := k + 1;
    }
    if k < |list| {
      BeforeTrichotomy(list[k].id, id);
      assert list[k].id in Ids(list);
      forall i | k <= i < |list| ensures Before(id, list[i].id) {
        if i > k { BeforeTransitive(id, list[k].id, list[i].id); }
      }
    }
  }

  lemma Inserted(list: seq<Saved>, k: nat, s: Saved, sessions: map<SessionId, Record>)
    requires k <= |list| && Ordered(list) && Describes(list, sessions)
    requires forall i :: 0 <= i < k ==> Before(list[i].id, s.id)
    requires forall i :: k <= i < |list| ==> Before(s.id, list[i].id)
    requires s.id in sessions && s == Save(s.id, sessions[s.id])
    ensures var list' := list[..k] + [s] + list[k..];
            Ordered(list') && Describes(list', sessions) && Ids(list') == Ids(list) + {s.id}
  {
    var list' := list[..k] + [s] + list[k..];
    assert list'[k] == s;
    forall i | 0 <= i < |list| ensures list[i].id in Ids(list') {
      assert list'[if i < k then i else i + 1] == list[i];
    }
    assert s.id in Ids(list');
  }

  /** All sessions in byte order, collected in whatever order the map yields them. */
  method Collect(sessions: map<SessionId, Record>) returns (list: seq<Saved>)
    ensures Lists(list, sessions)
  {
    list := [];
    var rest := sessions.Keys;
    while rest != {}
      invariant rest <= sessions.Keys
      invariant Ordered(list) && Describes(list, sessions) && Ids(list) == sessions.Keys - rest
      decreases |rest|
    {
      var id :| id in rest;
      var k := Place(list, id);
      Inserted(list, k, Save(id, sessions[id]), sessions);
      list := list[..k] + [Save(id, sessions[id])] + list[k..];
      rest := rest - {id};
    }
  }

  /** A Snapshot of the sessions is canonical: whatever the map order, there is one. */
  lemma {:induction false} OneListing(a: seq<Saved>, b: seq<Saved>, sessions: map<SessionId, Record>)
    requires Lists(a, sessions) && Lists(b, sessions)
    ensures a == b
    decreases |a|
  {
    FirstListed(a, b, sessions);
    FirstListed(b, a, sessions);
    if a != [] {
      BeforeTrichotomy(a[0].id, b[0].id);
      TailLists(a, sessions);
      TailLists(b, sessions);
      OneListing(a[1..], b[1..], sessions - {a[0].id});
      assert a == [a[0]] + a[1..] && b == [b[0]] + b[1..];
    }
  }

  /** The first session of one listing is nowhere before the first of another. */
  lemma FirstListed(a: seq<Saved>, b: seq<Saved>, sessions: map<SessionId, Record>)
    requires Lists(a, sessions) && Lists(b, sessions)
    ensures a != [] ==> b != [] && (a[0].id == b[0].id || Before(b[0].id, a[0].id))
  {
    if a != [] {
      assert a[0].id in Ids(a);
      var j :| 0 <= j < |b| && b[j].id == a[0].id;
    }
  }

  lemma TailLists(list: seq<Saved>, sessions: map<SessionId, Record>)
    requires list != [] && Lists(list, sessions)
    ensures Lists(list[1..], sessions - {list[0].id})
  {
    var tail, fewer := list[1..], sessions - {list[0].id};
    forall i | 0 <= i < |tail| ensures tail[i].id in Ids(list) && tail[i].id != list[0].id {
      assert tail[i] == list[i + 1];
      BeforeTrichotomy(list[0].id, list[i + 1].id);
    }
    forall id | id in fewer ensures id in Ids(tail) {
      assert id in Ids(list);
      var i :| 0 <= i < |list| && list[i].id == id;
      assert tail[i - 1] == list[i];
    }
    assert Ids(tail) == fewer.Keys;
  }

  // ----------------------------------------------------------------------- restoring

  /** Put one saved session back, counting it when it is open. */
  function Put(m: Machine, s: Saved): Machine {
    m.(sessions := m.sessions[s.id := Load(s)], active := if s.closed then m.active else m.active + 1)
  }

  /** Put sessions back in order; stop at the first with an unknown result, and
      report in the end whether the limit allows them all. */
  function Refill(m: Machine, list: seq<Saved>): (Machine, bool)
    decreases |list|
  {
    if list == [] then (m, m.active <= m.limit)
    else if list[0].lastResult > 6 then (m, false)
    else Refill(Put(m, list[0]), list[1..])
  }

  function Restore(limit: int, values: map<Bytes, Bytes>, list: seq<Saved>): (Machine, bool) {
    Refill(Machine(limit, 0, map[], values), list)
  }

  lemma SetMinus(s: set<SessionId>, id: SessionId)
    ensures |s| == |s - {id}| + if id in s then 1 else 0
  {
    if id in s { assert s == (s - {id}) + {id}; } else { assert s == s - {id}; }
  }

  function OpenOf(sessions: map<SessionId, Record>): set<SessionId> { Open(Machine(0, 0, sessions, map[])) }

  /** Taking one session out of the saved ones. */
  lemma OneFewer(sessions: map<SessionId, Record>, id: SessionId)
    requires id in sessions
    ensures |OpenOf(sessions)| == |OpenOf(sessions - {id})| + if sessions[id].closed then 0 else 1
  {
    assert OpenOf(sessions - {id}) == OpenOf(sessions) - {id};
    SetMinus(OpenOf(sessions), id);
  }

  lemma MovedOver(held: map<SessionId, Record>, sessions: map<SessionId, Record>, id: SessionId)
    requires id in sessions && sessions.Keys !! held.Keys
    ensures held[id := sessions[id]] + (sessions - {id}) == held + sessions
    ensures (sessions - {id}).Keys !! held[id := sessions[id]].Keys
  {
  }

  /** Refilling from a listing of sessions the machine does not yet hold. */
  lemma {:induction false} RefillListing(m: Machine, list: seq<Saved>, sessions: map<SessionId, Record>)
    requires Lists(list, sessions) && sessions.Keys !! m.sessions.Keys
    ensures var active := m.active + |OpenOf(sessions)|;
            Refill(m, list) == (m.(sessions := m.sessions + sessions, active := active), active <= m.limit)
    decreases |list|, 1
  {
    if list == [] {
      assert sessions.Keys == {};
      assert sessions == map[] && m.sessions + sessions == m.sessions && OpenOf(sessions) == {};
    } else {
      var id := list[0].id;
      FirstSaved(list, sessions);
      TailLists(list, sessions);
      RefillStep(m, list, sessions, id);
    }
  }

  lemma {:induction false} RefillStep(m: Machine, list: seq<Saved>, sessions: map<SessionId, Record>, id: SessionId)
    requires list != [] && id in sessions && list[0] == Save(id, sessions[id]) && sessions.Keys !! m.sessions.Keys
    requires Lists(list[1..], sessions - {id})
    ensures var active := m.active + |OpenOf(sessions)|;
            Refill(m, list) == (m.(sessions := m.sessions + sessions, active := active), active <= m.limit)
    decreases |list|, 0
  {
    hide Lists, OpenOf;
    LoadSaved(id, sessions[id]);
    MovedOver(m.sessions, sessions, id);
    OneFewer(sessions, id);
    RefillListing(Put(m, list[0]), list[1..], sessions - {id});
  }

  lemma FirstSaved(list: seq<Saved>, sessions: map<SessionId, Record>)
    requires list != [] && Lists(list, sessions)
    ensures list[0].id in sessions && list[0] == Save(list[0].id, sessions[list[0].id])
  {
  }

  /** A Snapshot of any machine can be restored under any limit exactly when that
      limit has room for its open sessions, and then nothing of it is lost. */
  lemma RestoreIff(m: Machine, list: seq<Saved>, limit: int)
    requires Lists(list, m.sessions)
    ensures Restore(limit, m.values, list).1 <==> |Open(m)| <= limit
    ensures Restore(limit, m.values, list).0 == Machine(limit, |Open(m)|, m.sessions, m.values)
  {
    RefillListing(Machine(limit, 0, map[], m.values), list, m.sessions);
    assert map[] + m.sessions == m.sessions;
    SameOpen(m, Machine(0, 0, m.sessions, map[]));
  }

  /** Restoring a Snapshot of an applied prefix and applying the rest is the same
      as applying everything. */
  lemma SnapshotThenSuffix(limit: int, prefix: seq<Entry>, suffix: seq<Entry>, list: seq<Saved>)
    requires 0 <= limit && Lists(list, Replay(Empty(limit), prefix).sessions)
    ensures var restored := Restore(limit, Replay(Empty(limit), prefix).values, list);
            restored.1 && Replay(restored.0, suffix) == Replay(Empty(limit), prefix + suffix)
  {
    var m := Replay(Empty(limit), prefix);
    EmptyCounted(limit);
    ReplayCounted(Empty(limit), prefix);
    LimitKept(Empty(limit), prefix);
    RestoreIff(m, list, limit);
    Machines.ReplayConcat(Empty(limit), prefix, suffix);
  }

  lemma {:induction false} LimitKept(m: Machine, log: seq<Entry>)
    ensures Replay(m, log).limit == m.limit
    decreases |log|
  {
    if log != [] { LimitKept(m, log[..|log| - 1]); }
  }

  // ----------------------------------------------------------------------- the object

  class SessionMachine {
    const limit: int
    var active: int
    var sessions: map<SessionId, Record>
    var values: map<Bytes, Bytes>

    function Value(): Machine
      reads this
    {
      Machine(limit, active, sessions, values)
    }

    constructor (limit: int)
      ensures Value() == Empty(limit)
    {
      this.limit := limit;
      active, sessions, values := 0, map[], map[];
    }

    /** Whether a mutation is the next to apply, and what to answer if it is not. */
    method EvaluateMutation(session: SessionId, sequence: nat) returns (reply: Reply, next: bool)
      ensures reply == Evaluate(Value(), session, sequence)
      ensures next <==> session in sessions && !sessions[session].closed && sequence == sessions[session].lastSequence + 1
    {
      reply, next := Reply(session, Succeeded, sequence, 0, false), false;
      if session !in sessions {
        reply := reply.(failure := Unknown);
        return;
      }
      var record := sessions[session];
      if record.closed {
        reply := reply.(failure := Closed);
      } else if sequence == record.lastSequence && sequence != 0 {
        reply := reply.(failure := record.lastResult, existed := record.lastExisted);
      } else if sequence < record.lastSequence {
        reply := reply.(failure := StaleSequence, want := record.lastSequence);
      } else if sequence != record.lastSequence + 1 {
        reply := reply.(failure := OutOfOrderSequence, want := record.lastSequence + 1);
      } else {
        next := true;
      }
    }

    /** Apply one committed entry. */
    method ApplyEntry(e: Entry) returns (reply: Reply)
      modifies this
      ensures Value() == Apply(old(Value()), e)
      ensures reply == ReplyTo(old(Value()), e)
    {
      reply := Reply(e.session, Succeeded, 0, 0, false);
      match e.kind
      case NoOp =>
      case OpenSession =>
        if e.session in sessions {
          reply := reply.(failure := AlreadyExists);
        } else if active >= limit {
          reply := reply.(failure := LimitReached);
        } else {
          sessions := sessions[e.session := Record(false, 0, Succeeded, false)];
          active := active + 1;
        }
      case CloseSession =>
        if e.session !in sessions {
          reply := reply.(failure := Unknown);
        } else if sessions[e.session].closed {
          reply := reply.(failure := Closed);
        } else {
          sessions := sessions[e.session := sessions[e.session].(closed := true)];
          active := active - 1;
        }
      case SetKey =>
        var next;
        reply, next := EvaluateMutation(e.session, e.sequence);
        if next {
          values := values[e.key := e.value];
          Remember(e, reply);
        }
      case DeleteKey =>
        var next;
        reply, next := EvaluateMutation(e.session, e.sequence);
        if next {
          reply := reply.(existed := e.key in values);
          values := values - {e.key};
          Remember(e, reply);
        }
    }

    /** Remember a mutation's answer for its retries. */
    method Remember(e: Entry, reply: Reply)
      requires e.session in sessions
      modifies this`sessions
      ensures sessions == old(sessions)[e.session := Record(old(sessions)[e.session].closed, e.sequence, reply.failure, reply.existed)]
    {
      var record := sessions[e.session];
      sessions := sessions[e.session := record.(lastSequence := e.sequence, lastResult := reply.failure, lastExisted := reply.existed)];
    }

    /** Look up a key. */
    method Read(key: Bytes) returns (value: Bytes, found: bool)
      ensures found <==> key in values
      ensures value == if found then values[key] else []
    {
      found := key in values;
      value := if found then values[key] else [];
    }

    /** Save the whole state. */
    method Snapshot() returns (saved: map<Bytes, Bytes>, list: seq<Saved>)
      ensures saved == values && Lists(list, sessions)
    {
      saved := values;
      list := Collect(sessions);
    }

    /** Replace the state by a saved one. */
    method RestoreFrom(saved: map<Bytes, Bytes>, list: seq<Saved>) returns (ok: bool)
      modifies this
      ensures (Value(), ok) == Restore(limit, saved, list)
    {
      active, sessions, values := 0, map[], saved;
      var i := 0;
      while i < |list|
        invariant i <= |list|
        invariant Restore(limit, saved, list) == Refill(Value(), list[i..])
      {
        var s := list[i];
        assert list[i..][0] == s && list[i..][1..] == list[i + 1..];
        if s.lastResult > 6 { return false; }
        if !s.closed { active := active + 1; }
        sessions := sessions[s.id := Load(s)];
        i := i + 1;
      }
      return active <= limit;
    }
  }
}
