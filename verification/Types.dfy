/** The vocabulary of the consensus core: log entries, messages, inputs and
    effects, as declared at the top of internal/raft/raft.go. Unsigned 64-bit
    counters are natural numbers; no overflow is modelled. */
module Types {

  /** A Node identity. The empty string stands for "no Node", as in the core. */
  type NodeId = string

  type byte = x: int | 0 <= x < 256
  type Bytes = seq<byte>

  /** The replicated identity of one Client Session. */
  type SessionId = s: Bytes | |s| == 16 witness [0, 0, 0, 0, 0, 0, 0, 0, 0, 0, 0, 0, 0, 0, 0, 0]

  const NO_SESSION: SessionId := [0, 0, 0, 0, 0, 0, 0, 0, 0, 0, 0, 0, 0, 0, 0, 0]

  datatype EntryKind = NoOp | OpenSession | CloseSession | SetKey | DeleteKey

  datatype Entry = Entry(
    index: nat, term: nat, kind: EntryKind,
    session: SessionId, sequence: nat, key: Bytes, value: Bytes)

  /** The entry a new Leader puts first. */
  function NoOpAt(index: nat, term: nat): Entry { Entry(index, term, NoOp, NO_SESSION, 0, [], []) }

  /** Entry i of a complete log sits at index i + 1. */
  predicate WellIndexed(log: seq<Entry>, base: nat) {
    forall i :: 0 <= i < |log| ==> log[i].index == base + i + 1
  }

  /** The two logs have the same first n entries. */
  predicate Shares(left: seq<Entry>, right: seq<Entry>, n: nat) {
    n <= |left| && n <= |right| && left[..n] == right[..n]
  }

  /** The Term at an index of a complete log, 0 at index 0. */
  function TermOf(log: seq<Entry>, index: nat): nat
    requires index <= |log|
  {
    if index == 0 then 0 else log[index - 1].term
  }

  function Min(a: nat, b: nat): nat { if a <= b then a else b }

  function Max(a: nat, b: nat): nat { if a <= b then b else a }

  function Get<K, V>(m: map<K, V>, k: K, default: V): V {
    if k in m then m[k] else default
  }
}
