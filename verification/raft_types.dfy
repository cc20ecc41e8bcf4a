/** The values Raft servers exchange and store. */
module RaftTypes {
  import Bytes

  type Id = nat
  type Byte = Bytes.Byte

  /** One log entry, as carried on the wire and in the write-ahead log. */
  datatype Entry = Entry(index: nat, term: nat, data: seq<Byte>)

  datatype Option<+T> = None | Some(value: T)

  datatype Role = Follower | Candidate | Leader

  /** A state-machine snapshot through `index`: its bytes `raw`, and in `image` the entries
      applied when they were taken, which no code reads; index 0 means "no snapshot". */
  datatype Snap = Snap(index: nat, term: nat, image: seq<Entry>, raw: seq<Byte>)

  const NO_SNAP := Snap(0, 0, [], [])

  /** The persisted vote that means "none this term"; server ids start at 1. */
  const NO_VOTE: nat := 0

  datatype VoteRequest = VoteRequest(term: nat, candidate: Id, lastIndex: nat, lastTerm: nat, preVote: bool)

  datatype VoteResponse = VoteResponse(term: nat, granted: bool)

  datatype AppendRequest = AppendRequest(
    term: nat, leader: Id, prevIndex: nat, prevTerm: nat, entries: seq<Entry>, leaderCommit: nat)

  datatype AppendResponse = AppendResponse(term: nat, success: bool, conflictIndex: nat, conflictTerm: nat)

  datatype SnapRequest = SnapRequest(term: nat, leader: Id, snap: Snap)

  datatype SnapResponse = SnapResponse(term: nat)
}
