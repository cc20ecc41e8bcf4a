/**
  The replicated key-value machine: what a command does, how a repeated request is
  recognised, and how the table of past requests is kept small.
*/
module KvMachine {
  import opened Bytes
  import opened RaftTypes
  import opened KvCommand

  const OP_GET: Byte := 1
  const OP_PUT: Byte := 2
  const OP_CAS: Byte := 3
  const OP_CHECKPOINT: Byte := 4

  const WINDOW := 128
  const HIGH_WATER := 16384
  const SWEEP_EVERY := 1024
  const WRAP := 0x1_0000_0000_0000_0000

  /** "_checkpoint/" */
  const CHECKPOINT_PREFIX: seq<Byte> := [0x5f, 0x63, 0x68, 0x65, 0x63, 0x6b, 0x70, 0x6f, 0x69, 0x6e, 0x74, 0x2f]

  type Data = map<seq<Byte>, seq<Byte>>

  datatype Result = Result(found: bool, value: seq<Byte>, duplicate: bool)

  datatype DedupKey = DedupKey(client: seq<Byte>, request: U64)

  /** The whole replicated state, and at the same time what a snapshot contains. */
  datatype State = State(data: Data, applied: map<DedupKey, Result>, maxReq: map<seq<Byte>, U64>, count: U64)

  const EMPTY := State(map[], map[], map[], 0)

  datatype Outcome = Outcome(state: State, result: Result)

  // ---------------------------------------------------------------------------
  // One command
  // ---------------------------------------------------------------------------

  /** The effect on the data, requests aside. */
  function Execute(d: Data, c: Command): (Data, Result)
  {
    if c.op == OP_GET then (d, Result(c.key in d, if c.key in d then d[c.key] else [], false))
    else if c.op == OP_PUT then (d[c.key := c.value], Result(true, if c.key in d then d[c.key] else [], false))
    else if c.op == OP_CAS then
      if c.key !in d then
        if c.expected != [] then (d, Result(false, [], false)) else (d[c.key := c.value], Result(true, [], false))
      else if d[c.key] == c.expected then (d[c.key := c.value], Result(true, d[c.key], false))
      else (d, Result(false, d[c.key], false))
    else if c.op == OP_CHECKPOINT then (d[CHECKPOINT_PREFIX + c.client := c.value], Result(true, c.value, false))
    else (d, Result(false, [], false))
  }

  /** The key a command may write. */
  function Target(c: Command): seq<Byte>
  {
    if c.op == OP_CHECKPOINT then CHECKPOINT_PREFIX + c.client else c.key
  }

  /** A missing key reads as empty. */
  function ValueAt(d: Data, k: seq<Byte>): seq<Byte> { if k in d then d[k] else [] }

  /** When a command writes: always for put and checkpoint, for compare-and-swap exactly if
      the key's value, empty if missing, is the expected one. */
  predicate Writes(d: Data, c: Command)
  {
    c.op == OP_PUT || c.op == OP_CHECKPOINT || (c.op == OP_CAS && ValueAt(d, c.key) == c.expected)
  }

  /** What the operations mean: a command writes its value to its target or nothing at all, and
      it reports success exactly if it wrote, or read a key that is there; get, put and swap
      also report what the key held before, a checkpoint what it stored, anything else nothing. */
  lemma ExecuteMeans(d: Data, c: Command)
    ensures var (d', r) := Execute(d, c);
      d' == (if Writes(d, c) then d[Target(c) := c.value] else d) &&
      (r.found <==> Writes(d, c) || (c.op == OP_GET && c.key in d)) &&
      r.value == (if c.op in {OP_GET, OP_PUT, OP_CAS} then ValueAt(d, c.key)
                  else if c.op == OP_CHECKPOINT then c.value else []) && !r.duplicate
  {
  }

  /** Commands without a client or a request number are not remembered. */
  predicate Tracked(c: Command) { c.client != [] && c.request != 0 }

  function Tag(c: Command): DedupKey { DedupKey(c.client, c.request) }

  function MaxOf(maxReq: map<seq<Byte>, U64>, client: seq<Byte>): U64
  {
    if client in maxReq then maxReq[client] else 0
  }

  /** More than a window behind; the sum is taken modulo 2^64. */
  predicate Stale(k: DedupKey, maxReq: map<seq<Byte>, U64>)
  {
    (k.request + WINDOW) % WRAP < MaxOf(maxReq, k.client)
  }

  function Swept(applied: map<DedupKey, Result>, maxReq: map<seq<Byte>, U64>): map<DedupKey, Result>
  {
    map k | k in applied && !Stale(k, maxReq) :: applied[k]
  }

  function Raised(maxReq: map<seq<Byte>, U64>, c: Command): map<seq<Byte>, U64>
  {
    if c.request > MaxOf(maxReq, c.client) then maxReq[c.client := c.request] else maxReq
  }

  /** Remember a request, and sweep if it is time to. */
  function Remember(s: State, c: Command, r: Result): State
  {
    var applied := s.applied[Tag(c) := r];
    var maxReq := Raised(s.maxReq, c);
    var count := (s.count + 1) % WRAP;
    var due := |applied| >= HIGH_WATER && count % SWEEP_EVERY == 0;
    State(s.data, if due then Swept(applied, maxReq) else applied, maxReq, count)
  }

  function Apply(s: State, c: Command): Outcome
  {
    if Tracked(c) && Tag(c) in s.applied then Outcome(s, s.applied[Tag(c)].(duplicate := true))
    else
      var (d, r) := Execute(s.data, c);
      var t := s.(data := d);
      Outcome(if Tracked(c) then Remember(t, c, r) else t, r)
  }

  /** A plain fold of `Apply`. */
  function Run(cs: seq<Command>): State
  {
    if cs == [] then EMPTY else Apply(Run(cs[..|cs| - 1]), cs[|cs| - 1]).state
  }

  lemma RunStep(cs: seq<Command>, k: nat)
    requires k < |cs|
    ensures Run(cs[..k + 1]) == Apply(Run(cs[..k]), cs[k]).state
  {
    assert cs[..k + 1][..k] == cs[..k];
  }

  // ---------------------------------------------------------------------------
  // What the table remembers
  // ---------------------------------------------------------------------------

  predicate SeenIn(cs: seq<Command>, k: DedupKey)
  {
    exists i :: 0 <= i < |cs| && Tracked(cs[i]) && Tag(cs[i]) == k
  }

  /** The highest request number a client has used, by looking at the commands alone. */
  function MaxSeen(cs: seq<Command>, client: seq<Byte>): U64
  {
    if cs == [] then 0
    else
      var m := MaxSeen(cs[..|cs| - 1], client);
      var c := cs[|cs| - 1];
      if Tracked(c) && c.client == client && c.request > m then c.request else m
  }

  lemma {:induction false} MaxSeenGrows(cs: seq<Command>, j: nat, k: nat, client: seq<Byte>)
    requires j <= k <= |cs|
    ensures MaxSeen(cs[..j], client) <= MaxSeen(cs[..k], client)
    decreases k
  {
    if j < k {
      MaxSeenGrows(cs, j, k - 1, client);
      assert cs[..k][..k - 1] == cs[..k - 1];
    }
  }

  lemma {:induction false} MaxSeenCovers(cs: seq<Command>, i: nat)
    requires i < |cs| && Tracked(cs[i])
    ensures cs[i].request <= MaxSeen(cs, cs[i].client)
    decreases |cs|
  {
    var n := |cs| - 1;
    if i < n { MaxSeenCovers(cs[..n], i); }
  }

  function MaxAfter(s: State, c: Command, client: seq<Byte>): U64
  {
    var m := MaxOf(s.maxReq, client);
    if Tracked(c) && Tag(c) !in s.applied && client == c.client && c.request > m then c.request else m
  }

  /** One command adds at most its own request to the table, and at most raises its maximum. */
  lemma ApplyTable(s: State, c: Command)
    ensures var t := Apply(s, c).state;
      forall k :: k in t.applied ==>
        ((k in s.applied && t.applied[k] == s.applied[k]) || (Tracked(c) && k == Tag(c) && !t.applied[k].duplicate))
    ensures forall client :: MaxOf(Apply(s, c).state.maxReq, client) == MaxAfter(s, c, client)
  {
    hide Stale;
  }

  ghost predicate TableOk(s: State, cs: seq<Command>)
  {
    (forall k :: k in s.applied ==> SeenIn(cs, k) && !s.applied[k].duplicate) &&
    (forall client :: MaxOf(s.maxReq, client) == MaxSeen(cs, client))
  }

  lemma SeenLater(cs: seq<Command>, k: DedupKey)
    requires cs != [] && (SeenIn(cs[..|cs| - 1], k) || (Tracked(cs[|cs| - 1]) && Tag(cs[|cs| - 1]) == k))
    ensures SeenIn(cs, k)
  {
    var init := cs[..|cs| - 1];
    if SeenIn(init, k) {
      var i :| 0 <= i < |init| && Tracked(init[i]) && Tag(init[i]) == k;
      assert cs[i] == init[i];
    }
  }

  lemma SeenIsCovered(cs: seq<Command>, k: DedupKey)
    requires SeenIn(cs, k)
    ensures k.request <= MaxSeen(cs, k.client)
  {
    var i :| 0 <= i < |cs| && Tracked(cs[i]) && Tag(cs[i]) == k;
    MaxSeenCovers(cs, i);
  }

  /** The table holds only requests that were made, and `maxReq` is the true maximum. */
  lemma {:induction false} TableSound(cs: seq<Command>)
    ensures TableOk(Run(cs), cs)
    decreases |cs|
  {
    hide Apply, SeenIn, MaxOf;
    if cs == [] {
      NothingSeen();
    } else {
      var n := |cs| - 1;
      var init, c := cs[..n], cs[n];
      TableSound(init);
      ApplyTable(Run(init), c);
      forall k | k in Run(cs).applied
        ensures SeenIn(cs, k) && !Run(cs).applied[k].duplicate
      {
        SeenLater(cs, k);
      }
      if Tracked(c) && Tag(c) in Run(init).applied {
        SeenIsCovered(init, Tag(c));
      }
    }
  }

  lemma NothingSeen()
    ensures TableOk(EMPTY, [])
  {
  }

  // ---------------------------------------------------------------------------
  // Exactly once
  // ---------------------------------------------------------------------------

  /** `i` is the first time its request appears. */
  ghost predicate FirstAt(cs: seq<Command>, i: nat)
  {
    i < |cs| && Tracked(cs[i]) && !SeenIn(cs[..i], Tag(cs[i]))
  }

  function ResultAt(cs: seq<Command>, i: nat): Result
    requires i < |cs|
  {
    Apply(Run(cs[..i]), cs[i]).result
  }

  /** An entry within the window survives the next command. */
  lemma KeepsFresh(s: State, c: Command, k: DedupKey)
    requires k in s.applied && k.request + WINDOW < WRAP
    requires k.request + WINDOW >= MaxOf(Apply(s, c).state.maxReq, k.client)
    ensures k in Apply(s, c).state.applied && Apply(s, c).state.applied[k] == s.applied[k]
  {
    if Tracked(c) && Tag(c) !in s.applied {
      var applied := s.applied[Tag(c) := Execute(s.data, c).1];
      assert !Stale(k, Raised(s.maxReq, c));
      assert k in Swept(applied, Raised(s.maxReq, c));
    }
  }

  lemma {:induction false} StaysRemembered(cs: seq<Command>, i: nat, k: nat)
    requires i < k <= |cs| && FirstAt(cs, i) && cs[i].request + WINDOW < WRAP
    requires cs[i].request + WINDOW >= MaxSeen(cs[..k], cs[i].client)
    ensures var s := Run(cs[..k]); Tag(cs[i]) in s.applied && s.applied[Tag(cs[i])] == ResultAt(cs, i)
    decreases k
  {
    hide Apply, SeenIn, Run;
    var t := Tag(cs[i]);
    MaxSeenGrows(cs, k - 1, k, cs[i].client);
    RunStep(cs, k - 1);
    TableSound(cs[..k]);
    if k == i + 1 {
      TableSound(cs[..i]);
      JustRemembered(Run(cs[..i]), cs[i]);
    } else {
      StaysRemembered(cs, i, k - 1);
      KeepsFresh(Run(cs[..k - 1]), cs[k - 1], t);
    }
  }

  lemma JustRemembered(s: State, c: Command)
    requires Tracked(c) && Tag(c) !in s.applied && c.request + WINDOW < WRAP
    requires c.request + WINDOW >= MaxOf(Apply(s, c).state.maxReq, c.client)
    ensures var o := Apply(s, c);
      Tag(c) in o.state.applied && o.state.applied[Tag(c)] == o.result && !o.result.duplicate
  {
    var applied := s.applied[Tag(c) := Execute(s.data, c).1];
    assert !Stale(Tag(c), Raised(s.maxReq, c));
    assert Tag(c) in Swept(applied, Raised(s.maxReq, c));
  }

  /** Exactly once: a repetition of a request that is no more than a window behind the highest
      number its client has used returns the first result, marked, and changes nothing. */
  lemma ExactlyOnce(cs: seq<Command>, i: nat, j: nat)
    requires i < j < |cs| && FirstAt(cs, i) && Tracked(cs[j]) && Tag(cs[j]) == Tag(cs[i])
    requires cs[i].request + WINDOW < WRAP && cs[i].request + WINDOW >= MaxSeen(cs[..j], cs[i].client)
    ensures Apply(Run(cs[..j]), cs[j]) == Outcome(Run(cs[..j]), ResultAt(cs, i).(duplicate := true))
    ensures !ResultAt(cs, i).duplicate
  {
    hide Execute, SeenIn, Run, Remember;
    StaysRemembered(cs, i, j);
    TableSound(cs[..j]);
  }

  // ---------------------------------------------------------------------------
  // What is forgotten
  // ---------------------------------------------------------------------------

  /** When a remembered request is forgotten: exactly by a new request that brings the table to
      the high-water mark at a sweep point, if it is then more than a window behind. */
  lemma ForgetsExactly(s: State, c: Command, k: DedupKey)
    requires k in s.applied
    ensures k !in Apply(s, c).state.applied <==>
      Tracked(c) && Tag(c) !in s.applied && |s.applied| + 1 >= HIGH_WATER && (s.count + 1) % WRAP % SWEEP_EVERY == 0 &&
      (k.request + WINDOW) % WRAP < MaxOf(Apply(s, c).state.maxReq, k.client)
  {
    hide Execute;
    if Tracked(c) && Tag(c) !in s.applied {
      var applied := s.applied[Tag(c) := Execute(s.data, c).1];
      assert applied.Keys == s.applied.Keys + {Tag(c)};
      assert |applied| == |applied.Keys| && |s.applied| == |s.applied.Keys|;
      assert k in applied && Raised(s.maxReq, c) == Apply(s, c).state.maxReq;
    }
  }

  /** The requests made so far. */
  function Requests(cs: seq<Command>): set<DedupKey>
  {
    set i | 0 <= i < |cs| && Tracked(cs[i]) :: Tag(cs[i])
  }

  lemma RequestsStep(cs: seq<Command>)
    requires cs != []
    ensures var n := |cs| - 1; Requests(cs) == Requests(cs[..n]) + if Tracked(cs[n]) then {Tag(cs[n])} else {}
    ensures |Requests(cs[..|cs| - 1])| <= |Requests(cs)|
  {
    var n := |cs| - 1;
    var a, b := Requests(cs), Requests(cs[..n]);
    forall k | k in b
      ensures k in a
    {
      var i :| 0 <= i < n && Tracked(cs[..n][i]) && Tag(cs[..n][i]) == k;
      assert cs[i] == cs[..n][i];
    }
    forall k | k in a
      ensures k in b || (Tracked(cs[n]) && k == Tag(cs[n]))
    {
      var i :| 0 <= i < |cs| && Tracked(cs[i]) && Tag(cs[i]) == k;
      if i < n { assert cs[..n][i] == cs[i]; }
    }
    assert Tracked(cs[n]) ==> Tag(cs[n]) in a;
    assert a == b + (a - b);
  }

  /** While there have been fewer requests than the high-water mark, every one is remembered,
      however far behind its client's latest. */
  lemma {:induction false} NothingForgotten(cs: seq<Command>)
    requires |Requests(cs)| < HIGH_WATER
    ensures Run(cs).applied.Keys == Requests(cs)
    decreases |cs|
  {
    hide Apply, Requests;
    if cs == [] {
      NoRequests();
    } else {
      var n := |cs| - 1;
      RequestsStep(cs);
      NothingForgotten(cs[..n]);
      RemembersNext(Run(cs[..n]), cs[n], Requests(cs));
    }
  }

  lemma NoRequests()
    ensures Requests([]) == {} && Run([]).applied == map[]
  {
  }

  lemma RemembersNext(s: State, c: Command, all: set<DedupKey>)
    requires all == s.applied.Keys + (if Tracked(c) then {Tag(c)} else {}) && |all| < HIGH_WATER
    ensures Apply(s, c).state.applied.Keys == all
  {
    hide Execute, Swept;
    if Tracked(c) && Tag(c) !in s.applied {
      var applied := s.applied[Tag(c) := Execute(s.data, c).1];
      assert applied.Keys == all && |applied| == |all|;
    } else if Tracked(c) {
      assert all == s.applied.Keys;
    }
  }

  // ---------------------------------------------------------------------------
  // The machine is the plain one
  // ---------------------------------------------------------------------------

  /** The command repeats a request made before. */
  predicate Repeats(cs: seq<Command>, i: nat)
    requires i < |cs|
  {
    Tracked(cs[i]) && SeenIn(cs[..i], Tag(cs[i]))
  }

  /** A command that is not a repetition takes effect on the data and answers accordingly. */
  lemma TakesEffect(cs: seq<Command>, i: nat)
    requires i < |cs| && !Repeats(cs, i)
    ensures var (d, r) := Execute(Run(cs[..i]).data, cs[i]); Run(cs[..i + 1]).data == d && ResultAt(cs, i) == r
  {
    hide SeenIn, Run, Execute;
    RunStep(cs, i);
    TableSound(cs[..i]);
  }

  /** The commands without the repetitions. */
  function Distinct(cs: seq<Command>): seq<Command>
  {
    if cs == [] then []
    else Distinct(cs[..|cs| - 1]) + if Repeats(cs, |cs| - 1) then [] else [cs[|cs| - 1]]
  }

  /** What the commands do to an empty store, each of them executed, requests aside. */
  function Plain(cs: seq<Command>): Data
  {
    if cs == [] then map[] else Execute(Plain(cs[..|cs| - 1]), cs[|cs| - 1]).0
  }

  /** A repetition no more than a window behind the highest number of its client, or so early that
      nothing has been forgotten. */
  ghost predicate InTime(cs: seq<Command>, j: nat)
    requires j < |cs|
  {
    MaxSeen(cs[..j], cs[j].client) <= cs[j].request + WINDOW < WRAP || |Requests(cs[..j])| < HIGH_WATER
  }

  ghost predicate Timely(cs: seq<Command>)
  {
    forall j :: 0 <= j < |cs| && Repeats(cs, j) ==> InTime(cs, j)
  }

  /** What is in the table for a request is its first result. */
  lemma {:induction false} TableHoldsFirst(cs: seq<Command>, i: nat, k: nat)
    requires i < k <= |cs| && FirstAt(cs, i) && |Requests(cs[..k])| < HIGH_WATER
    ensures var s := Run(cs[..k]); Tag(cs[i]) in s.applied && s.applied[Tag(cs[i])] == ResultAt(cs, i)
    decreases k
  {
    hide Apply, SeenIn, Run, Requests;
    var t := Tag(cs[i]);
    assert cs[..k][..k - 1] == cs[..k - 1];
    RequestsStep(cs[..k]);
    NothingForgotten(cs[..k - 1]);
    NothingForgotten(cs[..k]);
    RunStep(cs, k - 1);
    if k == i + 1 {
      TableSound(cs[..i]);
      NewlyStored(Run(cs[..i]), cs[i]);
    } else {
      TableHoldsFirst(cs, i, k - 1);
      ApplyKeeps(Run(cs[..k - 1]), cs[k - 1], t);
    }
  }

  lemma NewlyStored(s: State, c: Command)
    requires Tracked(c) && Tag(c) !in s.applied && Tag(c) in Apply(s, c).state.applied
    ensures Apply(s, c).state.applied[Tag(c)] == Apply(s, c).result
  {
  }

  lemma ApplyKeeps(s: State, c: Command, k: DedupKey)
    requires k in s.applied && k in Apply(s, c).state.applied
    ensures Apply(s, c).state.applied[k] == s.applied[k]
  {
    hide Execute;
  }

  /** The first time a repeated request was made. */
  lemma {:induction false} FirstOf(cs: seq<Command>, k: DedupKey) returns (i: nat)
    requires SeenIn(cs, k)
    ensures FirstAt(cs, i) && Tag(cs[i]) == k
    decreases |cs|
  {
    var n := |cs| - 1;
    if SeenIn(cs[..n], k) {
      i := FirstOf(cs[..n], k);
      assert cs[..n][..i] == cs[..i];
    } else {
      SeenLast(cs, k);
      i := n;
    }
  }

  lemma SeenLast(cs: seq<Command>, k: DedupKey)
    requires SeenIn(cs, k)
    ensures cs != [] && (SeenIn(cs[..|cs| - 1], k) || (Tracked(cs[|cs| - 1]) && Tag(cs[|cs| - 1]) == k))
  {
    var i :| 0 <= i < |cs| && Tracked(cs[i]) && Tag(cs[i]) == k;
    if i < |cs| - 1 { assert cs[..|cs| - 1][i] == cs[i]; }
  }

  /** A timely repetition changes nothing, and is answered as the first time. */
  lemma RepeatAnswered(cs: seq<Command>, j: nat) returns (i: nat)
    requires j < |cs| && Repeats(cs, j) && InTime(cs, j)
    ensures i < j && FirstAt(cs, i) && Tag(cs[i]) == Tag(cs[j])
    ensures Run(cs[..j + 1]) == Run(cs[..j]) && ResultAt(cs, j) == ResultAt(cs, i).(duplicate := true)
  {
    hide SeenIn, Run, Execute, Remember, Requests;
    i := FirstOf(cs[..j], Tag(cs[j]));
    assert cs[..j][..i] == cs[..i];
    RunStep(cs, j);
    if |Requests(cs[..j])| < HIGH_WATER {
      TableHoldsFirst(cs, i, j);
    } else {
      ExactlyOnce(cs, i, j);
    }
  }

  lemma RepeatsBefore(cs: seq<Command>, n: nat, j: nat)
    requires j < n <= |cs|
    ensures cs[..n][j] == cs[j] && cs[..n][..j] == cs[..j] && (Repeats(cs[..n], j) <==> Repeats(cs, j))
  {
    assert cs[..n][..j] == cs[..j];
  }

  lemma TimelyBefore(cs: seq<Command>, n: nat)
    requires Timely(cs) && n <= |cs|
    ensures Timely(cs[..n])
  {
    hide MaxSeen, SeenIn, Requests;
    forall j | 0 <= j < n && Repeats(cs[..n], j)
      ensures InTime(cs[..n], j)
    {
      RepeatsBefore(cs, n, j);
    }
  }

  /** The law the table exists for: whatever the clients repeat in time, the data are those of
      the plain store that executes every request once, in the order of first appearance. */
  lemma {:induction false} DataIsPlain(cs: seq<Command>)
    requires Timely(cs)
    ensures Run(cs).data == Plain(Distinct(cs))
    decreases |cs|
  {
    hide Execute, SeenIn, Run, Repeats, InTime, Timely;
    if cs == [] {
      NothingRun();
    } else {
      var n := |cs| - 1;
      var init, rest := cs[..n], Distinct(cs[..n]);
      TimelyBefore(cs, n);
      DataIsPlain(init);
      assert cs[..n + 1] == cs;
      if Repeats(cs, n) {
        TimelyAt(cs, n);
        var i := RepeatAnswered(cs, n);
        assert rest + [] == rest;
      } else {
        TakesEffect(cs, n);
        assert (rest + [cs[n]])[..|rest|] == rest;
      }
    }
  }

  lemma TimelyAt(cs: seq<Command>, j: nat)
    requires Timely(cs) && j < |cs| && Repeats(cs, j)
    ensures InTime(cs, j)
  {
  }

  lemma NothingRun()
    ensures Run([]).data == map[]
  {
  }

  /** And so are the answers. */
  lemma AnswersArePlain(cs: seq<Command>, i: nat)
    requires Timely(cs) && i < |cs| && !Repeats(cs, i)
    ensures ResultAt(cs, i) == Execute(Plain(Distinct(cs[..i])), cs[i]).1
  {
    hide Execute, Run, Repeats, Timely, Plain, Distinct, ResultAt;
    TakesEffect(cs, i);
    TimelyBefore(cs, i);
    DataIsPlain(cs[..i]);
  }

  // ---------------------------------------------------------------------------
  // The table stays small
  // ---------------------------------------------------------------------------

  lemma {:induction false} OneClient(keys: set<DedupKey>, client: seq<Byte>, lo: U64, n: nat)
    requires forall k :: k in keys ==> k.client == client && lo <= k.request < lo + n
    ensures |keys| <= n
    decreases n
  {
    if n == 0 {
      assert keys == {};
    } else if keys != {} {
      var rest := set k | k in keys && k.request != lo + n - 1;
      OneClient(rest, client, lo, n - 1);
      if rest != keys {
        var x :| x in keys && x.request == lo + n - 1;
        assert keys == rest + {x};
      }
    }
  }

  /** Every key belongs to one of `clients` and is at most a window behind its maximum. */
  ghost predicate Windowed(keys: set<DedupKey>, clients: set<seq<Byte>>, maxReq: map<seq<Byte>, U64>)
  {
    forall k :: k in keys ==> k.client in clients && k.request <= MaxOf(maxReq, k.client) <= k.request + WINDOW
  }

  lemma {:induction false} WindowSize(keys: set<DedupKey>, clients: set<seq<Byte>>, maxReq: map<seq<Byte>, U64>)
    requires Windowed(keys, clients, maxReq)
    ensures |keys| <= |clients| * (WINDOW + 1)
    decreases |clients|
  {
    if clients == {} {
      assert keys == {};
    } else {
      var c :| c in clients;
      var mine, rest := set k | k in keys && k.client == c, set k | k in keys && k.client != c;
      var m := MaxOf(maxReq, c);
      OneClient(mine, c, if m < WINDOW then 0 else m - WINDOW, WINDOW + 1);
      WindowSize(rest, clients - {c}, maxReq);
      assert keys == mine + rest;
    }
  }

  /** Every tracked command comes from `clients`, and its number does not wrap in the sweep. */
  ghost predicate From(cs: seq<Command>, clients: set<seq<Byte>>)
  {
    forall i :: 0 <= i < |cs| && Tracked(cs[i]) ==> cs[i].client in clients && cs[i].request + WINDOW < WRAP
  }

  lemma SweptFew(cs: seq<Command>, clients: set<seq<Byte>>, applied: map<DedupKey, Result>, maxReq: map<seq<Byte>, U64>)
    requires From(cs, clients) && forall k :: k in applied ==> SeenIn(cs, k)
    requires forall client :: MaxOf(maxReq, client) == MaxSeen(cs, client)
    ensures |Swept(applied, maxReq)| <= |clients| * (WINDOW + 1)
  {
    hide MaxOf;
    var keys := Swept(applied, maxReq).Keys;
    forall k | k in keys
      ensures k.client in clients && k.request <= MaxOf(maxReq, k.client) <= k.request + WINDOW
    {
      var i :| 0 <= i < |cs| && Tracked(cs[i]) && Tag(cs[i]) == k;
      SeenIsCovered(cs, k);
    }
    WindowSize(keys, clients, maxReq);
  }

  lemma CountStep(count: U64)
    ensures var next := (count + 1) % WRAP % SWEEP_EVERY;
      next == 0 || next == count % SWEEP_EVERY + 1
  {
  }

  /** Between two sweep points the table grows by at most one entry per command. */
  lemma {:induction false} TableSize(cs: seq<Command>, clients: set<seq<Byte>>)
    requires From(cs, clients) && |clients| * (WINDOW + 1) < HIGH_WATER
    ensures |Run(cs).applied| <= HIGH_WATER - 1 + Run(cs).count % SWEEP_EVERY
    decreases |cs|
  {
    hide SeenIn, MaxOf, Execute, Swept;
    if cs != [] {
      var n := |cs| - 1;
      var s, c := Run(cs[..n]), cs[n];
      TableSize(cs[..n], clients);
      if Tracked(c) && Tag(c) !in s.applied {
        var r := Execute(s.data, c).1;
        TableStep(cs, clients, s.applied[Tag(c) := r], Raised(s.maxReq, c));
        CountStep(s.count);
        GrowsByOne(s.applied, Tag(c), r);
      }
    }
  }

  lemma GrowsByOne(applied: map<DedupKey, Result>, k: DedupKey, r: Result)
    ensures |applied[k := r]| <= |applied| + 1
  {
    assert applied[k := r].Keys == applied.Keys + {k};
  }

  lemma TableStep(cs: seq<Command>, clients: set<seq<Byte>>,
                  applied: map<DedupKey, Result>, maxReq: map<seq<Byte>, U64>)
    requires cs != [] && From(cs, clients)
    requires var s, c := Run(cs[..|cs| - 1]), cs[|cs| - 1];
      Tracked(c) && Tag(c) !in s.applied && maxReq == Raised(s.maxReq, c) && applied.Keys == s.applied.Keys + {Tag(c)}
    ensures |Swept(applied, maxReq)| <= |clients| * (WINDOW + 1)
  {
    hide SeenIn, MaxOf, Swept, Execute;
    var init, c := cs[..|cs| - 1], cs[|cs| - 1];
    TableSound(init);
    TableSound(cs);
    forall k | k in applied
      ensures SeenIn(cs, k)
    {
      SeenLater(cs, k);
    }
    SweptFew(cs, clients, applied, maxReq);
  }

  /** The bound: with few enough clients the table never reaches `HIGH_WATER + SWEEP_EVERY`,
      whatever prefix of the log the machine has applied or restored. */
  lemma TableBound(cs: seq<Command>, clients: set<seq<Byte>>)
    requires From(cs, clients) && |clients| * (WINDOW + 1) < HIGH_WATER
    ensures |Run(cs).applied| < HIGH_WATER + SWEEP_EVERY
  {
    hide Run;
    TableSize(cs, clients);
  }

  // ---------------------------------------------------------------------------
  // The machine object
  // ---------------------------------------------------------------------------

  /** A map copied key by key, in any order. */
  method Copied<K, V>(m: map<K, V>) returns (r: map<K, V>)
    ensures r == m
  {
    r := map[];
    var todo := m.Keys;
    while todo != {}
      invariant todo <= m.Keys && r.Keys == m.Keys - todo && forall k :: k in r ==> r[k] == m[k]
      decreases |todo|
    {
      var k :| k in todo;
      r := r[k := m[k]];
      todo := todo - {k};
    }
  }

  class Machine {
    var data: Data
    var applied: map<DedupKey, Result>
    var maxReq: map<seq<Byte>, U64>
    var count: U64

    ghost function Contents(): State
      reads this
    {
      State(data, applied, maxReq, count)
    }

    constructor ()
      ensures Contents() == EMPTY
    {
      data, applied, maxReq, count := map[], map[], map[], 0;
    }

    method ApplyCommand(c: Command) returns (res: Result)
      modifies this
      ensures Outcome(Contents(), res) == Apply(old(Contents()), c)
    {
      hide Swept;
      if c.client != [] && c.request != 0 {
        if DedupKey(c.client, c.request) in applied {
          return applied[DedupKey(c.client, c.request)].(duplicate := true);
        }
      }
      res := ExecuteCommand(c);
      if c.client != [] && c.request != 0 {
        applied := applied[DedupKey(c.client, c.request) := res];
        var highest := if c.client in maxReq then maxReq[c.client] else 0;
        if c.request > highest {
          maxReq := maxReq[c.client := c.request];
        }
        count := (count + 1) % WRAP;
        if |applied| >= HIGH_WATER && count % SWEEP_EVERY == 0 {
          Sweep();
        }
      }
    }

    method ExecuteCommand(c: Command) returns (res: Result)
      modifies this
      ensures var (d, r) := Execute(old(data), c); res == r && Contents() == old(Contents()).(data := d)
    {
      res := Result(false, [], false);
      if c.op == OP_GET {
        if c.key in data {
          res := Result(true, data[c.key], false);
        }
      } else if c.op == OP_PUT {
        if c.key in data {
          res := res.(value := data[c.key]);
        }
        data := data[c.key := c.value];
        res := res.(found := true);
      } else if c.op == OP_CAS {
        if c.key !in data {
          if |c.expected| != 0 {
            return;
          }
          data := data[c.key := c.value];
          res := res.(found := true);
          return;
        }
        res := res.(value := data[c.key]);
        if data[c.key] == c.expected {
          data := data[c.key := c.value];
          res := res.(found := true);
        }
      } else if c.op == OP_CHECKPOINT {
        data := data[CHECKPOINT_PREFIX + c.client := c.value];
        res := Result(true, c.value, false);
      }
    }

    /** The sweep visits the table in whatever order; the outcome is one and the same. */
    method Sweep()
      modifies this
      ensures Contents() == old(Contents()).(applied := Swept(old(applied), maxReq))
    {
      var todo := applied.Keys;
      while todo != {}
        invariant data == old(data) && maxReq == old(maxReq) && count == old(count)
        invariant forall k :: k in applied <==> k in old(applied) && (k in todo || !Stale(k, maxReq))
        invariant forall k :: k in applied ==> applied[k] == old(applied)[k]
        decreases |todo|
      {
        hide Swept;
        var k :| k in todo;
        todo := todo - {k};
        var highest := if k.client in maxReq then maxReq[k.client] else 0;
        if (k.request + WINDOW) % WRAP < highest {
          applied := applied - {k};
        }
      }
    }

    method Snapshot() returns (raw: State)
      ensures raw == Contents()
    {
      var d := Copied(data);
      var a := Copied(applied);
      var m := Copied(maxReq);
      raw := State(d, a, m, count);
    }

    method Restore(raw: State)
      modifies this
      ensures Contents() == raw
    {
      data, applied, maxReq, count := raw.data, raw.applied, raw.maxReq, raw.count;
    }

    method Get(key: seq<Byte>) returns (r: Option<seq<Byte>>)
      ensures r == if key in data then Some(data[key]) else None
    {
      if key in data {
        return Some(data[key]);
      }
      return None;
    }
  }
}
