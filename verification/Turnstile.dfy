/** The turnstile: tickets are parked as pending, then confirmed, rejected, or retried until they fail. */
module Turnstiles {
  import opened Prelude

  // ---------------------------------------------------------------- hashes and state

  /** The starting hash is whatever text the caller gave; every other hash is over a parent and a payload. */
  datatype Digest = Initial(text: string, isHex: bool) | Chained(parent: Digest, payload: Payload)

  datatype Payload =
    | Malformed(text: string)
    | Record(text: string)
    | OrphanLog(orig: Digest, message: string, timestamp: nat)
    | SuccessLog(orig: Digest, timestamp: nat)

  datatype Status = Pending | Committed | FailedPermanent

  datatype Entry = Entry(parent: Digest, payload: Payload, timestamp: nat, retries: nat, lastError: Option<string>, status: Status)

  datatype OrphanEvent = OrphanEvent(leaf: Digest, orig: Digest, message: string, timestamp: nat)

  datatype SuccessEvent = SuccessEvent(leaf: Digest, orig: Digest, timestamp: nat)

  datatype Policy = Policy(maxRetries: nat, logOrphans: bool)

  datatype Error = InvalidJson | InvalidHex | NotFound

  datatype State = State(
    latest: Digest, pending: map<Digest, Entry>, committed: set<Digest>,
    orphans: seq<OrphanEvent>, successes: seq<SuccessEvent>)
  {
    predicate LeafExists(h: Digest) {
      h in pending || h in committed
    }

    predicate Waiting(h: Digest) {
      h in pending && pending[h].status == Pending
    }

    /** The hash a retry may pick: among waiting entries, one with the least timestamp. */
    predicate Oldest(h: Digest) {
      Waiting(h) && forall g :: g in pending && Waiting(g) ==> pending[h].timestamp <= pending[g].timestamp
    }

    /** The hash is put at the end of the committed chain. */
    function Commit(h: Digest): State {
      this.(latest := h, committed := committed + {h})
    }
  }

  function Fresh(initial: Digest): State {
    State(initial, map[], {}, [], [])
  }

  function ComputeHash(parent: Digest, payload: Payload): Result<Digest, Error> {
    if payload.Malformed? then Err(InvalidJson)
    else if parent.Initial? && !parent.isHex then Err(InvalidHex)
    else Ok(Chained(parent, payload))
  }

  // ---------------------------------------------------------------- operations

  /** `log_orphan_leaf`: the state after it, and the error that cut it short, if any. */
  function LogOrphan(pol: Policy, st: State, orig: Digest, message: string, ts: nat): (State, Option<Error>) {
    if !pol.logOrphans then (st, None)
    else match ComputeHash(st.latest, OrphanLog(orig, message, ts))
      case Err(e) => (st, Some(e))
      case Ok(h) => (st.Commit(h).(orphans := st.orphans + [OrphanEvent(h, orig, message, ts)]), None)
  }

  /** `log_success_leaf` */
  function LogSuccess(pol: Policy, st: State, orig: Digest, ts: nat): (State, Option<Error>) {
    if !pol.logOrphans then (st, None)
    else match ComputeHash(st.latest, SuccessLog(orig, ts))
      case Err(e) => (st, Some(e))
      case Ok(h) => (st.Commit(h).(successes := st.successes + [SuccessEvent(h, orig, ts)]), None)
  }

  function Park(st: State, payload: Payload, ts: nat): (State, Result<Digest, Error>) {
    match ComputeHash(st.latest, payload)
    case Err(e) => (st, Err(e))
    case Ok(h) => (st.(pending := st.pending[h := Entry(st.latest, payload, ts, 0, None, Pending)]), Ok(h))
  }

  function Confirm(st: State, h: Digest): (State, Option<Error>) {
    if h !in st.pending then (st, Some(NotFound))
    else (st.(pending := st.pending - {h}).Commit(h), None)
  }

  /** A rejected ticket fails permanently once it was rejected more than the allowed number of times. */
  function Rejected(pol: Policy, e: Entry, message: Option<string>): Entry {
    e.(retries := e.retries + 1,
       lastError := if message.Some? then message else e.lastError,
       status := if e.retries + 1 > pol.maxRetries then FailedPermanent else e.status)
  }

  function Reject(pol: Policy, st: State, h: Digest, message: Option<string>): (State, Option<Error>) {
    if h !in st.pending then (st, Some(NotFound))
    else
      var marked := st.(pending := st.pending[h := Rejected(pol, st.pending[h], message)]);
      if message.Some? then LogOrphan(pol, marked, h, message.value, st.pending[h].timestamp) else (marked, None)
  }

  /** A failed retry fails permanently already when it reaches the allowed number. */
  function Retried(pol: Policy, e: Entry): Entry {
    if e.retries + 1 >= pol.maxRetries then e.(retries := e.retries + 1, status := FailedPermanent)
    else e.(retries := e.retries + 1, lastError := Some("retry failed"))
  }

  /** `retry_next_pending` once it has picked an entry; the code it returns, or an error. */
  function Retry(pol: Policy, st: State, h: Digest, callback: (Digest, Payload, Digest) -> int): (State, Result<int, Error>)
    requires h in st.pending
  {
    var e := st.pending[h];
    match ComputeHash(e.parent, e.payload)
    case Err(error) => (st, Err(error))
    case Ok(computed) =>
      if computed != h then (st.(pending := st.pending[h := e.(status := FailedPermanent)]), Ok(-2))
      else if callback(e.parent, e.payload, h) == 1 then
        var logged := LogSuccess(pol, st.(pending := st.pending - {h}).Commit(h), h, e.timestamp);
        (logged.0, if logged.1.Some? then Err(logged.1.value) else Ok(0))
      else
        var logged := LogOrphan(pol, st.(pending := st.pending[h := Retried(pol, e)]), h, "retry failed", e.timestamp);
        (logged.0, if logged.1.Some? then Err(logged.1.value) else Ok(if e.retries + 1 >= pol.maxRetries then 2 else 1))
  }

  // ---------------------------------------------------------------- runs

  datatype Op =
    | Append(payload: Payload, timestamp: nat)
    | ConfirmTicket(ticket: Digest)
    | RejectTicket(ticket: Digest, message: Option<string>)
    | RetryNext(callback: (Digest, Payload, Digest) -> int)

  ghost predicate Next(pol: Policy, op: Op, st: State, after: State) {
    match op
    case Append(payload, ts) => after == Park(st, payload, ts).0
    case ConfirmTicket(h) => after == Confirm(st, h).0
    case RejectTicket(h, message) => after == Reject(pol, st, h, message).0
    case RetryNext(callback) =>
      if exists h :: st.Oldest(h) then exists h :: st.Oldest(h) && after == Retry(pol, st, h, callback).0 else after == st
  }

  /** The states of a run from a fresh start; operation i leads from state i to state i + 1. */
  ghost predicate Runs(pol: Policy, initial: Digest, ops: seq<Op>, states: seq<State>) {
    && initial.Initial?
    && |states| == |ops| + 1 && states[0] == Fresh(initial)
    && forall i :: 0 <= i < |ops| ==> Next(pol, ops[i], states[i], states[i + 1])
  }

  /** No caller passes a payload that is itself a log record. */
  predicate PlainPayloads(ops: seq<Op>) {
    forall i :: 0 <= i < |ops| && ops[i].Append? ==> !ops[i].payload.OrphanLog? && !ops[i].payload.SuccessLog?
  }

  // ---------------------------------------------------------------- provenance

  function Chain(initial: Digest, st: State): set<Digest> {
    st.committed + {initial}
  }

  /** A hash that was computed from a valid payload over a member of the chain. */
  ghost predicate Grown(initial: Digest, st: State, h: Digest) {
    h.Chained? && h.parent in Chain(initial, st) && ComputeHash(h.parent, h.payload) == Ok(h)
  }

  /** A pending entry still hashes to its ticket, and a waiting one has retries left. */
  ghost predicate EntryOk(pol: Policy, initial: Digest, st: State, h: Digest)
    requires h in st.pending
  {
    var e := st.pending[h];
    h == Chained(e.parent, e.payload) && Grown(initial, st, h) && (e.status == Pending ==> e.retries <= pol.maxRetries)
  }

  ghost predicate Provenance(pol: Policy, initial: Digest, st: State) {
    && st.latest in Chain(initial, st)
    && (forall h :: h in st.committed ==> Grown(initial, st, h))
    && (forall h :: h in st.pending ==> EntryOk(pol, initial, st, h))
    && (forall i :: 0 <= i < |st.orphans| ==>
          st.orphans[i].leaf in st.committed
          && st.orphans[i].leaf.payload == OrphanLog(st.orphans[i].orig, st.orphans[i].message, st.orphans[i].timestamp))
    && (forall i :: 0 <= i < |st.successes| ==>
          st.successes[i].leaf in st.committed && st.successes[i].orig in st.committed
          && st.successes[i].leaf.payload == SuccessLog(st.successes[i].orig, st.successes[i].timestamp))
  }

  lemma GrownStays(initial: Digest, st: State, after: State, h: Digest)
    requires Grown(initial, st, h) && st.committed <= after.committed
    ensures Grown(initial, after, h)
  {
  }

  /** Committing a hash grown from the chain. */
  lemma CommitKeeps(pol: Policy, initial: Digest, st: State, h: Digest)
    requires Provenance(pol, initial, st) && Grown(initial, st, h)
    ensures Provenance(pol, initial, st.Commit(h))
  {
    forall g | g in st.Commit(h).committed ensures Grown(initial, st.Commit(h), g) {
      GrownStays(initial, st, st.Commit(h), g);
    }
    forall g | g in st.pending ensures EntryOk(pol, initial, st.Commit(h), g) {
      assert EntryOk(pol, initial, st, g);
      GrownStays(initial, st, st.Commit(h), g);
    }
  }

  lemma LogOrphanKeeps(pol: Policy, initial: Digest, st: State, orig: Digest, message: string, ts: nat)
    requires Provenance(pol, initial, st)
    ensures var r := LogOrphan(pol, st, orig, message, ts).0;
      Provenance(pol, initial, r) && st.committed <= r.committed && r.pending == st.pending
  {
    var h := ComputeHash(st.latest, OrphanLog(orig, message, ts));
    if pol.logOrphans && h.Ok? {
      CommitKeeps(pol, initial, st, h.value);
    }
  }

  lemma LogSuccessKeeps(pol: Policy, initial: Digest, st: State, orig: Digest, ts: nat)
    requires Provenance(pol, initial, st) && orig in st.committed
    ensures var r := LogSuccess(pol, st, orig, ts).0;
      Provenance(pol, initial, r) && st.committed <= r.committed && r.pending == st.pending
  {
    var h := ComputeHash(st.latest, SuccessLog(orig, ts));
    if pol.logOrphans && h.Ok? {
      CommitKeeps(pol, initial, st, h.value);
    }
  }

  lemma SetPendingKeeps(pol: Policy, initial: Digest, st: State, h: Digest, e: Entry)
    requires Provenance(pol, initial, st) && Grown(initial, st, h)
    requires h == Chained(e.parent, e.payload) && (e.status == Pending ==> e.retries <= pol.maxRetries)
    ensures Provenance(pol, initial, st.(pending := st.pending[h := e]))
  {
    var r := st.(pending := st.pending[h := e]);
    forall g | g in r.pending ensures EntryOk(pol, initial, r, g) {
      if g != h {
        assert EntryOk(pol, initial, st, g);
      }
    }
  }

  lemma DropPendingKeeps(pol: Policy, initial: Digest, st: State, h: Digest)
    requires Provenance(pol, initial, st)
    ensures Provenance(pol, initial, st.(pending := st.pending - {h}))
  {
    var r := st.(pending := st.pending - {h});
    forall g | g in r.pending ensures EntryOk(pol, initial, r, g) {
      assert EntryOk(pol, initial, st, g);
    }
  }

  lemma RetryKeeps(pol: Policy, initial: Digest, st: State, h: Digest, callback: (Digest, Payload, Digest) -> int)
    requires Provenance(pol, initial, st) && st.Waiting(h)
    ensures var r := Retry(pol, st, h, callback).0;
      Provenance(pol, initial, r) && st.committed <= r.committed && (forall g :: st.LeafExists(g) ==> r.LeafExists(g))
    ensures Retry(pol, st, h, callback).1.Ok? && Retry(pol, st, h, callback).1.value in {0, 1, 2}
  {
    assert EntryOk(pol, initial, st, h);
    hide Provenance, Grown;
    var e := st.pending[h];
    GrownHash(initial, st, h);
    if callback(e.parent, e.payload, h) == 1 {
      var taken := st.(pending := st.pending - {h});
      DropPendingKeeps(pol, initial, st, h);
      GrownStays(initial, st, taken, h);
      CommitKeeps(pol, initial, taken, h);
      LogSuccessKeeps(pol, initial, taken.Commit(h), h, e.timestamp);
    } else {
      SetPendingKeeps(pol, initial, st, h, Retried(pol, e));
      LogOrphanKeeps(pol, initial, st.(pending := st.pending[h := Retried(pol, e)]), h, "retry failed", e.timestamp);
      LatestHashes(pol, initial, st, OrphanLog(h, "retry failed", e.timestamp), h);
    }
  }

  lemma GrownHash(initial: Digest, st: State, h: Digest)
    requires Grown(initial, st, h)
    ensures h.Chained? && ComputeHash(h.parent, h.payload) == Ok(h)
  {
  }

  /** Once something is pending, the starting hash is known to decode, so logging cannot fail. */
  lemma LatestHashes(pol: Policy, initial: Digest, st: State, payload: Payload, h: Digest)
    requires Provenance(pol, initial, st) && h in st.pending && !payload.Malformed?
    ensures ComputeHash(st.latest, payload).Ok?
  {
    assert EntryOk(pol, initial, st, h);
    HexAtRoot(pol, initial, st, h);
  }

  lemma {:induction false} HexAtRoot(pol: Policy, initial: Digest, st: State, h: Digest)
    requires Provenance(pol, initial, st) && Grown(initial, st, h)
    ensures initial.Initial? ==> initial.isHex
    decreases h
  {
    if h.parent != initial {
      HexAtRoot(pol, initial, st, h.parent);
    }
  }

  /** One operation: provenance is kept, committed only grows, and no leaf is forgotten. */
  lemma NextKeeps(pol: Policy, initial: Digest, op: Op, st: State, after: State)
    requires Provenance(pol, initial, st) && Next(pol, op, st, after)
    ensures Provenance(pol, initial, after) && st.committed <= after.committed
    ensures forall h :: st.LeafExists(h) ==> after.LeafExists(h)
  {
    match op
    case Append(payload, ts) =>
      var h := ComputeHash(st.latest, payload);
      if h.Ok? {
        SetPendingKeeps(pol, initial, st, h.value, Entry(st.latest, payload, ts, 0, None, Pending));
      }
    case ConfirmTicket(h) =>
      if h in st.pending {
        assert EntryOk(pol, initial, st, h);
        DropPendingKeeps(pol, initial, st, h);
        CommitKeeps(pol, initial, st.(pending := st.pending - {h}), h);
      }
    case RejectTicket(h, message) =>
      if h in st.pending {
        assert EntryOk(pol, initial, st, h);
        var marked := st.(pending := st.pending[h := Rejected(pol, st.pending[h], message)]);
        SetPendingKeeps(pol, initial, st, h, Rejected(pol, st.pending[h], message));
        if message.Some? {
          LogOrphanKeeps(pol, initial, marked, h, message.value, st.pending[h].timestamp);
        }
      }
    case RetryNext(callback) =>
      if exists h :: st.Oldest(h) {
        var h :| st.Oldest(h) && after == Retry(pol, st, h, callback).0;
        RetryKeeps(pol, initial, st, h, callback);
      }
  }

  /** In every state of every run each committed hash grows from the chain, and so does the latest. */
  lemma {:induction false} RunsKeepProvenance(pol: Policy, initial: Digest, ops: seq<Op>, states: seq<State>, i: nat)
    requires Runs(pol, initial, ops, states) && i < |states|
    ensures Provenance(pol, initial, states[i])
  {
    hide Provenance, Next;
    if i == 0 {
      FreshOk(pol, initial);
    } else {
      RunsKeepProvenance(pol, initial, ops, states, i - 1);
      assert Next(pol, ops[i - 1], states[i - 1], states[i]);
      NextKeeps(pol, initial, ops[i - 1], states[i - 1], states[i]);
    }
  }

  lemma FreshOk(pol: Policy, initial: Digest)
    ensures Provenance(pol, initial, Fresh(initial))
  {
  }

  /** A ticket, once returned, exists in every later state, pending or committed; and committed only grows. */
  lemma {:induction false} TicketsAreKept(pol: Policy, initial: Digest, ops: seq<Op>, states: seq<State>, i: nat, j: nat)
    requires Runs(pol, initial, ops, states) && i < j < |states|
    ensures states[i].committed <= states[j].committed
    ensures forall h :: states[i].LeafExists(h) ==> states[j].LeafExists(h)
    ensures ops[i].Append? && Park(states[i], ops[i].payload, ops[i].timestamp).1.Ok? ==>
      states[j].LeafExists(Park(states[i], ops[i].payload, ops[i].timestamp).1.value)
    decreases j
  {
    RunsKeepProvenance(pol, initial, ops, states, j - 1);
    assert Next(pol, ops[j - 1], states[j - 1], states[j]);
    NextKeeps(pol, initial, ops[j - 1], states[j - 1], states[j]);
    hide Provenance;
    if i < j - 1 {
      TicketsAreKept(pol, initial, ops, states, i, j - 1);
    }
  }

  /** In no reachable state does a retry find a corrupted entry or fail. */
  lemma RetryNeverCorrupt(pol: Policy, initial: Digest, ops: seq<Op>, states: seq<State>, i: nat, h: Digest, callback: (Digest, Payload, Digest) -> int)
    requires Runs(pol, initial, ops, states) && i < |states| && states[i].Oldest(h)
    ensures Retry(pol, states[i], h, callback).1.Ok? && Retry(pol, states[i], h, callback).1.value in {0, 1, 2}
  {
    hide Provenance, Runs;
    RunsKeepProvenance(pol, initial, ops, states, i);
    RetryKeeps(pol, initial, states[i], h, callback);
  }
}
