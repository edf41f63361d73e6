/** The turnstile over whole runs: no hash is committed twice, draining ends, and the program itself. */
module TurnstileRuns {
  import opened Prelude
  import opened Turnstiles

  // ---------------------------------------------------------------- no repetition

  predicate IsLog(p: Payload) {
    p.OrphanLog? || p.SuccessLog?
  }

  /** Pending and committed are disjoint, nothing committed hangs off the latest hash, and no ticket is a log record. */
  ghost predicate Separate(st: State) {
    && (forall h :: h in st.pending ==> h !in st.committed)
    && (forall h :: h in st.committed ==> h.Chained? && h.parent != st.latest)
    && (forall h :: h in st.pending ==> h.Chained? && !IsLog(h.payload))
  }

  /** The latest hash either stays or moves to a hash that was never on the chain. */
  ghost predicate MovesOn(initial: Digest, st: State, after: State) {
    after.latest == st.latest || after.latest !in Chain(initial, st)
  }

  lemma NoSelfParent(h: Digest)
    ensures h.Chained? ==> h.parent != h
  {
    if h.Chained? {
      assert h.parent < h;
    }
  }

  lemma CommitSeparates(pol: Policy, initial: Digest, st: State, h: Digest)
    requires initial.Initial? && Provenance(pol, initial, st) && Separate(st) && Grown(initial, st, h)
    requires h !in st.committed && h !in st.pending
    ensures Separate(st.Commit(h)) && MovesOn(initial, st, st.Commit(h))
  {
    NoSelfParent(h);
    forall g | g in st.committed ensures g.parent != h {
      assert Grown(initial, st, g);
    }
  }

  lemma LogOrphanSeparates(pol: Policy, initial: Digest, st: State, orig: Digest, message: string, ts: nat)
    requires initial.Initial? && Provenance(pol, initial, st) && Separate(st)
    ensures var r := LogOrphan(pol, st, orig, message, ts).0; Separate(r) && MovesOn(initial, st, r)
  {
    var h := ComputeHash(st.latest, OrphanLog(orig, message, ts));
    if pol.logOrphans && h.Ok? {
      CommitSeparates(pol, initial, st, h.value);
    }
  }

  lemma LogSuccessSeparates(pol: Policy, initial: Digest, st: State, orig: Digest, ts: nat)
    requires initial.Initial? && Provenance(pol, initial, st) && Separate(st)
    ensures var r := LogSuccess(pol, st, orig, ts).0; Separate(r) && MovesOn(initial, st, r)
  {
    var h := ComputeHash(st.latest, SuccessLog(orig, ts));
    if pol.logOrphans && h.Ok? {
      CommitSeparates(pol, initial, st, h.value);
    }
  }

  lemma MovesOnTwice(initial: Digest, st: State, mid: State, after: State)
    requires MovesOn(initial, st, mid) && MovesOn(initial, mid, after) && st.committed <= mid.committed
    ensures MovesOn(initial, st, after)
  {
  }

  /** A pending ticket is taken out and committed. */
  lemma TakeSeparates(pol: Policy, initial: Digest, st: State, h: Digest)
    requires initial.Initial? && Provenance(pol, initial, st) && Separate(st) && h in st.pending
    ensures var taken := st.(pending := st.pending - {h});
      && Provenance(pol, initial, taken) && Grown(initial, taken, h)
      && Separate(taken.Commit(h)) && MovesOn(initial, st, taken.Commit(h))
  {
    assert EntryOk(pol, initial, st, h);
    var taken := st.(pending := st.pending - {h});
    DropPendingKeeps(pol, initial, st, h);
    GrownStays(initial, st, taken, h);
    CommitSeparates(pol, initial, taken, h);
  }

  lemma RemarkSeparates(pol: Policy, initial: Digest, st: State, h: Digest, e: Entry)
    requires Provenance(pol, initial, st) && Separate(st) && h in st.pending
    requires e.parent == st.pending[h].parent && e.payload == st.pending[h].payload && (e.status == Pending ==> e.retries <= pol.maxRetries)
    ensures var r := st.(pending := st.pending[h := e]); Provenance(pol, initial, r) && Separate(r)
  {
    assert EntryOk(pol, initial, st, h);
    SetPendingKeeps(pol, initial, st, h, e);
  }

  lemma RetrySeparates(pol: Policy, initial: Digest, st: State, h: Digest, callback: (Digest, Payload, Digest) -> int)
    requires initial.Initial? && Provenance(pol, initial, st) && Separate(st) && st.Waiting(h)
    ensures var r := Retry(pol, st, h, callback).0; Separate(r) && MovesOn(initial, st, r)
  {
    assert EntryOk(pol, initial, st, h);
    hide Provenance, Separate, Grown, MovesOn;
    var e := st.pending[h];
    GrownHash(initial, st, h);
    if callback(e.parent, e.payload, h) == 1 {
      TakeSeparates(pol, initial, st, h);
      var taken := st.(pending := st.pending - {h});
      CommitKeeps(pol, initial, taken, h);
      LogSuccessSeparates(pol, initial, taken.Commit(h), h, e.timestamp);
      MovesOnTwice(initial, st, taken.Commit(h), Retry(pol, st, h, callback).0);
    } else {
      RemarkSeparates(pol, initial, st, h, Retried(pol, e));
      var marked := st.(pending := st.pending[h := Retried(pol, e)]);
      LogOrphanSeparates(pol, initial, marked, h, "retry failed", e.timestamp);
      SameChain(initial, st, marked, LogOrphan(pol, marked, h, "retry failed", e.timestamp).0);
    }
  }

  lemma SameChain(initial: Digest, st: State, marked: State, after: State)
    requires marked.latest == st.latest && marked.committed == st.committed && MovesOn(initial, marked, after)
    ensures MovesOn(initial, st, after)
  {
  }

  lemma ParkSeparates(pol: Policy, initial: Digest, st: State, payload: Payload, ts: nat)
    requires Provenance(pol, initial, st) && Separate(st) && !IsLog(payload)
    ensures var r := Park(st, payload, ts).0; Separate(r) && MovesOn(initial, st, r)
  {
  }

  lemma NextSeparates(pol: Policy, initial: Digest, op: Op, st: State, after: State)
    requires initial.Initial? && Provenance(pol, initial, st) && Separate(st) && Next(pol, op, st, after)
    requires op.Append? ==> !IsLog(op.payload)
    ensures Separate(after) && MovesOn(initial, st, after)
  {
    hide Provenance, Separate, LogOrphan, Retry, Rejected;
    match op
    case Append(payload, ts) =>
      ParkSeparates(pol, initial, st, payload, ts);
    case ConfirmTicket(h) =>
      if h in st.pending {
        TakeSeparates(pol, initial, st, h);
      }
    case RejectTicket(h, message) =>
      if h in st.pending {
        RejectSeparates(pol, initial, st, h, message);
      }
    case RetryNext(callback) =>
      if exists h :: st.Oldest(h) {
        var h :| st.Oldest(h) && after == Retry(pol, st, h, callback).0;
        RetrySeparates(pol, initial, st, h, callback);
      }
  }

  lemma RejectSeparates(pol: Policy, initial: Digest, st: State, h: Digest, message: Option<string>)
    requires initial.Initial? && Provenance(pol, initial, st) && Separate(st) && h in st.pending
    ensures var r := Reject(pol, st, h, message).0; Separate(r) && MovesOn(initial, st, r)
  {
    assert EntryOk(pol, initial, st, h);
    hide Provenance, Separate, LogOrphan;
    var marked := st.(pending := st.pending[h := Rejected(pol, st.pending[h], message)]);
    RemarkSeparates(pol, initial, st, h, Rejected(pol, st.pending[h], message));
    if message.Some? {
      LogOrphanSeparates(pol, initial, marked, h, message.value, st.pending[h].timestamp);
      SameChain(initial, st, marked, Reject(pol, st, h, message).0);
    }
  }

  /** With plain payloads no hash is ever both pending and committed. */
  lemma {:induction false} PendingAndCommittedDisjoint(pol: Policy, initial: Digest, ops: seq<Op>, states: seq<State>, i: nat)
    requires Runs(pol, initial, ops, states) && PlainPayloads(ops) && i < |states|
    ensures Separate(states[i])
    ensures i > 0 ==> MovesOn(initial, states[i - 1], states[i])
  {
    hide Next, Provenance;
    if i > 0 {
      PendingAndCommittedDisjoint(pol, initial, ops, states, i - 1);
      RunsKeepProvenance(pol, initial, ops, states, i - 1);
      assert Next(pol, ops[i - 1], states[i - 1], states[i]);
      NextSeparates(pol, initial, ops[i - 1], states[i - 1], states[i]);
    }
  }

  /** With plain payloads the latest hash, once left, never comes back. */
  lemma {:induction false} LatestNeverRepeats(pol: Policy, initial: Digest, ops: seq<Op>, states: seq<State>, i: nat, j: nat, k: nat)
    requires Runs(pol, initial, ops, states) && PlainPayloads(ops) && i < j <= k < |states|
    requires states[j].latest != states[i].latest
    ensures states[k].latest != states[i].latest
    decreases k
  {
    hide Next, Separate, PlainPayloads;
    if j < k {
      LatestNeverRepeats(pol, initial, ops, states, i, j, k - 1);
      PendingAndCommittedDisjoint(pol, initial, ops, states, k);
      RunsKeepProvenance(pol, initial, ops, states, i);
      TicketsAreKept(pol, initial, ops, states, i, k - 1);
    }
  }

  ghost predicate Disjoint(st: State) {
    forall h :: h in st.pending ==> h !in st.committed
  }

  /** The orphan record that rejecting or retrying a ticket would commit now. */
  function OrphanHash(st: State, h: Digest, message: string): Digest
    requires h in st.pending
  {
    Chained(st.latest, OrphanLog(h, message, st.pending[h].timestamp))
  }

  /**
   What a caller can check before an operation: the hash it parks is not committed yet, and
   the orphan record it commits is not itself a pending ticket.
   */
  ghost predicate NoCollision(pol: Policy, op: Op, st: State) {
    match op
    case Append(payload, _) => ComputeHash(st.latest, payload).Ok? ==> ComputeHash(st.latest, payload).value !in st.committed
    case ConfirmTicket(_) => true
    case RejectTicket(h, message) =>
      pol.logOrphans && message.Some? && h in st.pending ==> OrphanHash(st, h, message.value) !in st.pending
    case RetryNext(callback) =>
      pol.logOrphans ==> forall h :: st.Oldest(h) && callback(st.pending[h].parent, st.pending[h].payload, h) != 1 ==>
        OrphanHash(st, h, "retry failed") !in st.pending
  }

  lemma LogOrphanDisjointIff(pol: Policy, initial: Digest, st: State, g: Digest, orig: Digest, message: string, ts: nat)
    requires Provenance(pol, initial, st) && Disjoint(st) && g in st.pending
    ensures Disjoint(LogOrphan(pol, st, orig, message, ts).0)
      <==> (pol.logOrphans ==> Chained(st.latest, OrphanLog(orig, message, ts)) !in st.pending)
  {
    LatestHashes(pol, initial, st, OrphanLog(orig, message, ts), g);
  }

  lemma RejectDisjointIff(pol: Policy, initial: Digest, st: State, h: Digest, message: string)
    requires Provenance(pol, initial, st) && Disjoint(st) && h in st.pending
    ensures Disjoint(Reject(pol, st, h, Some(message)).0) <==> (pol.logOrphans ==> OrphanHash(st, h, message) !in st.pending)
  {
    assert EntryOk(pol, initial, st, h);
    var marked := st.(pending := st.pending[h := Rejected(pol, st.pending[h], Some(message))]);
    SetPendingKeeps(pol, initial, st, h, Rejected(pol, st.pending[h], Some(message)));
    hide Provenance, LogOrphan;
    LogOrphanDisjointIff(pol, initial, marked, h, h, message, st.pending[h].timestamp);
  }

  /** A successful retry cannot collide: a ticket over a hash that is still pending does not exist yet. */
  lemma RetryDisjointIff(pol: Policy, initial: Digest, st: State, h: Digest, callback: (Digest, Payload, Digest) -> int)
    requires initial.Initial? && Provenance(pol, initial, st) && Disjoint(st) && st.Waiting(h)
    ensures Disjoint(Retry(pol, st, h, callback).0) <==>
      (pol.logOrphans && callback(st.pending[h].parent, st.pending[h].payload, h) != 1 ==> OrphanHash(st, h, "retry failed") !in st.pending)
  {
    assert EntryOk(pol, initial, st, h);
    GrownHash(initial, st, h);
    var e := st.pending[h];
    if callback(e.parent, e.payload, h) == 1 {
      NoTicketOver(pol, initial, st, h, SuccessLog(h, e.timestamp));
    } else {
      var marked := st.(pending := st.pending[h := Retried(pol, e)]);
      SetPendingKeeps(pol, initial, st, h, Retried(pol, e));
      hide Provenance, LogOrphan, Grown;
      LogOrphanDisjointIff(pol, initial, marked, h, h, "retry failed", e.timestamp);
    }
  }

  lemma NoTicketOver(pol: Policy, initial: Digest, st: State, h: Digest, payload: Payload)
    requires initial.Initial? && Provenance(pol, initial, st) && Disjoint(st) && h in st.pending
    ensures Chained(h, payload) !in st.pending && Chained(h, payload) !in st.committed
  {
    assert EntryOk(pol, initial, st, h);
    assert h !in Chain(initial, st);
    forall g | g in st.pending ensures g.Chained? && g.parent in Chain(initial, st) {
      assert EntryOk(pol, initial, st, g);
    }
    forall g | g in st.committed ensures g.Chained? && g.parent in Chain(initial, st) {
      assert Grown(initial, st, g);
    }
  }

  /** From a disjoint state every outcome of an operation is disjoint exactly when it does not collide. */
  lemma NextDisjointIff(pol: Policy, initial: Digest, op: Op, st: State)
    requires initial.Initial? && Provenance(pol, initial, st) && Disjoint(st)
    ensures (forall after :: Next(pol, op, st, after) ==> Disjoint(after)) <==> NoCollision(pol, op, st)
  {
    hide Provenance;
    match op
    case Append(payload, ts) => ParkDisjointIff(st, payload, ts);
      assert Next(pol, op, st, Park(st, payload, ts).0);
    case ConfirmTicket(h) =>
    case RejectTicket(h, message) =>
      hide Disjoint, LogOrphan;
      assert Next(pol, op, st, Reject(pol, st, h, message).0);
      if h in st.pending {
        if message.Some? {
          RejectDisjointIff(pol, initial, st, h, message.value);
        } else {
          UnloggedDisjoint(pol, st, h);
        }
      }
    case RetryNext(callback) =>
      hide Disjoint, Retry, OrphanHash;
      RetryNextDisjointIff(pol, initial, callback, st);
  }

  lemma UnloggedDisjoint(pol: Policy, st: State, h: Digest)
    requires Disjoint(st) && h in st.pending
    ensures Disjoint(Reject(pol, st, h, None).0)
  {
  }

  lemma ParkDisjointIff(st: State, payload: Payload, ts: nat)
    requires Disjoint(st)
    ensures Disjoint(Park(st, payload, ts).0) <==>
      (ComputeHash(st.latest, payload).Ok? ==> ComputeHash(st.latest, payload).value !in st.committed)
  {
    var h := ComputeHash(st.latest, payload);
    if h.Ok? {
      assert h.value in Park(st, payload, ts).0.pending;
    }
  }

  lemma RetryNextDisjointIff(pol: Policy, initial: Digest, callback: (Digest, Payload, Digest) -> int, st: State)
    requires initial.Initial? && Provenance(pol, initial, st) && Disjoint(st)
    ensures (forall after :: Next(pol, RetryNext(callback), st, after) ==> Disjoint(after)) <==> NoCollision(pol, RetryNext(callback), st)
  {
    hide Provenance, Disjoint, Retry, OrphanHash;
    forall h | st.Oldest(h) ensures Disjoint(Retry(pol, st, h, callback).0) <==>
      (pol.logOrphans && callback(st.pending[h].parent, st.pending[h].payload, h) != 1 ==> OrphanHash(st, h, "retry failed") !in st.pending) {
      RetryDisjointIff(pol, initial, st, h, callback);
    }
    forall h | st.Oldest(h) ensures Next(pol, RetryNext(callback), st, Retry(pol, st, h, callback).0) {
    }
  }

  /** Such a ticket can be made: a caller appends the log record of a rejection that has yet to happen. */
  lemma ForgedLogRecordCollides(initial: Digest) returns (ops: seq<Op>, states: seq<State>)
    requires initial.Initial? && initial.isHex
    ensures Runs(Policy(3, true), initial, ops, states)
    ensures exists h :: h in Last(states).pending && h in Last(states).committed
  {
    var pol, first := Policy(3, true), Chained(initial, Record("{}"));
    var record := OrphanLog(first, "err", 5);
    ops := [Append(Record("{}"), 5), Append(record, 6), RejectTicket(first, Some("err"))];
    var s0 := Fresh(initial);
    var s1 := Park(s0, Record("{}"), 5).0;
    var s2 := Park(s1, record, 6).0;
    var s3 := Reject(pol, s2, first, Some("err")).0;
    states := [s0, s1, s2, s3];
    assert Chained(initial, record) in s3.pending && Chained(initial, record) in s3.committed;
    assert Next(pol, ops[0], s0, s1) && Next(pol, ops[1], s1, s2) && Next(pol, ops[2], s2, s3);
    hide Next;
    assert Last(states) == s3;
  }

  // ---------------------------------------------------------------- draining

  function Left(pol: Policy, e: Entry): nat {
    if e.status == Pending && e.retries <= pol.maxRetries then pol.maxRetries + 1 - e.retries else 0
  }

  /** The retries still to be had over all waiting entries. */
  ghost function Budget(pol: Policy, pending: map<Digest, Entry>): nat
    decreases |pending|
  {
    if pending == map[] then 0
    else
      var h :| h in pending;
      Left(pol, pending[h]) + Budget(pol, pending - {h})
  }

  lemma {:induction false} BudgetSplits(pol: Policy, pending: map<Digest, Entry>, h: Digest)
    requires h in pending
    ensures Budget(pol, pending) == Left(pol, pending[h]) + Budget(pol, pending - {h})
    decreases |pending|
  {
    var g :| g in pending && Budget(pol, pending) == Left(pol, pending[g]) + Budget(pol, pending - {g});
    if g != h {
      BudgetSplits(pol, pending - {g}, h);
      BudgetSplits(pol, pending - {h}, g);
      assert pending - {g} - {h} == pending - {h} - {g};
    }
  }

  lemma BudgetUpdate(pol: Policy, pending: map<Digest, Entry>, h: Digest, e: Entry)
    requires h in pending
    ensures Budget(pol, pending[h := e]) + Left(pol, pending[h]) == Budget(pol, pending) + Left(pol, e)
  {
    BudgetSplits(pol, pending, h);
    BudgetSplits(pol, pending[h := e], h);
    assert pending[h := e] - {h} == pending - {h};
  }

  lemma RetrySpends(pol: Policy, initial: Digest, st: State, h: Digest, callback: (Digest, Payload, Digest) -> int)
    requires Provenance(pol, initial, st) && st.Waiting(h)
    ensures Budget(pol, Retry(pol, st, h, callback).0.pending) < Budget(pol, st.pending)
  {
    assert EntryOk(pol, initial, st, h);
    var e := st.pending[h];
    hide Provenance;
    GrownHash(initial, st, h);
    hide Grown, Budget;
    if callback(e.parent, e.payload, h) == 1 {
      BudgetSplits(pol, st.pending, h);
    } else {
      BudgetUpdate(pol, st.pending, h, Retried(pol, e));
    }
  }

  ghost predicate SomethingWaits(st: State) {
    exists h :: st.Oldest(h)
  }

  /** Retries from operation i on, each finding something to retry. */
  ghost predicate Draining(ops: seq<Op>, states: seq<State>, i: nat)
    requires |states| == |ops| + 1
  {
    forall k :: i <= k < |ops| ==> ops[k].RetryNext? && SomethingWaits(states[k])
  }

  /** Draining by retries alone ends within the budget left at its start. */
  lemma {:induction false} DrainEnds(pol: Policy, initial: Digest, ops: seq<Op>, states: seq<State>, i: nat)
    requires Runs(pol, initial, ops, states) && i <= |ops| && Draining(ops, states, i)
    ensures |ops| - i + Budget(pol, states[|ops|].pending) <= Budget(pol, states[i].pending)
    decreases |ops| - i
  {
    if i < |ops| {
      assert Next(pol, ops[i], states[i], states[i + 1]) && SomethingWaits(states[i]);
      hide Provenance, Retry, Next, SomethingWaits, Budget;
      DrainEnds(pol, initial, ops, states, i + 1);
      RunsKeepProvenance(pol, initial, ops, states, i);
      NextSpends(pol, initial, ops[i].callback, states[i], states[i + 1]);
    }
  }

  lemma NextSpends(pol: Policy, initial: Digest, callback: (Digest, Payload, Digest) -> int, st: State, after: State)
    requires Provenance(pol, initial, st) && SomethingWaits(st) && Next(pol, RetryNext(callback), st, after)
    ensures Budget(pol, after.pending) < Budget(pol, st.pending)
  {
    hide Provenance, Retry, Budget;
    var h :| st.Oldest(h) && after == Retry(pol, st, h, callback).0;
    RetrySpends(pol, initial, st, h, callback);
  }

  /** The budget is exhausted exactly when nothing waits, so a drained turnstile answers -1. */
  lemma NothingWaitsIff(pol: Policy, initial: Digest, st: State)
    requires Provenance(pol, initial, st)
    ensures Budget(pol, st.pending) == 0 <==> forall h :: h in st.pending ==> st.pending[h].status != Pending
  {
    forall h | h in st.pending ensures st.pending[h].status == Pending ==> Left(pol, st.pending[h]) > 0 {
      assert EntryOk(pol, initial, st, h);
    }
    BudgetZeroIff(pol, st.pending);
  }

  lemma {:induction false} BudgetZeroIff(pol: Policy, pending: map<Digest, Entry>)
    ensures Budget(pol, pending) == 0 <==> forall h :: h in pending ==> Left(pol, pending[h]) == 0
    decreases |pending|
  {
    if pending != map[] {
      var g :| g in pending && Budget(pol, pending) == Left(pol, pending[g]) + Budget(pol, pending - {g});
      BudgetZeroIff(pol, pending - {g});
      forall h | h in pending && h != g ensures (pending - {g})[h] == pending[h] && h in pending - {g} {
      }
    }
  }

  // ---------------------------------------------------------------- the program

  class Turnstile {
    var latest: Digest
    var pending: map<Digest, Entry>
    var committed: set<Digest>
    var orphans: seq<OrphanEvent>
    var successes: seq<SuccessEvent>
    const pol: Policy

    function View(): State
      reads this
    {
      State(latest, pending, committed, orphans, successes)
    }

    constructor (initial: Digest, maxRetries: nat, logOrphans: bool)
      ensures View() == Fresh(initial) && pol == Policy(maxRetries, logOrphans)
    {
      latest := initial;
      pending, committed, orphans, successes := map[], {}, [], [];
      pol := Policy(maxRetries, logOrphans);
    }

    method LogOrphanLeaf(orig: Digest, message: string, ts: nat) returns (error: Option<Error>)
      modifies this
      ensures (View(), error) == LogOrphan(pol, old(View()), orig, message, ts)
    {
      if !pol.logOrphans {
        return None;
      }
      var h := ComputeHash(latest, OrphanLog(orig, message, ts));
      if h.Err? {
        return Some(h.error);
      }
      latest := h.value;
      committed := committed + {h.value};
      orphans := orphans + [OrphanEvent(h.value, orig, message, ts)];
      return None;
    }

    method LogSuccessLeaf(orig: Digest, ts: nat) returns (error: Option<Error>)
      modifies this
      ensures (View(), error) == LogSuccess(pol, old(View()), orig, ts)
    {
      if !pol.logOrphans {
        return None;
      }
      var h := ComputeHash(latest, SuccessLog(orig, ts));
      if h.Err? {
        return Some(h.error);
      }
      latest := h.value;
      committed := committed + {h.value};
      successes := successes + [SuccessEvent(h.value, orig, ts)];
      return None;
    }

    /** Parks a payload; appending the same payload again while nothing committed starts its entry over. */
    method Append(payload: Payload, ts: nat) returns (ticket: Result<Digest, Error>)
      modifies this
      ensures (View(), ticket) == Park(old(View()), payload, ts)
      ensures Next(pol, Op.Append(payload, ts), old(View()), View())
      ensures ticket.Ok? ==> View().Waiting(ticket.value)
    {
      var h := ComputeHash(latest, payload);
      if h.Ok? {
        pending := pending[h.value := Entry(latest, payload, ts, 0, None, Pending)];
      }
      return h;
    }

    method ConfirmTicket(h: Digest, status: bool, message: Option<string>) returns (error: Option<Error>)
      modifies this
      ensures (View(), error) == if status then Confirm(old(View()), h) else Reject(pol, old(View()), h, message)
      ensures Next(pol, if status then Op.ConfirmTicket(h) else RejectTicket(h, message), old(View()), View())
      ensures error == Some(NotFound) <==> h !in old(pending)
      ensures h !in old(pending) ==> View() == old(View())
      ensures h in old(pending) && status ==>
        && error.None? && h in committed && h !in pending && latest == h
        && committed == old(committed) + {h} && pending == old(pending) - {h}
        && orphans == old(orphans) && successes == old(successes)
      ensures h in old(pending) && !status ==>
        && pending.Keys == old(pending).Keys && successes == old(successes)
        && pending[h].retries == old(pending)[h].retries + 1
        && (pending[h].retries > pol.maxRetries ==> pending[h].status == FailedPermanent)
        && forall g :: g in pending && g != h ==> pending[g] == old(pending)[g]
    {
      if h !in pending {
        return Some(NotFound);
      }
      if status {
        pending := pending - {h};
        latest := h;
        committed := committed + {h};
        return None;
      }
      var e := pending[h];
      e := e.(retries := e.retries + 1);
      if message.Some? {
        e := e.(lastError := message);
      }
      if e.retries > pol.maxRetries {
        e := e.(status := FailedPermanent);
      }
      pending := pending[h := e];
      if message.Some? {
        error := LogOrphanLeaf(h, message.value, e.timestamp);
        return;
      }
      return None;
    }

    /** Some waiting entry with the least timestamp; ties fall to the map's iteration order. */
    method OldestWaiting() returns (r: Option<Digest>)
      ensures r.Some? ==> View().Oldest(r.value)
      ensures r.None? ==> forall h :: h in pending ==> !View().Waiting(h)
    {
      r := None;
      var rest := pending.Keys;
      while rest != {}
        invariant rest <= pending.Keys
        invariant r.Some? ==> View().Waiting(r.value) && r.value !in rest
        invariant forall h :: h in pending && h !in rest && View().Waiting(h) ==>
          r.Some? && pending[r.value].timestamp <= pending[h].timestamp
        decreases rest
      {
        var h :| h in rest;
        rest := rest - {h};
        if pending[h].status == Pending && (r.None? || pending[h].timestamp < pending[r.value].timestamp) {
          r := Some(h);
        }
      }
    }

    /** Retries the oldest waiting entry: -1 nothing to do, -2 corrupted, 0 committed, 1 failed, 2 failed for good. */
    method RetryNextPending(callback: (Digest, Payload, Digest) -> int) returns (r: Result<int, Error>)
      modifies this
      ensures Next(pol, RetryNext(callback), old(View()), View())
      ensures r == Ok(-1) <==> forall h :: h in old(pending) ==> old(pending)[h].status != Pending
      ensures r != Ok(-1) ==> exists h :: old(View()).Oldest(h) && (View(), r) == Retry(pol, old(View()), h, callback)
    {
      var found := OldestWaiting();
      if found.None? {
        return Ok(-1);
      }
      var h := found.value;
      var e := pending[h];
      ghost var st := View();
      assert st.Oldest(h);
      var computed := ComputeHash(e.parent, e.payload);
      if computed.Err? {
        return Err(computed.error);
      }
      if computed.value != h {
        pending := pending[h := e.(status := FailedPermanent)];
        return Ok(-2);
      }
      var rc := callback(e.parent, e.payload, h);
      if rc == 1 {
        latest := h;
        committed := committed + {h};
        pending := pending - {h};
        var error := LogSuccessLeaf(h, e.timestamp);
        return if error.Some? then Err(error.value) else Ok(0);
      }
      e := e.(retries := e.retries + 1);
      if e.retries >= pol.maxRetries {
        e := e.(status := FailedPermanent);
      } else {
        e := e.(lastError := Some("retry failed"));
      }
      pending := pending[h := e];
      var error := LogOrphanLeaf(h, "retry failed", e.timestamp);
      return if error.Some? then Err(error.value) else Ok(if e.retries >= pol.maxRetries then 2 else 1);
    }

    method LeafExists(h: Digest) returns (r: bool)
      ensures r == View().LeafExists(h)
    {
      return h in pending || h in committed;
    }

    /** The number of waiting entries. */
    method PendingCount() returns (n: nat)
      ensures n == |set h | h in pending && View().Waiting(h)|
    {
      n := 0;
      var rest := pending.Keys;
      ghost var seen: set<Digest> := {};
      while rest != {}
        invariant rest <= pending.Keys && n == |seen|
        invariant seen == set h | h in pending && h !in rest && View().Waiting(h)
        decreases rest
      {
        var h :| h in rest;
        rest := rest - {h};
        if pending[h].status == Pending {
          n := n + 1;
          seen := seen + {h};
        }
      }
      assert seen == set h | h in pending && View().Waiting(h);
    }
  }
}
