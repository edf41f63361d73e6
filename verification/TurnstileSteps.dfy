/** What each turnstile operation does to tickets, the chain and the logs, field by field. */
module TurnstileSteps {
  import opened Prelude
  import opened Turnstiles

  /** Logging is on and puts this record at the end of the chain, or it is off and changes nothing. */
  ghost predicate OrphanLogged(pol: Policy, st: State, after: State, orig: Digest, message: string, ts: nat) {
    && after.successes == st.successes
    && if pol.logOrphans then
         && after.latest == Chained(st.latest, OrphanLog(orig, message, ts)) && after.committed == st.committed + {after.latest}
         && after.orphans == st.orphans + [OrphanEvent(after.latest, orig, message, ts)]
       else after.latest == st.latest && after.committed == st.committed && after.orphans == st.orphans
  }

  ghost predicate SameLogs(st: State, after: State) {
    after.latest == st.latest && after.committed == st.committed && after.orphans == st.orphans && after.successes == st.successes
  }

  /** Only the entry of h may differ. */
  ghost predicate OthersWait(st: State, after: State, h: Digest) {
    after.pending.Keys == st.pending.Keys && forall g :: g in st.pending && g != h ==> after.pending[g] == st.pending[g]
  }

  /** The entry keeps everything but its count of retries, its last error and its status. */
  ghost predicate CountedAgain(e: Entry, f: Entry) {
    f.parent == e.parent && f.payload == e.payload && f.timestamp == e.timestamp && f.retries == e.retries + 1
  }

  /** A valid payload waits under its hash over the latest hash; an invalid one, or a bad starting hash, changes nothing. */
  lemma AppendOutcome(st: State, payload: Payload, ts: nat)
    ensures var (after, ticket) := Park(st, payload, ts);
      && SameLogs(st, after)
      && (ticket.Ok? <==> !payload.Malformed? && (st.latest.Initial? ==> st.latest.isHex))
      && (ticket.Ok? ==>
           && ticket.value == Chained(st.latest, payload)
           && after.pending == st.pending[ticket.value := Entry(st.latest, payload, ts, 0, None, Pending)])
      && (ticket.Err? ==> after == st && ticket.error == if payload.Malformed? then InvalidJson else InvalidHex)
  {
  }

  /** A confirmed ticket leaves pending, is committed, and becomes the latest hash; nothing else changes. */
  lemma ConfirmOutcome(st: State, h: Digest)
    ensures var (after, error) := Confirm(st, h);
      && (error == Some(NotFound) <==> h !in st.pending)
      && (h !in st.pending ==> after == st)
      && (h in st.pending ==>
           && error.None? && after.latest == h && after.committed == st.committed + {h}
           && after.pending.Keys == st.pending.Keys - {h} && (forall g :: g in after.pending ==> after.pending[g] == st.pending[g])
           && after.orphans == st.orphans && after.successes == st.successes)
  {
  }

  /** A rejected ticket stays, with one more retry counted; it fails for good once the count exceeds the limit. */
  lemma RejectOutcome(pol: Policy, initial: Digest, st: State, h: Digest, message: Option<string>)
    requires Provenance(pol, initial, st) && initial.Initial?
    ensures var (after, error) := Reject(pol, st, h, message);
      && (h !in st.pending ==> after == st && error == Some(NotFound))
      && (h in st.pending ==>
           var e, f := st.pending[h], after.pending[h];
           && error.None? && OthersWait(st, after, h) && CountedAgain(e, f)
           && f.lastError == (if message.Some? then message else e.lastError)
           && f.status == (if e.retries + 1 > pol.maxRetries then FailedPermanent else e.status)
           && (if message.Some? then OrphanLogged(pol, st, after, h, message.value, e.timestamp) else SameLogs(st, after)))
  {
    if h in st.pending {
      LatestHashes(pol, initial, st, OrphanLog(h, "", 0), h);
    }
  }

  /** A successful retry commits the ticket and its success record and answers 0.  A failed one counts a retry and logs an
      orphan record; it answers 2 and fails for good when the count reaches the limit, and answers 1 otherwise. */
  lemma RetryOutcome(pol: Policy, initial: Digest, st: State, h: Digest, callback: (Digest, Payload, Digest) -> int)
    requires Provenance(pol, initial, st) && initial.Initial? && st.Waiting(h)
    ensures var (after, code) := Retry(pol, st, h, callback);
      var e := st.pending[h];
      if callback(e.parent, e.payload, h) == 1 then
        && code == Ok(0)
        && after.pending.Keys == st.pending.Keys - {h} && (forall g :: g in after.pending ==> after.pending[g] == st.pending[g])
        && after.orphans == st.orphans
        && (if pol.logOrphans then
              && after.latest == Chained(h, SuccessLog(h, e.timestamp)) && after.committed == st.committed + {h, after.latest}
              && after.successes == st.successes + [SuccessEvent(after.latest, h, e.timestamp)]
            else after.latest == h && after.committed == st.committed + {h} && after.successes == st.successes)
      else
        && OthersWait(st, after, h) && CountedAgain(e, after.pending[h])
        && OrphanLogged(pol, st, after, h, "retry failed", e.timestamp)
        && (if e.retries + 1 >= pol.maxRetries
            then code == Ok(2) && after.pending[h].status == FailedPermanent && after.pending[h].lastError == e.lastError
            else code == Ok(1) && after.pending[h].status == Pending && after.pending[h].lastError == Some("retry failed"))
  {
    assert EntryOk(pol, initial, st, h);
    GrownHash(initial, st, h);
    LatestHashes(pol, initial, st, OrphanLog(h, "", 0), h);
  }

  /** An entry that no longer hashes to its ticket fails for good with -2; one that cannot be hashed is an error and stays. */
  lemma CorruptOutcome(pol: Policy, st: State, h: Digest, callback: (Digest, Payload, Digest) -> int)
    requires h in st.pending && h != Chained(st.pending[h].parent, st.pending[h].payload)
    ensures var (after, code) := Retry(pol, st, h, callback);
      var e := st.pending[h];
      if e.payload.Malformed? || (e.parent.Initial? && !e.parent.isHex) then
        after == st && code == Err(if e.payload.Malformed? then InvalidJson else InvalidHex)
      else
        && code == Ok(-2) && SameLogs(st, after) && OthersWait(st, after, h)
        && after.pending[h] == e.(status := FailedPermanent)
  {
  }

  /** A log record is put at the end of the chain unless logging is off or the latest hash is no hash; the operation itself is
      not taken back when its record cannot be hashed. */
  lemma LogOutcome(pol: Policy, st: State, orig: Digest, message: string, ts: nat)
    ensures var hashable := st.latest.Initial? ==> st.latest.isHex;
      && (pol.logOrphans && !hashable ==>
           LogOrphan(pol, st, orig, message, ts) == (st, Some(InvalidHex)) && LogSuccess(pol, st, orig, ts) == (st, Some(InvalidHex)))
      && (!pol.logOrphans || hashable ==>
           && LogOrphan(pol, st, orig, message, ts).1.None? && LogSuccess(pol, st, orig, ts).1.None?
           && OrphanLogged(pol, st, LogOrphan(pol, st, orig, message, ts).0, orig, message, ts))
  {
  }

  /** A waiting entry no younger than any other waiting entry. */
  ghost predicate LongestWaiting(st: State, h: Digest) {
    && h in st.pending && st.pending[h].status == Pending
    && forall g :: g in st.pending && st.pending[g].status == Pending ==> st.pending[h].timestamp <= st.pending[g].timestamp
  }

  /** A retry takes up one of the oldest waiting entries and no other; with none waiting it changes nothing. */
  lemma RetryTakesOldest(pol: Policy, initial: Digest, callback: (Digest, Payload, Digest) -> int, st: State, after: State)
    requires Provenance(pol, initial, st) && initial.Initial? && Next(pol, RetryNext(callback), st, after)
    ensures (forall h :: h in st.pending ==> st.pending[h].status != Pending) ==> after == st
    ensures (exists h :: h in st.pending && st.pending[h].status == Pending) ==>
      exists h :: LongestWaiting(st, h)
        && (if h in after.pending then OthersWait(st, after, h) && CountedAgain(st.pending[h], after.pending[h])
            else after.pending == st.pending - {h} && h in after.committed)
  {
    hide Provenance, LogOrphan, LogSuccess;
    if exists h :: st.Oldest(h) {
      var h :| st.Oldest(h) && after == Retry(pol, st, h, callback).0;
      RetryOutcome(pol, initial, st, h, callback);
      assert LongestWaiting(st, h);
    } else if h :| h in st.pending && st.pending[h].status == Pending {
      var g := OldestOf(st, h);
      assert st.Oldest(g);
    }
  }

  lemma {:induction false} OldestOf(st: State, h: Digest) returns (g: Digest)
    requires st.Waiting(h)
    ensures LongestWaiting(st, g)
    decreases st.pending[h].timestamp
  {
    g := h;
    if f :| f in st.pending && st.Waiting(f) && st.pending[f].timestamp < st.pending[h].timestamp {
      g := OldestOf(st, f);
    }
  }

  /** In every run a ticket that was waiting when it was confirmed is the latest hash next, and committed in all later states. */
  lemma ConfirmedStaysCommitted(pol: Policy, initial: Digest, ops: seq<Op>, states: seq<State>, i: nat, j: nat)
    requires Runs(pol, initial, ops, states) && i < j < |states|
    requires ops[i].ConfirmTicket? && ops[i].ticket in states[i].pending
    ensures states[i + 1].latest == ops[i].ticket && ops[i].ticket !in states[i + 1].pending
    ensures ops[i].ticket in states[j].committed
  {
    assert Next(pol, ops[i], states[i], states[i + 1]);
    ConfirmOutcome(states[i], ops[i].ticket);
    if i + 1 < j {
      TicketsAreKept(pol, initial, ops, states, i + 1, j);
    }
  }
}
