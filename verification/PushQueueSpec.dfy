/**
 The client's push queue on values: dirty documents, debounce timers, rejections and back-off.
 Each function is one stretch of the queue's code between two awaits.
 */
module PushQueueSpec {
  import opened Wrappers

  /** A document id split at its first '/'; `vault` is "" for a personal document. */
  datatype DocId = DocId(vault: string, name: string)

  const DEBOUNCE_MS := 200
  const MAX_WAIT_MS := 1500
  const BACKOFF_INITIAL := 2000
  const BACKOFF_MAX := 30000
  const MAX_PUSH_ERRORS := 5

  /** `timers` maps a document to the time its debounce timer fires. */
  datatype State = State(dirty: set<DocId>, timers: map<DocId, nat>, firstChange: map<DocId, nat>,
                         flushing: bool, ratePaused: bool, backoffMs: nat, backoffArmed: bool,
                         errorCounts: map<DocId, nat>, deferredNoKey: set<DocId>,
                         failedVaults: set<string>, pendingVaults: set<string>, ready: bool)

  function Min(a: int, b: int): int { if a <= b then a else b }

  function CancelTimer(q: State, d: DocId): State {
    q.(timers := q.timers - {d}, firstChange := q.firstChange - {d})
  }

  /** When the burst that started at `first` fires, if its last call is at `last`. */
  function Deadline(first: nat, last: nat): nat {
    Min(last + DEBOUNCE_MS, first + MAX_WAIT_MS)
  }

  function BurstStart(q: State, d: DocId, now: nat): nat {
    if d in q.firstChange then q.firstChange[d] else now
  }

  /** Does this call of markDirty fire at once, its burst having waited MAX_WAIT_MS? */
  predicate FiresNow(q: State, d: DocId, now: nat) {
    now >= BurstStart(q, d, now) + MAX_WAIT_MS
  }

  function MarkDirty(q: State, d: DocId, now: nat): State {
    var first, fires := BurstStart(q, d, now), FiresNow(q, d, now);
    q.(dirty := q.dirty + {d},
       timers := if fires then q.timers - {d} else q.timers[d := Deadline(first, now)],
       firstChange := if fires then q.firstChange - {d} else q.firstChange[d := first])
  }

  function AckDone(q: State, d: DocId): State {
    q.(dirty := q.dirty - {d}, errorCounts := q.errorCounts - {d},
       backoffMs := if d in q.dirty then BACKOFF_INITIAL else q.backoffMs)
  }

  function ErrorCount(q: State, d: DocId): nat {
    if d in q.errorCounts then q.errorCounts[d] else 0
  }

  /** Does one more rejection make the queue give the document up? */
  predicate GivesUp(q: State, d: DocId) {
    ErrorCount(q, d) + 1 >= MAX_PUSH_ERRORS
  }

  function Rejected(q: State, d: DocId): State {
    q.(dirty := q.dirty - {d},
       errorCounts := if GivesUp(q, d) then q.errorCounts - {d} else q.errorCounts[d := ErrorCount(q, d) + 1])
  }

  /** The documents of the queue that belong to a vault. */
  function DirtyIn(q: State, vault: string): set<DocId> {
    set d | d in q.dirty && d.vault == vault
  }

  /** What a permission error takes out of the queue; `discard` is the user's answer to the dialog. */
  function TakenOut(q: State, d: DocId, discard: bool): set<DocId> {
    if d.vault in q.pendingVaults then {d}
    else if d.vault !in q.failedVaults && discard then DirtyIn(q, d.vault)
    else {}
  }

  /** A permission error blocks the vault, unless it is still to be created. */
  function Forbidden(q: State, d: DocId, discard: bool): State {
    q.(dirty := q.dirty - TakenOut(q, d, discard),
       failedVaults := if d.vault in q.pendingVaults then q.failedVaults else q.failedVaults + {d.vault})
  }

  /** flushAllDirty and pushableCount skip a document for these reasons. */
  predicate Skipped(q: State, d: DocId) {
    d in q.deferredNoKey || (d.vault != "" && (d.vault in q.pendingVaults || d.vault in q.failedVaults))
  }

  function Pushable(q: State): set<DocId> {
    set d | d in q.dirty && !Skipped(q, d)
  }

  function RateLimited(q: State, retryAfterMs: nat): State {
    q.(ratePaused := true, backoffMs := Max(q.backoffMs, retryAfterMs), backoffArmed := true)
  }

  function BackoffFires(q: State): State {
    q.(backoffArmed := false, ratePaused := false, backoffMs := Min(q.backoffMs * 2, BACKOFF_MAX))
  }

  function FlushEnds(q: State, open: bool): State {
    q.(flushing := false, backoffArmed := q.backoffArmed || (open && Pushable(q) != {}))
  }

  function PollFinds(q: State, flags: set<DocId>): State {
    q.(dirty := q.dirty + set d | d in flags && !(d.vault != "" && d.vault in q.failedVaults))
  }

  // ---- rejections

  /** The state after `n` rejections in a row. */
  function RejectedTimes(q: State, d: DocId, n: nat): State {
    if n == 0 then q else Rejected(RejectedTimes(q, d, n - 1), d)
  }

  /**
   After an ack, exactly the fifth rejection in a row gives the document up, then again the
   tenth, and so on.
   */
  lemma {:induction false} GivesUpOnEveryFifthRejection(q: State, d: DocId, n: nat)
    requires d !in q.errorCounts
    ensures ErrorCount(RejectedTimes(q, d, n), d) == n % MAX_PUSH_ERRORS
    ensures GivesUp(RejectedTimes(q, d, n), d) <==> (n + 1) % MAX_PUSH_ERRORS == 0
  {
    if n > 0 {
      GivesUpOnEveryFifthRejection(q, d, n - 1);
      OneMoreRejection(RejectedTimes(q, d, n - 1), d);
      NextInFive(n - 1);
    } else {
      NextInFive(0);
    }
  }

  lemma OneMoreRejection(q: State, d: DocId)
    ensures ErrorCount(Rejected(q, d), d) == if GivesUp(q, d) then 0 else ErrorCount(q, d) + 1
  {
  }

  lemma NextInFive(n: nat)
    ensures (n + 1) % MAX_PUSH_ERRORS == if n % MAX_PUSH_ERRORS + 1 == MAX_PUSH_ERRORS then 0 else n % MAX_PUSH_ERRORS + 1
    ensures 0 <= n % MAX_PUSH_ERRORS < MAX_PUSH_ERRORS
  {
  }
}
