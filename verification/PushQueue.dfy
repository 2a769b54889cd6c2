/**
 The push queue as the client keeps it: an object whose fields are updated in place. Every
 method is specified by the function of the same step in module PushQueueSpec.
 */
module PushQueue {
  import opened PushQueueSpec
  import opened Wrappers
  import Spec = PushQueueSpec

  class PushQueue {
    var dirtySet: set<DocId>
    var timers: map<DocId, nat>
    var firstChange: map<DocId, nat>
    var flushing: bool
    var ratePaused: bool
    var backoffMs: nat
    var backoffArmed: bool
    var errorCounts: map<DocId, nat>
    var deferredNoKey: set<DocId>
    var failedVaults: set<string>
    var pendingVaultIds: set<string>
    var ready: bool

    function Model(): State
      reads this
    {
      State(dirtySet, timers, firstChange, flushing, ratePaused, backoffMs, backoffArmed,
            errorCounts, deferredNoKey, failedVaults, pendingVaultIds, ready)
    }

    constructor (flags: set<DocId>)
      ensures Model() == State(flags, map[], map[], false, false, BACKOFF_INITIAL, false, map[], {}, {}, {}, true)
    {
      dirtySet := flags;
      timers, firstChange := map[], map[];
      flushing, ratePaused, backoffArmed, ready := false, false, false, true;
      backoffMs := BACKOFF_INITIAL;
      errorCounts := map[];
      deferredNoKey, failedVaults, pendingVaultIds := {}, {}, {};
    }

    /** Marks the document and schedules a push; `push` tells whether one starts now. */
    method MarkDirty(docId: DocId, now: nat, connected: bool) returns (push: bool)
      modifies this
      ensures Model() == Spec.MarkDirty(old(Model()), docId, now)
      ensures push <==> FiresNow(old(Model()), docId, now) && connected
    {
      dirtySet := dirtySet + {docId};
      push := SchedulePush(docId, now, connected);
    }

    method SchedulePush(docId: DocId, now: nat, connected: bool) returns (push: bool)
      requires docId in dirtySet
      modifies this
      ensures Model() == Spec.MarkDirty(old(Model()), docId, now)
      ensures push <==> FiresNow(old(Model()), docId, now) && connected
    {
      ghost var q := Model();
      assert q.dirty + {docId} == q.dirty;
      if docId !in firstChange { firstChange := firstChange[docId := now]; }
      assert firstChange == q.firstChange[docId := BurstStart(q, docId, now)];
      var elapsed := now - firstChange[docId];
      if elapsed >= MAX_WAIT_MS {
        push := FireDebounce(docId, connected);
        assert firstChange == q.firstChange - {docId};
      } else {
        push := false;
        var delay := Min(DEBOUNCE_MS, MAX_WAIT_MS - elapsed);
        timers := timers[docId := now + delay];
      }
    }

    /** Forgets the timer; a push starts unless the socket is closed. */
    method FireDebounce(docId: DocId, connected: bool) returns (push: bool)
      modifies this
      ensures Model() == Spec.CancelTimer(old(Model()), docId)
      ensures push == connected
    {
      CancelTimer(docId);
      push := connected;
    }

    method CancelTimer(docId: DocId)
      modifies this
      ensures Model() == Spec.CancelTimer(old(Model()), docId)
    {
      timers := timers - {docId};
      firstChange := firstChange - {docId};
    }

    /** flushNow up to the call of pushDoc. */
    method FlushNow(docId: DocId)
      modifies this
      ensures Model() == Spec.CancelTimer(old(Model()), docId).(dirty := old(dirtySet) + {docId})
    {
      CancelTimer(docId);
      dirtySet := dirtySet + {docId};
    }

    /** onAck after the flag and the number have been written to IndexedDB. */
    method OnAck(docId: DocId)
      modifies this
      ensures Model() == AckDone(old(Model()), docId)
    {
      var wasDirty := docId in dirtySet;
      dirtySet := dirtySet - {docId};
      errorCounts := errorCounts - {docId};
      if wasDirty { backoffMs := BACKOFF_INITIAL; }
    }

    /** A rejected push; `clearFlags` names the documents whose flag in IndexedDB is deleted. */
    method OnPushError(docId: DocId, insufficientPermissions: bool, discard: bool) returns (clearFlags: set<DocId>)
      modifies this
      ensures var q := old(Model()); var vault := docId.vault;
              if insufficientPermissions && vault != "" then
                Model() == Forbidden(q, docId, discard) &&
                clearFlags == if vault in q.pendingVaults || vault in q.failedVaults || !discard then {} else DirtyIn(q, vault)
              else
                Model() == Rejected(q, docId) && clearFlags == if GivesUp(q, docId) then {docId} else {}
    {
      clearFlags := {};
      var vaultId := docId.vault;
      if insufficientPermissions && vaultId != "" {
        if vaultId in pendingVaultIds {
          dirtySet := dirtySet - {docId};
          return;
        }
        if vaultId !in failedVaults {
          failedVaults := failedVaults + {vaultId};
          var vaultDirtyIds := set d | d in dirtySet && d.vault == vaultId;
          if vaultDirtyIds != {} && discard {
            dirtySet := dirtySet - vaultDirtyIds;
            clearFlags := vaultDirtyIds;
          }
        }
        return;
      }
      var count := (if docId in errorCounts then errorCounts[docId] else 0) + 1;
      ghost var before := errorCounts;
      errorCounts := errorCounts[docId := count];
      dirtySet := dirtySet - {docId};
      if count >= MAX_PUSH_ERRORS {
        clearFlags := {docId};
        errorCounts := errorCounts - {docId};
        assert errorCounts == before - {docId};
      }
    }

    method OnRateLimited(retryAfterMs: nat)
      modifies this
      ensures Model() == RateLimited(old(Model()), retryAfterMs)
    {
      ratePaused := true;
      if retryAfterMs > 0 { backoffMs := Max(backoffMs, retryAfterMs); }
      if !backoffArmed { backoffArmed := true; }
    }

    /** The back-off timer, up to its call of flushAllDirty. */
    method OnBackoffTimer()
      modifies this
      ensures Model() == BackoffFires(old(Model()))
    {
      backoffArmed := false;
      ratePaused := false;
      backoffMs := Min(backoffMs * 2, BACKOFF_MAX);
    }

    /** The start of flushAllDirty: `batch` is what the loop will go through, if it runs. */
    method BeginFlush(connected: bool) returns (batch: set<DocId>)
      modifies this
      ensures old(flushing) || !connected || !old(ready) ==> Model() == old(Model()) && batch == {}
      ensures !old(flushing) && connected && old(ready) ==>
                Model() == old(Model()).(flushing := true, ratePaused := false) && batch == old(dirtySet)
    {
      batch := {};
      if flushing || !connected || !ready { return; }
      flushing := true;
      ratePaused := false;
      batch := dirtySet;
    }

    /** The end of flushAllDirty: pushable documents left over get a back-off timer. */
    method EndFlush(connected: bool)
      modifies this
      ensures Model() == FlushEnds(old(Model()), connected)
      ensures connected && Pushable(Model()) != {} ==> backoffArmed
    {
      flushing := false;
      var hasPushable := exists d | d in dirtySet :: !Skipped(Model(), d);
      assert hasPushable <==> Pushable(Model()) != {} by {
        if hasPushable {
          var d :| d in dirtySet && !Skipped(Model(), d);
          assert d in Pushable(Model());
        }
      }
      if hasPushable && connected && !backoffArmed { backoffArmed := true; }
    }

    /** The part of poll after the flags have been read. */
    method OnPoll(flags: set<DocId>)
      modifies this
      ensures Model() == PollFinds(old(Model()), flags)
    {
      dirtySet := dirtySet + set d | d in flags && !(d.vault != "" && d.vault in failedVaults);
    }

    method OnVaultsChanged()
      modifies this
      ensures Model() == old(Model()).(ready := true, deferredNoKey := {}, failedVaults := {})
    {
      ready := true;
      if deferredNoKey != {} { deferredNoKey := {}; }
      if failedVaults != {} { failedVaults := {}; }
    }
  }
}
