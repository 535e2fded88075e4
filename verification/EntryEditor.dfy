/**
 The row editor itself: refs and state updated in place, and the shared store it reports to. Every method is
 proved to take the step of the protocol it is named after, and to leave the records of other entries alone.
 */
module EntryEditor {
  import opened Options
  import opened Sequences
  import opened Drafts
  import opened ServerModel
  import opened EditorProtocol
  import opened DraftObjects
  import opened SummaryCounts
  import opened SaveStatusStore

  /** No record but that of the entry may differ. */
  ghost predicate OthersKept(before: Records, after: Records, entryId: EntryId) {
    forall id :: id != entryId ==>
      (id in before <==> id in after) && (id in before ==> before[id] == after[id])
  }

  /** What the continuation of a request relies on. */
  predicate Resumable(f: Flight) {
    f.Flush? ==>
      && f.next < |f.patches| && AllWellFormed(f.patches)
      && (forall k :: k in f.clear ==> TargetOf(k) == f.patches[f.next].target)
  }

  class PayrollEntryEditor {
    const store: Store
    const entryId: EntryId
    const cycleId: CycleId
    const handle: Retry

    var mounted: bool
    var entryDraft: EntryDraft
    var lineDrafts: LineDrafts
    var status: SaveStatus
    var statusRef: SaveStatus
    var entryRef: Snapshot
    var savingRef: bool
    var pendingRef: bool
    var retryCountRef: nat
    var saveTimer: bool
    var retryTimer: bool
    var strayTimers: nat
    var flights: seq<Flight>

    ghost var typed: map<Key, Value>
    ghost var acked: map<Key, Value>
    ghost var rejected: bool

    ghost function Record(): Option<SaveStatus>
      reads this, store
    {
      if entryId in store.records then Some(store.records[entryId].status) else None
    }

    ghost function Model(): Editor
      reads this
    {
      Editor(mounted, Flat(entryDraft, lineDrafts), status, statusRef, entryRef, savingRef, pendingRef, retryCountRef,
             saveTimer, retryTimer, strayTimers, flights, typed, acked, rejected)
    }

    ghost function View(): Local
      reads this, store
    {
      Local(Model(), Record())
    }

    ghost predicate Valid()
      reads this, store
    {
      && store.Valid() && NoEmptyLine(lineDrafts)
      && (entryId in store.records ==> store.records[entryId].cycleId == cycleId)
      && (forall j :: 0 <= j < |flights| ==> Resumable(flights[j]))
    }

    /** A record as this editor writes it. */
    predicate IsOwn(record: EntrySaveRecord) {
      record.cycleId == cycleId && record.retry == Some(handle)
    }

    /** No record of another entry differs, and the entry's own, if it has one that differs, is this editor's. */
    ghost predicate OnlyOwnRecord(before: Records)
      reads store
    {
      && OthersKept(before, store.records, entryId)
      && (entryId in store.records ==>
            IsOwn(store.records[entryId]) || (entryId in before && store.records[entryId] == before[entryId]))
    }

    constructor (store: Store, entryId: EntryId, cycleId: CycleId, handle: Retry, entry: Snapshot)
      requires store.Valid() && (entryId in store.records ==> store.records[entryId].cycleId == cycleId)
      ensures Valid() && this.store == store && this.entryId == entryId && this.cycleId == cycleId
              && this.handle == handle
      ensures Model() == NewEditor(entry)
    {
      this.store, this.entryId, this.cycleId, this.handle := store, entryId, cycleId, handle;
      mounted, entryDraft, lineDrafts, status, statusRef, entryRef := true, map[], map[], Idle, Idle, entry;
      savingRef, pendingRef, retryCountRef, saveTimer, retryTimer, strayTimers := false, false, 0, false, false, 0;
      flights, typed, acked, rejected := [], map[], map[], false;
      new;
      FlatIsEmptyIff(map[], map[]);
    }

    /** Every status change goes through here: the row's own state and the shared store together. */
    method Report(next: SaveStatus)
      requires Valid()
      modifies this`status, this`rejected, store
      ensures Valid() && View() == EditorProtocol.Report(old(View()), next)
      ensures OnlyOwnRecord(old(store.records))
      ensures entryId in store.records <==> IsPendingStatus(next)
      ensures IsPendingStatus(next) ==>
                store.records[entryId] == EntrySaveRecord(cycleId, next, None, Some(handle))
      ensures old(Sound(store.View())) ==> Sound(store.View())
    {
      status, rejected := next, false;
      Mirror(next);
    }

    /** The store's half of a report: the retry handle stored with the record is this editor's. */
    method Mirror(next: SaveStatus)
      requires store.Valid() && (entryId in store.records ==> store.records[entryId].cycleId == cycleId)
      modifies store
      ensures store.Valid() && OthersKept(old(store.records), store.records, entryId)
      ensures entryId in store.records <==> IsPendingStatus(next)
      ensures IsPendingStatus(next) ==>
                store.records[entryId] == EntrySaveRecord(cycleId, next, None, Some(handle))
      ensures old(Sound(store.View())) ==> Sound(store.View())
    {
      ghost var m := store.View();
      store.Set(entryId, cycleId, next, None, Some(handle));
      if Sound(m) { AfterSetSoundIff(m, entryId, EntrySaveRecord(cycleId, next, None, Some(handle))); }
    }

    /**
     Flushes everything sendable: nothing in conflict, nothing without a sendable key, and only asked for
     again if a flush is under way.
     */
    method Commit()
      requires Valid()
      modifies this, store
      ensures Valid() && View() == EditorProtocol.Commit(old(View()))
      ensures OnlyOwnRecord(old(store.records))
      ensures old(Sound(store.View())) ==> Sound(store.View())
    {
      if statusRef == Conflict {
        return;
      }
      var patches := BuildPayload(entryDraft, lineDrafts, entryRef.content.lines);
      PatchesForTargets(Flat(entryDraft, lineDrafts), Targets(entryRef.content.lines));
      if patches == [] {
        return;
      }
      if savingRef {
        pendingRef := true;
        return;
      }
      StartFlush(patches);
    }

    method StartFlush(patches: seq<Patch>)
      requires Valid() && patches != [] && AllWellFormed(patches)
      modifies this, store
      ensures Valid() && View() == EditorProtocol.StartFlush(old(View()), patches)
      ensures OnlyOwnRecord(old(store.records))
      ensures old(Sound(store.View())) ==> Sound(store.View())
    {
      savingRef := true;
      ClearKeysAreClearFor(patches[0], entryDraft, lineDrafts);
      Send(Flush(patches, 0, entryRef.version, ClearKeys(patches[0], lineDrafts), InTransit, entryRef.version,
                 Union(patches)));
      Report(Saving);
    }

    /** A request leaves; the rest of its chain waits as a flight. */
    method Send(f: Flight)
      requires Valid() && Resumable(f)
      modifies this`flights
      ensures Valid() && View() == old(View()).(ed := old(View()).ed.(flights := old(flights) + [f]))
    {
      flights := flights + [f];
    }

    method ScheduleSave()
      requires Valid()
      modifies this, store
      ensures Valid() && View() == EditorProtocol.ScheduleSave(old(View()))
      ensures OnlyOwnRecord(old(store.records))
      ensures old(Sound(store.View())) ==> Sound(store.View())
    {
      if statusRef != Conflict {
        Report(Dirty);
      }
      saveTimer := true;
    }

    method SetEntryField(f: EntryField, value: Value)
      requires Valid()
      modifies this, store
      ensures Valid() && View() == Edit(old(View()), EntryKey(f), value)
      ensures OnlyOwnRecord(old(store.records))
      ensures old(Sound(store.View())) ==> Sound(store.View())
    {
      SetEntryDraft(f, value);
      ScheduleSave();
    }

    method SetEntryDraft(f: EntryField, value: Value)
      requires Valid()
      modifies this`entryDraft, this`typed
      ensures Valid()
      ensures Model() == old(Model()).(draft := old(Model()).draft[EntryKey(f) := value],
                                       typed := old(typed)[EntryKey(f) := value])
    {
      FlatSetEntry(entryDraft, lineDrafts, f, value);
      entryDraft := entryDraft[f := value];
      typed := typed[EntryKey(f) := value];
    }

    method SetLineField(id: LineId, f: LineField, value: Value)
      requires Valid()
      modifies this, store
      ensures Valid() && View() == Edit(old(View()), LineKey(id, f), value)
      ensures OnlyOwnRecord(old(store.records))
      ensures old(Sound(store.View())) ==> Sound(store.View())
    {
      SetLineDraft(id, f, value);
      ScheduleSave();
    }

    method SetLineDraft(id: LineId, f: LineField, value: Value)
      requires Valid()
      modifies this`lineDrafts, this`typed
      ensures Valid()
      ensures Model() == old(Model()).(draft := old(Model()).draft[LineKey(id, f) := value],
                                       typed := old(typed)[LineKey(id, f) := value])
    {
      FlatSetLine(entryDraft, lineDrafts, id, f, value);
      var line := LineDraftOf(lineDrafts, id)[f := value];
      assert f in line;
      lineDrafts := lineDrafts[id := line];
      typed := typed[LineKey(id, f) := value];
    }

    method OnSaveTimer()
      requires Valid()
      modifies this, store
      ensures Valid() && View() == SaveTimerFires(old(View()))
      ensures OnlyOwnRecord(old(store.records))
      ensures old(Sound(store.View())) ==> Sound(store.View())
    {
      saveTimer := false;
      Commit();
    }

    method OnRetryTimer(stray: bool)
      requires Valid() && if stray then strayTimers > 0 else retryTimer
      modifies this, store
      ensures Valid() && View() == RetryTimerFires(old(View()), stray)
      ensures OnlyOwnRecord(old(store.records))
      ensures old(Sound(store.View())) ==> Sound(store.View())
    {
      TakeRetryTimer(stray);
      Commit();
    }

    method TakeRetryTimer(stray: bool)
      requires if stray then strayTimers > 0 else retryTimer
      modifies this`retryTimer, this`strayTimers
      ensures var before := old(Model());
              Model() == if stray then before.(strayTimers := before.strayTimers - 1) else before.(retryTimer := false)
    {
      if stray { strayTimers := strayTimers - 1; } else { retryTimer := false; }
    }

    method RetryNow()
      requires Valid()
      modifies this, store
      ensures Valid() && View() == EditorProtocol.RetryNow(old(View()))
      ensures OnlyOwnRecord(old(store.records))
      ensures old(Sound(store.View())) ==> Sound(store.View())
    {
      ResetRetry();
      Commit();
    }

    method ResetRetry()
      modifies this`retryTimer, this`retryCountRef
      ensures Model() == old(Model()).(retryTimer := false, retryCount := 0)
    {
      retryTimer := false;
      retryCountRef := 0;
    }

    /** Up to the first await; the render that follows the click before anything else is part of it. */
    method Reload()
      requires Valid()
      modifies this, store
      ensures Valid() && View() == EditorProtocol.Reload(old(View()))
      ensures OnlyOwnRecord(old(store.records))
      ensures old(Sound(store.View())) ==> Sound(store.View())
    {
      ResetRefs();
      DropDrafts();
      Report(Idle);
      statusRef := Idle;
    }

    method ResetRefs()
      modifies this`saveTimer, this`retryTimer, this`retryCountRef, this`savingRef, this`pendingRef
      ensures Model() == old(Model()).(saveTimer := false, retryTimer := false, retryCount := 0, saving := false,
                                       pending := false)
    {
      saveTimer := false;
      ResetRetry();
      savingRef, pendingRef := false, false;
    }

    method DropDrafts()
      modifies this`entryDraft, this`lineDrafts, this`typed, this`acked
      ensures NoEmptyLine(lineDrafts) && Model() == old(Model()).(draft := map[], typed := map[], acked := map[])
    {
      entryDraft, lineDrafts := map[], map[];
      typed, acked := map[], map[];
      FlatIsEmptyIff(map[], map[]);
    }

    method AddLine(line: map<LineField, Value>)
      requires Valid()
      modifies this, store
      ensures Valid() && View() == StartStructural(old(View()), AddOp(line))
      ensures OnlyOwnRecord(old(store.records))
      ensures old(Sound(store.View())) ==> Sound(store.View())
    {
      if statusRef == Conflict || savingRef {
        return;
      }
      StartLineChange(AddOp(line));
    }

    method DeleteLine(id: LineId)
      requires Valid()
      modifies this, store
      ensures Valid() && View() == StartStructural(old(View()), DeleteOp(id))
      ensures OnlyOwnRecord(old(store.records))
      ensures old(Sound(store.View())) ==> Sound(store.View())
    {
      if statusRef == Conflict || savingRef {
        return;
      }
      saveTimer := false;
      DropLineDraft(id);
      StartLineChange(DeleteOp(id));
    }

    method DropLineDraft(id: LineId)
      requires Valid()
      modifies this`lineDrafts, this`typed, this`acked
      ensures Valid()
      ensures Model() == old(Model()).(draft := DropLine(old(Model()).draft, id), typed := DropLine(old(typed), id),
                                       acked := DropLine(old(acked), id))
    {
      FlatDropLine(entryDraft, lineDrafts, id);
      lineDrafts := lineDrafts - {id};
      typed, acked := DropLine(typed, id), DropLine(acked, id);
    }

    method StartLineChange(op: Op)
      requires Valid()
      modifies this, store
      ensures Valid()
      ensures var f := Structural(op, entryRef.version, InTransit);
              var started := old(View()).ed.(saving := true, flights := old(flights) + [f]);
              View() == EditorProtocol.Report(old(View()).(ed := started), Saving)
      ensures OnlyOwnRecord(old(store.records))
      ensures old(Sound(store.View())) ==> Sound(store.View())
    {
      savingRef := true;
      Send(Structural(op, entryRef.version, InTransit));
      Report(Saving);
    }

    /** The `finally` block. */
    method Finish(j: nat)
      requires Valid() && j < |flights|
      modifies this, store
      ensures Valid() && View() == EditorProtocol.Finish(old(View()), j)
      ensures OnlyOwnRecord(old(store.records))
      ensures old(Sound(store.View())) ==> Sound(store.View())
    {
      EndFlight(j);
      if pendingRef {
        TakePending();
        Commit();
      }
    }

    method EndFlight(j: nat)
      requires Valid() && j < |flights|
      modifies this`savingRef, this`flights
      ensures Valid() && Model() == old(Model()).(saving := false, flights := Without(old(flights), j))
    {
      savingRef := false;
      flights := Without(flights, j);
    }

    method TakePending()
      modifies this`pendingRef
      ensures Model() == old(Model()).(pending := false)
    {
      pendingRef := false;
    }

    /** The keys the acknowledged request carried leave the drafts unless they were changed meanwhile. */
    method ClearSaved(f: Flight)
      requires Valid() && f.Flush? && Resumable(f)
      modifies this`entryDraft, this`lineDrafts, this`acked
      ensures Valid() && View() == Acknowledge(old(View()), f)
    {
      ClearDrafts(f.patches[f.next].target, f.clear);
      acked := acked + f.patches[f.next].fields;
    }

    method ClearDrafts(target: Target, sent: map<Key, Value>)
      requires NoEmptyLine(lineDrafts) && forall k :: k in sent ==> TargetOf(k) == target
      modifies this`entryDraft, this`lineDrafts
      ensures NoEmptyLine(lineDrafts) && Model() == old(Model()).(draft := Cleared(old(Model()).draft, sent))
    {
      match target {
        case EntryTarget =>
          entryDraft := ClearSavedEntryKeys(entryDraft, lineDrafts, sent);
        case LineTarget(id) =>
          lineDrafts := ClearSavedLineKeys(entryDraft, lineDrafts, id, sent);
      }
    }

    /** After the last acknowledgement: dirty if anything is left in the drafts. */
    method FlushDone()
      requires Valid()
      modifies this, store
      ensures Valid() && View() == CloseFlush(old(View()))
      ensures OnlyOwnRecord(old(store.records))
      ensures old(Sound(store.View())) ==> Sound(store.View())
    {
      retryCountRef := 0;
      FlatIsEmptyIff(entryDraft, lineDrafts);
      var stillDirty := entryDraft != map[] || lineDrafts != map[];
      Report(if stillDirty then Dirty else Saved);
    }

    /** The next request of the chain, stamped with the version the last response carried. */
    method SendNext(j: nat, version: nat)
      requires Valid() && j < |flights| && flights[j].Flush? && flights[j].next + 1 < |flights[j].patches|
      modifies this`flights
      ensures Valid() && flights == old(flights)[j := Advanced(old(flights[j]), version, Flat(entryDraft, lineDrafts))]
    {
      var f := flights[j];
      var next := f.patches[f.next + 1];
      ClearKeysAreClearFor(next, entryDraft, lineDrafts);
      flights := flights[j := f.(next := f.next + 1, version := version, clear := ClearKeys(next, lineDrafts),
                                 wire := InTransit)];
    }

    /** The continuation of a flush after an accepted request. */
    method OnPatchAccepted(j: nat, version: nat)
      requires Valid() && j < |flights| && flights[j].Flush?
      modifies this, store
      ensures Valid() && View() == Succeed(old(View()), j, version)
      ensures OnlyOwnRecord(old(store.records))
      ensures old(Sound(store.View())) ==> Sound(store.View())
    {
      var f := flights[j];
      ClearSaved(f);
      if f.next + 1 < |f.patches| {
        SendNext(j, version);
      } else {
        FlushDone();
        Finish(j);
      }
    }

    /** The continuation of an accepted `addLine` or `deleteLine`: saved, without a look at the drafts. */
    method OnLineChanged(j: nat, version: nat)
      requires Valid() && j < |flights| && flights[j].Structural?
      modifies this, store
      ensures Valid() && View() == Succeed(old(View()), j, version)
      ensures OnlyOwnRecord(old(store.records))
      ensures old(Sound(store.View())) ==> Sound(store.View())
    {
      retryCountRef := 0;
      Report(Saved);
      Finish(j);
    }

    /** The `catch` block of a flush. */
    method FlushFailed(f: Flight, failure: Failure)
      requires Valid() && f.Flush?
      modifies this, store
      ensures Valid() && View() == CloseFailed(old(View()), f, failure)
      ensures OnlyOwnRecord(old(store.records))
      ensures old(Sound(store.View())) ==> Sound(store.View())
    {
      if failure == ConflictReply {
        Report(Conflict);
        return;
      }
      Report(Error);
      if failure == BadRequest { MarkRejected(); } else { CountFailure(); }
    }

    method MarkRejected()
      modifies this`rejected
      ensures Model() == old(Model()).(rejected := true)
    {
      rejected := true;
    }

    method CountFailure()
      modifies this`retryCountRef, this`retryTimer, this`strayTimers
      ensures var counted := old(Model()).(retryCount := old(retryCountRef) + 1);
              Model() == if counted.retryCount <= MAX_AUTO_RETRIES then ArmRetry(counted) else counted
    {
      retryCountRef := retryCountRef + 1;
      if retryCountRef <= MAX_AUTO_RETRIES {
        ArmRetryTimer();
      }
    }

    /** Assigns the timer ref; a timer it pointed at is not cleared and will still fire. */
    method ArmRetryTimer()
      modifies this`retryTimer, this`strayTimers
      ensures Model() == ArmRetry(old(Model()))
    {
      if retryTimer { strayTimers := strayTimers + 1; }
      retryTimer := true;
    }

    /** The `catch` block of `addLine` and `deleteLine`: nothing is retried. */
    method LineChangeFailed(f: Flight, failure: Failure)
      requires Valid() && f.Structural?
      modifies this, store
      ensures Valid() && View() == CloseFailed(old(View()), f, failure)
      ensures OnlyOwnRecord(old(store.records))
      ensures old(Sound(store.View())) ==> Sound(store.View())
    {
      Report(if failure == ConflictReply then Conflict else Error);
    }

    /** A refused or lost request ends its chain. */
    method OnFailure(j: nat, failure: Failure)
      requires Valid() && j < |flights|
      modifies this, store
      ensures Valid() && View() == Fail(old(View()), j, failure)
      ensures OnlyOwnRecord(old(store.records))
      ensures old(Sound(store.View())) ==> Sound(store.View())
    {
      if flights[j].Flush? {
        FlushFailed(flights[j], failure);
      } else {
        LineChangeFailed(flights[j], failure);
      }
      Finish(j);
    }

    /** The refs are assigned from the state and the entry while rendering. */
    method OnRender(entry: Snapshot)
      requires Valid()
      modifies this`statusRef, this`entryRef
      ensures Valid() && View() == Render(old(View()), entry)
    {
      statusRef := status;
      entryRef := entry;
    }
  }
}
