/** The store every row reports its save status to, with one cached summary per cycle. */
module SaveStatusStore {
  import opened Options
  import opened Sequences
  import opened Drafts
  import opened EditorProtocol
  import opened SummaryCounts

  class Store {
    var records: Records
    var order: seq<EntryId>
    var summaryCache: Summaries
    var created: nat

    ghost predicate Valid()
      reads this
    {
      Ordered(order, records)
    }

    constructor ()
      ensures Valid() && records == map[] && summaryCache == map[]
    {
      records, order, summaryCache, created := map[], [], map[], 0;
    }

    ghost function View(): Memory
      reads this
    {
      Memory(records, order, summaryCache, created)
    }

    /** Mirrors a status transition. */
    method Set(entryId: EntryId, cycleId: CycleId, status: SaveStatus, errorMessage: Option<string>,
               retry: Option<Retry>)
      requires Valid()
      modifies this
      ensures Valid() && View() == AfterSet(old(View()), entryId, EntrySaveRecord(cycleId, status, errorMessage, retry))
    {
      if !IsPendingStatus(status) {
        Clear(entryId, cycleId);
      } else {
        order := if entryId in records then order else order + [entryId];
        records := records[entryId := EntrySaveRecord(cycleId, status, errorMessage, retry)];
        summaryCache := summaryCache - {cycleId};
      }
    }

    method Clear(entryId: EntryId, cycleId: CycleId)
      requires Valid()
      modifies this
      ensures Valid() && View() == AfterClear(old(View()), entryId, cycleId)
    {
      if entryId in records {
        RemoveMembers(order, entryId);
        records := records - {entryId};
        order := Remove(order, entryId);
        summaryCache := summaryCache - {cycleId};
      }
    }

    /** The counting loop over all records. */
    method CountCycle(cycleId: CycleId) returns (t: Tally)
      requires Valid()
      ensures t == Recount(order, records, cycleId)
    {
      t := Tally(0, 0, 0, 0, []);
      for i := 0 to |order|
        invariant t == Recount(order[..i], records, cycleId)
      {
        assert order[..i + 1] == order[..i] + [order[i]];
        RecountSnoc(order[..i], order[i], records, cycleId);
        t := AddRecord(t, records[order[i]], cycleId);
      }
      assert order[..|order|] == order;
    }

    /** The object for a cycle that has no cached one. */
    method MakeSummary(cycleId: CycleId) returns (s: CycleSaveSummary)
      requires Valid() && cycleId !in summaryCache
      modifies this`created
      ensures s == Summary(old(View()), cycleId)
      ensures created == old(created) + (if s.PendingCount() > 0 then 1 else 0)
    {
      var t := CountCycle(cycleId);
      if t.Total() == 0 {
        s := CycleSaveSummary(EMPTY_SUMMARY, t);
      } else {
        created := created + 1;
        s := CycleSaveSummary(created, t);
      }
    }

    /**
     The cached object if there is one, so that repeated reads return the same object; otherwise a recount in
     a new object, or the shared empty one. The cached objects of other cycles are not touched.
     */
    method GetSummary(cycleId: CycleId) returns (s: CycleSaveSummary)
      requires Valid()
      modifies this`summaryCache, this`created
      ensures s == Summary(old(View()), cycleId) && View() == AfterRead(old(View()), cycleId)
      ensures Valid()
    {
      if cycleId in summaryCache {
        s := summaryCache[cycleId];
        assert summaryCache == summaryCache[cycleId := s];
      } else {
        s := MakeSummary(cycleId);
        summaryCache := summaryCache[cycleId := s];
      }
    }

    /** The check of the navigation guard and the release interlock. */
    method HasPendingForCycle(cycleId: Option<CycleId>) returns (b: bool)
      requires Valid()
      modifies this`summaryCache, this`created
      ensures Valid()
      ensures old(Sound(View())) ==>
                Sound(View())
                  && (b <==> cycleId.Some? && exists id :: id in records && records[id].cycleId == cycleId.value)
    {
      if cycleId == None {
        return false;
      }
      var s := GetSummary(cycleId.value);
      if old(Sound(View())) { AfterReadSound(old(View()), cycleId.value); }
      PendingIff(order, records, cycleId.value);
      return s.PendingCount() > 0;
    }

    /** The check of the unload guard. */
    method HasAnyPending() returns (b: bool)
      ensures b <==> exists id :: id in records
    {
      b := |records| > 0;
      if b { assert records.Keys != {}; var id :| id in records.Keys; }
    }
  }
}
