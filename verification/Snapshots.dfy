/** CTO snapshots as they lie in memory: merging copies one namespace list and shares the rest (hub.py
    `_merge_delta`). */
module Snapshots {
  import opened Wrappers
  import opened Json
  import opened Ctos

  /** One namespace list. */
  class EntryList {
    var items: Entries

    constructor (items: Entries)
      ensures this.items == items
    {
      this.items := items;
    }
  }

  /** A CTO: a frozen value whose observations are references to lists. */
  datatype Snapshot = Snapshot(
    turn: TurnId, session: SessionId, createdAt: int, profile: ProfileRef, content: Dict,
    observations: map<string, EntryList>, lastEvent: Option<EventId>)

  /** What a snapshot reads as now. */
  ghost function View(s: Snapshot): CTO
    reads s.observations.Values
  {
    CTO(s.turn, s.session, s.createdAt, s.profile, s.content,
        map name | name in s.observations :: s.observations[name].items, s.lastEvent)
  }

  /** The hub's store of current snapshots. */
  class Store {
    var ctos: map<TurnId, Snapshot>

    constructor ()
      ensures ctos == map[]
    {
      ctos := map[];
    }

    /** The copying and appending of `_merge_delta`: the current snapshot is replaced. No list that existed before is
        written, so any snapshot obtained earlier, such as `earlier`, reads as it did, although the new one shares all
        lists but one with the old. */
    method Merge(d: Delta, event: EventId, ghost earlier: Snapshot) returns (updated: Snapshot)
      requires d.turn in ctos && IsListPatch(d.patch)
      modifies this
      ensures ctos == old(ctos)[d.turn := updated]
      ensures View(updated)
           == old(View(ctos[d.turn])).(observations := MergeObs(old(View(ctos[d.turn])).observations, d),
                                       lastEvent := Some(event))
      ensures d.name in updated.observations && fresh(updated.observations[d.name])
      ensures forall name | name in updated.observations && name != d.name ::
                name in old(ctos)[d.turn].observations
                  && updated.observations[name] == old(ctos)[d.turn].observations[name]
      ensures View(earlier) == old(View(earlier))
    {
      hide PatchEntries, IsListPatch;
      var cto := ctos[d.turn];
      var list := new EntryList(if d.name in cto.observations then cto.observations[d.name].items else []);
      Extend(list, d.patch);
      updated := cto.(observations := cto.observations[d.name := list], lastEvent := Some(event));
      ctos := ctos[d.turn := updated];
      assert forall name | name in earlier.observations ::
               earlier.observations[name].items == old(earlier.observations[name].items);
      assert View(earlier).observations == old(View(earlier).observations);
      assert forall name | name in cto.observations :: cto.observations[name] != list;
      assert View(updated).observations == MergeObs(old(View(cto)).observations, d);
    }

    /** `extend` for every patch item. */
    method Extend(list: EntryList, patch: Patch)
      modifies list
      ensures list.items == old(list.items) + PatchEntries(patch)
    {
      var i := 0;
      while i < |patch|
        invariant 0 <= i <= |patch|
        invariant list.items + PatchEntries(patch[i..]) == old(list.items) + PatchEntries(patch)
      {
        assert patch[i..][1..] == patch[i + 1..];
        if patch[i].1.List? { list.items := list.items + EntriesOf(patch[i].0, patch[i].1.items); }
        i := i + 1;
      }
    }
  }
}
