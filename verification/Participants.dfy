/** The objects around the hub: ordinary Purposes and the persister (base_purpose.py, persistence.py). */
module Participants {
  import opened Wrappers
  import opened Ctos
  import opened Events
  import opened World

  /** The state a `BasePurpose` keeps for itself. */
  class Purpose {
    const id: PurposeId
    const name: string
    var creds: Option<Credentials>
    var acknowledged: set<SidText>
    var requested: set<SidText>
    var announced: bool

    /** A new Purpose is unbound. */
    constructor (id: PurposeId, name: string)
      ensures this.id == id && this.name == name
      ensures State() == PurposeState(name, None, {}, {}, false)
    {
      this.id, this.name := id, name;
      creds, acknowledged, requested, announced := None, {}, {}, false;
    }

    ghost function State(): PurposeState
      reads this
    {
      PurposeState(name, creds, acknowledged, requested, announced)
    }

    /** `_assign_token` and `_assign_downlink_signature`. */
    method Assign(issued: Credentials)
      modifies this`creds
      ensures creds == Some(issued)
    {
      creds := Some(issued);
    }

    /** The checks of `take_turn`: the envelope must bear this Purpose's own credentials. */
    method Refusal(envelope: Credentials) returns (error: Option<RefusalReason>)
      ensures error.None? <==> creds == Some(envelope)
      ensures error == Some(Unregistered) <==> creds.None?
      ensures error == Some(WrongToken) <==> creds.Some? && creds.value.token != envelope.token
    {
      if creds.None? { return Some(Unregistered); }
      if creds.value.token != envelope.token { return Some(WrongToken); }
      if creds.value.signature != envelope.signature { return Some(WrongSignature); }
      return None;
    }
  }

  datatype RefusalReason = Unregistered | WrongToken | WrongSignature

  /** The log of a persister, with what it remembers. */
  class Persister {
    const dedupes: bool
    var events: seq<Record>
    var acknowledged: set<SidText>
    var handled: set<string>

    constructor (dedupes: bool, events: seq<Record>)
      ensures this.dedupes == dedupes && State() == PersisterState(events, {}, {})
    {
      this.dedupes, this.events := dedupes, events;
      acknowledged, handled := {}, {};
    }

    ghost function State(): PersisterState
      reads this
    {
      PersisterState(events, acknowledged, handled)
    }

    /** The scan of `write_event` for an id already there. */
    method Contains(id: EventId) returns (found: bool)
      ensures found <==> Has(events, id)
    {
      var i := 0;
      while i < |events|
        invariant 0 <= i <= |events|
        invariant forall j | 0 <= j < i :: events[j].id != id
      {
        if events[i].id == id { return true; }
        i := i + 1;
      }
      return false;
    }

    /** `write_event`: the record is appended, unless a persister that drops duplicates has its id already. */
    method WriteEvent(r: Record)
      modifies this`events
      ensures events == if dedupes && Has(old(events), r.id) then old(events) else old(events) + [r]
    {
      if dedupes {
        var found := Contains(r.id);
        if found { return; }
      }
      events := events + [r];
    }
  }
}
