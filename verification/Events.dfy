/** Event payloads, the two envelopes and the records a persister keeps (events/, _event_serialization.py). */
module Events {
  import opened Wrappers
  import opened Json
  import opened Ctos

  type Token = nat

  /** A session id as text. Several spellings parse to the same UUID; some texts parse to none. */
  datatype SidText = Empty | Malformed(text: nat) | Spelled(sid: SessionId, spelling: nat)

  /** `str(session_id)`. */
  function Canonical(sid: SessionId): SidText {
    Spelled(sid, 0)
  }

  datatype Reason = UnknownTurn | NotAList(key: string)

  datatype Payload =
    // hub-authored
    | CtoStarted(index: CTOIndex, byId: PurposeId, byName: string)
    | DeltaMerged(delta: Delta, index: CTOIndex)
    | DeltaRejected(delta: Delta, reason: Reason)
    | SessionClosing(why: string, code: Option<string>)
    | SessionClosePending(code: Option<string>)
    // purpose-authored
    | ProposeDelta(delta: Delta)
    | PurposeStarted(who: PurposeId, whoName: string, persists: bool)
    | SessionStarted
    | RequestCto(session: SidText, kind: string, locator: string, requester: PurposeId, requesterName: string,
                 code: Option<string>, request: Option<string>)
    | CtoImported(session: SidText, kind: string, locator: string, hash: string, requester: PurposeId,
                  requesterName: string, document: Dict, code: Option<string>, key: string)
    | RequestSessionEnd(session: SidText, why: string)
    | PurposeCompleted(session: SidText, why: string)
    | SessionCompleted(code: Option<string>)
    | RequestCtoClose(turn: TurnId)
    | Custom(event: string, body: Value)

  /** The types `PurposeEventType` lists. */
  predicate BuiltIn(p: Payload) {
    match p
    case ProposeDelta(_) | PurposeStarted(_, _, _) | SessionStarted | RequestCto(_, _, _, _, _, _, _)
       | CtoImported(_, _, _, _, _, _, _, _, _) | RequestSessionEnd(_, _) | PurposeCompleted(_, _)
       | SessionCompleted(_) | RequestCtoClose(_) => true
    case _ => false
  }

  /** A Purpose-originated event with the claims of origin it makes. */
  datatype PurposeEvent = PurposeEvent(
    id: EventId, who: PurposeId, name: string, token: Token, session: Option<SessionId>, payload: Payload)

  /** A hub event as a recipient sees it, without the envelope's credentials. */
  datatype HubEvent = HubEvent(id: EventId, session: Option<SessionId>, turn: Option<TurnId>, payload: Payload)

  datatype Origin = FromHub | FromPurpose(who: PurposeId, name: string)

  /** One persisted record. */
  datatype Record = Record(
    origin: Origin, id: EventId, session: Option<SessionId>, turn: Option<TurnId>, payload: Payload)

  function HubRecord(ev: HubEvent): Record {
    Record(FromHub, ev.id, ev.session, ev.turn, ev.payload)
  }

  function PurposeRecord(ev: PurposeEvent): Record {
    Record(FromPurpose(ev.who, ev.name), ev.id, ev.session, None, ev.payload)
  }

  /** The event id is already in the log. */
  predicate Has(log: seq<Record>, id: EventId) {
    exists i | 0 <= i < |log| :: log[i].id == id
  }

  lemma HasInExtension(log: seq<Record>, longer: seq<Record>, id: EventId)
    requires Has(log, id) && log <= longer
    ensures Has(longer, id)
  {
    var i :| 0 <= i < |log| && log[i].id == id;
    assert longer[i] == log[i];
  }
}
