/**
 The three Redis scripts as they run against one key per event, with the pipeline's lease
 functions as their specification. `fault` says whether the call reached Redis and whether its
 answer came back.
 */
module Idempotency {
  import opened Prelude
  import opened Commerce
  import opened Pipeline
  import P = RecordProtocol

  class IdempotencyStore {
    var leases: map<Id, Lease>

    constructor ()
      ensures leases == map[]
    {
      leases := map[];
    }

    method Reserve(event: Event, token: Token, fault: Fault) returns (reply: P.ReserveReply)
      modifies this
      ensures leases == ReservedLeases(old(leases), event, token, fault)
      ensures reply == ReserveReply(old(leases), event, fault)
      ensures reply == P.Reserved ==> Owns(leases, event, token)
    {
      if fault == NotApplied {
        return P.ReserveUnavailable;
      }
      if event.id !in leases {
        leases := leases[event.id := Held(token)];
        reply := P.Reserved;
      } else if leases[event.id].CompletedMarker? {
        reply := P.FoundCompleted;
      } else {
        reply := P.FoundProcessing;
      }
      if fault == AnswerLost {
        reply := P.ReserveUnavailable;
      }
    }

    method Complete(event: Event, token: Token, fault: Fault) returns (reply: P.CompleteReply)
      modifies this
      ensures leases == CompletedLeases(old(leases), event, token, fault)
      ensures reply == CompleteReply(old(leases), event, token, fault)
      ensures !Owns(old(leases), event, token) ==> leases == old(leases)
    {
      if fault == NotApplied {
        return P.CompleteUnavailable;
      }
      if event.id !in leases || leases[event.id] != Held(token) {
        reply := P.TokenMismatch;
      } else {
        leases := leases[event.id := CompletedMarker];
        reply := P.Owned;
      }
      if fault == AnswerLost {
        reply := P.CompleteUnavailable;
      }
    }

    method Release(event: Event, token: Token, fault: Fault) returns (released: Option<bool>)
      modifies this
      ensures leases == ReleasedLeases(old(leases), event, token, fault)
      ensures released == if fault == Sound then Some(Owns(old(leases), event, token)) else None
      ensures !Owns(old(leases), event, token) ==> leases == old(leases)
    {
      if fault == NotApplied {
        return None;
      }
      var owned := event.id in leases && leases[event.id] == Held(token);
      if owned {
        leases := leases - {event.id};
      }
      released := if fault == AnswerLost then None else Some(owned);
    }
  }
}
