/** The two mock presence repositories: a list of records, upserted by
    brother and meeting. The lock of one of them serialises calls that this
    model makes one after the other anyway. */
module KilwinningPresenze {
  import opened Wrappers
  import opened Seqs
  import opened Presences

  class MockPresenzeRepository {
    var presenze: seq<Presence>

    /** The store starts empty. */
    constructor ()
      ensures presenze == []
    {
      presenze := [];
    }

    function FetchPresenze(): seq<Presence>
      reads this
    {
      presenze
    }

    function FetchPresenzeForBrother(brotherId: int): seq<Presence>
      reads this
    {
      PresenzeOf(presenze, brotherId)
    }

    function GetPresenceStatus(brotherId: int, tornataId: int): PresenceStatus
      reads this
    {
      StatusOf(presenze, brotherId, tornataId)
    }

    /** `updatePresence`: afterwards the pair answers `status`; an existing
        record is changed in place, its `presente` flag left as it was; a
        new pair adds one record; no other pair's answer changes. */
    method UpdatePresence(brotherId: int, tornataId: int, status: PresenceStatus, now: int)
      modifies this
      ensures presenze == UpsertAsWritten(old(presenze), brotherId, tornataId, status, now)
      ensures GetPresenceStatus(brotherId, tornataId) == status
      ensures |presenze| == |old(presenze)| + (if FirstIndex(old(presenze), For(brotherId, tornataId)).Some? then 0 else 1)
      ensures forall b, t :: b != brotherId || t != tornataId ==>
        StatusOf(presenze, b, t) == StatusOf(old(presenze), b, t)
    {
      UpsertAsWrittenSpec(presenze, brotherId, tornataId, status, now);
      forall b, t | b != brotherId || t != tornataId
        ensures StatusOf(UpsertAsWritten(presenze, brotherId, tornataId, status, now), b, t) == StatusOf(presenze, b, t)
      {
        UpsertAsWrittenOthers(presenze, brotherId, tornataId, status, now, b, t);
      }
      var index := FirstIndex(presenze, For(brotherId, tornataId));
      if index.Some? {
        var presence := presenze[index.value];
        presence := presence.(status := status, confirmedAt := Some(now));
        presenze := presenze[index.value := presence];
      } else {
        var presence := MakePresence(brotherId, tornataId, status := status, confirmedAt := Some(now));
        presenze := presenze + [presence];
      }
    }
  }
}

/** The repository of the SwiftUI package, without the lock. */
module AppPresenze {
  import opened Wrappers
  import opened Seqs
  import opened Presences

  class MockPresenzeRepository {
    var presenze: seq<Presence>

    /** The store starts empty. */
    constructor ()
      ensures presenze == []
    {
      presenze := [];
    }

    function FetchPresenze(): seq<Presence>
      reads this
    {
      presenze
    }

    function FetchPresenzeForBrother(brotherId: int): seq<Presence>
      reads this
    {
      PresenzeOf(presenze, brotherId)
    }

    function GetPresenceStatus(brotherId: int, tornataId: int): PresenceStatus
      reads this
    {
      StatusOf(presenze, brotherId, tornataId)
    }

    /** `updatePresence`: afterwards the pair answers `status`; an existing
        record is changed in place, its `presente` flag left as it was; a
        new pair adds one record. */
    method UpdatePresence(brotherId: int, tornataId: int, status: PresenceStatus, now: int)
      modifies this
      ensures presenze == UpsertAsWritten(old(presenze), brotherId, tornataId, status, now)
      ensures GetPresenceStatus(brotherId, tornataId) == status
      ensures |presenze| == |old(presenze)| + (if FirstIndex(old(presenze), For(brotherId, tornataId)).Some? then 0 else 1)
    {
      UpsertAsWrittenSpec(presenze, brotherId, tornataId, status, now);
      var index := FirstIndex(presenze, For(brotherId, tornataId));
      if index.Some? {
        var presence := presenze[index.value];
        presence := presence.(status := status, confirmedAt := Some(now));
        presenze := presenze[index.value := presence];
      } else {
        var presence := MakePresence(brotherId, tornataId, status := status, confirmedAt := Some(now));
        presenze := presenze + [presence];
      }
    }
  }
}
