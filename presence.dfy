/** A brother's attendance at a meeting, the upsert every presence store
    performs, and the statistics record. Ids are integers wherever a tree
    uses a UUID; instants are whole seconds. */
module Presences {
  import opened Wrappers
  import opened Seqs

  datatype PresenceStatus = Presente | Assente | NonConfermato {
    function RawValue(): string {
      match this
      case Presente => "Presente"
      case Assente => "Assente"
      case NonConfermato => "Non Confermato"
    }
  }

  /** The record's `presente` flag is the backend's boolean; `status` is
      the three-valued answer. */
  datatype Presence = Presence(
    id: Option<int>,
    fratelloId: int,
    brotherId: int,
    tornataId: int,
    presente: bool,
    status: PresenceStatus,
    confirmedAt: Option<int>)

  /** `Presence.init`: the backend id follows `brotherId` and the flag
      follows the status unless they are given. */
  function MakePresence(brotherId: int, tornataId: int,
                        id: Option<int> := None, fratelloId: Option<int> := None,
                        presente: Option<bool> := None, status: PresenceStatus := NonConfermato,
                        confirmedAt: Option<int> := None): (p: Presence)
    ensures p.id == id && p.brotherId == brotherId && p.tornataId == tornataId
    ensures p.fratelloId == (if fratelloId.Some? then fratelloId.value else brotherId)
    ensures p.presente == (if presente.Some? then presente.value else status == Presente)
    ensures p.status == status && p.confirmedAt == confirmedAt
  {
    Presence(id, fratelloId.GetOr(brotherId), brotherId, tornataId,
             presente.GetOr(status == Presente), status, confirmedAt)
  }

  /** A record built from its two ids alone is unconfirmed, absent by its
      flag, and carries the brother's id twice. */
  lemma InitDefaults(brotherId: int, tornataId: int)
    ensures var p := MakePresence(brotherId, tornataId);
      p.status == NonConfermato && !p.presente && p.fratelloId == brotherId
      && p.id.None? && p.confirmedAt.None?
  {
  }

  /** The flag agrees with the status. */
  predicate Consistent(p: Presence) { p.presente == (p.status == Presente) }

  /** A record built without an explicit flag is consistent. */
  lemma MakePresenceConsistent(brotherId: int, tornataId: int, status: PresenceStatus, confirmedAt: Option<int>)
    ensures Consistent(MakePresence(brotherId, tornataId, status := status, confirmedAt := confirmedAt))
  {
  }

  predicate IsPresente(p: Presence) { p.presente }

  function For(brotherId: int, tornataId: int): Presence -> bool {
    (p: Presence) => p.brotherId == brotherId && p.tornataId == tornataId
  }

  function OfBrother(brotherId: int): Presence -> bool { (p: Presence) => p.brotherId == brotherId }

  /** `first { … }?.status ?? .nonConfermato`. */
  function StatusOf(presences: seq<Presence>, brotherId: int, tornataId: int): (s: PresenceStatus)
    ensures (forall i :: 0 <= i < |presences| ==> !For(brotherId, tornataId)(presences[i])) ==> s == NonConfermato
    ensures FirstIndex(presences, For(brotherId, tornataId)).Some? ==>
      s == presences[FirstIndex(presences, For(brotherId, tornataId)).value].status
  {
    match FirstIndex(presences, For(brotherId, tornataId))
    case None => NonConfermato
    case Some(i) => presences[i].status
  }

  /** `fetchPresenze(forBrotherId:)`: exactly the brother's records, in
      stored order. */
  function PresenzeOf(presences: seq<Presence>, brotherId: int): (r: seq<Presence>)
    ensures forall p :: p in r <==> p in presences && p.brotherId == brotherId
    ensures SubsequenceOf(r, presences)
  {
    FilterSubsequence(presences, OfBrother(brotherId));
    Filter(presences, OfBrother(brotherId))
  }

  // ------------------------------------------------------------- upsert

  /** `updatePresence` as the stores write it: the first record of the
      pair gets the new status and time, and its `presente` flag is left
      as it was; without one, a new record is appended. */
  function UpsertAsWritten(presences: seq<Presence>, brotherId: int, tornataId: int,
                           status: PresenceStatus, now: int): seq<Presence>
  {
    match FirstIndex(presences, For(brotherId, tornataId))
    case None => presences + [MakePresence(brotherId, tornataId, status := status, confirmedAt := Some(now))]
    case Some(i) => presences[i := presences[i].(status := status, confirmedAt := Some(now))]
  }

  /** Marking a brother present and then absent leaves a record whose
      flag still says present. */
  lemma UpsertAsWrittenStaleFlag(now: int)
    ensures var once := UpsertAsWritten([], 1, 1, Presente, now);
      var twice := UpsertAsWritten(once, 1, 1, Assente, now);
      twice[0].status == Assente && twice[0].presente && !Consistent(twice[0])
  {
    var once := UpsertAsWritten([], 1, 1, Presente, now);
    assert once[0].presente;
  }

  /** After an upsert the pair has the new status; an existing pair's
      record is changed in place and nothing else is; a new pair adds
      exactly one record at the end. */
  lemma UpsertAsWrittenSpec(presences: seq<Presence>, brotherId: int, tornataId: int, status: PresenceStatus, now: int)
    ensures StatusOf(UpsertAsWritten(presences, brotherId, tornataId, status, now), brotherId, tornataId) == status
    ensures var r := UpsertAsWritten(presences, brotherId, tornataId, status, now);
      FirstIndex(presences, For(brotherId, tornataId)).Some? ==>
        var i := FirstIndex(presences, For(brotherId, tornataId)).value;
        |r| == |presences| && r[i].status == status && r[i].confirmedAt == Some(now)
        && r[i].brotherId == brotherId && r[i].tornataId == tornataId && r[i].presente == presences[i].presente
        && forall j :: 0 <= j < |presences| && j != i ==> r[j] == presences[j]
    ensures var r := UpsertAsWritten(presences, brotherId, tornataId, status, now);
      FirstIndex(presences, For(brotherId, tornataId)).None? ==>
        r == presences + [MakePresence(brotherId, tornataId, status := status, confirmedAt := Some(now))]
  {
    var r := UpsertAsWritten(presences, brotherId, tornataId, status, now);
    match FirstIndex(presences, For(brotherId, tornataId))
    case None =>
      assert For(brotherId, tornataId)(r[|presences|]);
    case Some(i) =>
      assert For(brotherId, tornataId)(r[i]);
      assert forall j :: 0 <= j < i ==> r[j] == presences[j];
  }

  /** An upsert does not change the answer for any other pair. */
  lemma {:induction false} UpsertAsWrittenOthers(presences: seq<Presence>, brotherId: int, tornataId: int,
                                                 status: PresenceStatus, now: int, b: int, t: int)
    requires b != brotherId || t != tornataId
    ensures StatusOf(UpsertAsWritten(presences, brotherId, tornataId, status, now), b, t) == StatusOf(presences, b, t)
  {
    var r := UpsertAsWritten(presences, brotherId, tornataId, status, now);
    assert forall j :: 0 <= j < |presences| ==> (For(b, t)(r[j]) <==> For(b, t)(presences[j]));
    assert |presences| < |r| ==> !For(b, t)(r[|presences|]);
    match FirstIndex(presences, For(b, t))
    case None =>
    case Some(k) =>
      assert FirstIndex(r, For(b, t)) == Some(k);
  }

  /** `updatePresence` with the flag kept in step with the status. */
  function Upsert(presences: seq<Presence>, brotherId: int, tornataId: int,
                  status: PresenceStatus, now: int): seq<Presence>
  {
    match FirstIndex(presences, For(brotherId, tornataId))
    case None => presences + [MakePresence(brotherId, tornataId, status := status, confirmedAt := Some(now))]
    case Some(i) =>
      presences[i := presences[i].(status := status, presente := status == Presente, confirmedAt := Some(now))]
  }

  /** The corrected upsert differs from the one as written only in the
      flag of the record it changes, which it sets from the status; so
      both give every pair the same answer. */
  lemma UpsertRepairsFlag(presences: seq<Presence>, brotherId: int, tornataId: int, status: PresenceStatus, now: int,
                          b: int, t: int)
    ensures var w := UpsertAsWritten(presences, brotherId, tornataId, status, now);
      var r := Upsert(presences, brotherId, tornataId, status, now);
      |r| == |w| && forall j :: 0 <= j < |w| ==> r[j] == w[j] || r[j] == w[j].(presente := w[j].status == Presente)
    ensures StatusOf(Upsert(presences, brotherId, tornataId, status, now), b, t)
      == StatusOf(UpsertAsWritten(presences, brotherId, tornataId, status, now), b, t)
  {
    var w := UpsertAsWritten(presences, brotherId, tornataId, status, now);
    var r := Upsert(presences, brotherId, tornataId, status, now);
    assert forall j :: 0 <= j < |w| ==> (For(b, t)(r[j]) <==> For(b, t)(w[j])) && r[j].status == w[j].status;
    match FirstIndex(w, For(b, t))
    case None =>
      assert FirstIndex(r, For(b, t)).None?;
    case Some(k) =>
      assert FirstIndex(r, For(b, t)) == Some(k);
  }

  /** Unlike the code as written, the upsert keeps every record's flag in
      step with its status. */
  lemma UpsertConsistent(presences: seq<Presence>, brotherId: int, tornataId: int, status: PresenceStatus, now: int)
    requires forall i :: 0 <= i < |presences| ==> Consistent(presences[i])
    ensures var r := Upsert(presences, brotherId, tornataId, status, now);
      forall i :: 0 <= i < |r| ==> Consistent(r[i])
  {
  }

  // --------------------------------------------------------- statistics

  /** `PresenceStatistics`; the floating-point attendance rate is not
      part of this model. */
  datatype PresenceStatistics = PresenceStatistics(
    totaliTornate: int,
    totalTornate: int,
    presenzeCount: int,
    presences: int,
    absences: int,
    percentuale: int,
    presenzeConsecutive: int,
    consecutivePresences: int,
    personalRecord: int)

  /** `PresenceStatistics.init`. Without a `percentuale` the initialiser
      converts `presences / totalTornate * 100` to an integer, which traps
      when `totalTornate` is 0; `percent` stands for that float
      computation. */
  function MakeStatistics(totalTornate: int, presences: int, absences: int, presenzeConsecutive: int,
                          personalRecord: int, percent: (int, int) -> int,
                          totaliTornate: Option<int> := None, presenzeCount: Option<int> := None,
                          percentuale: Option<int> := None, consecutivePresences: Option<int> := None)
    : (s: PresenceStatistics)
    requires percentuale.Some? || totalTornate != 0
    ensures s.totaliTornate == (if totaliTornate.Some? then totaliTornate.value else totalTornate)
    ensures s.presenzeCount == (if presenzeCount.Some? then presenzeCount.value else presences)
    ensures s.consecutivePresences ==
      (if consecutivePresences.Some? then consecutivePresences.value else presenzeConsecutive)
    ensures percentuale.Some? ==> s.percentuale == percentuale.value
    ensures percentuale.None? ==> s.percentuale == percent(presences, totalTornate)
    ensures s.totalTornate == totalTornate && s.presences == presences && s.absences == absences
    ensures s.presenzeConsecutive == presenzeConsecutive && s.personalRecord == personalRecord
  {
    PresenceStatistics(totaliTornate.GetOr(totalTornate), totalTornate, presenzeCount.GetOr(presences),
                       presences, absences,
                       if percentuale.Some? then percentuale.value else percent(presences, totalTornate),
                       presenzeConsecutive, consecutivePresences.GetOr(presenzeConsecutive), personalRecord)
  }

  /** With only the required counts given, both names of each count
      agree. */
  lemma StatisticsDefaults(totalTornate: int, presences: int, absences: int, consecutive: int,
                           record: int, percent: (int, int) -> int)
    requires totalTornate != 0
    ensures var s := MakeStatistics(totalTornate, presences, absences, consecutive, record, percent);
      s.totaliTornate == s.totalTornate && s.presenzeCount == s.presences
      && s.consecutivePresences == s.presenzeConsecutive
  {
  }
}
