/** The in-memory data service of the SwiftUI package: meetings kept
    newest first, the presence upsert, the yearly statistics with the
    longest run of presences, and the brothers' papers. */
module AppData {
  import opened Wrappers
  import opened Seqs
  import opened Tornate
  import opened Presences

  // -------------------------------------------------------- longest run

  predicate IsPresenteStatus(s: PresenceStatus) { s == Presente }

  /** The number of presences in a stretch of answers. */
  function Presents(s: seq<PresenceStatus>): nat { Count(s, IsPresenteStatus) }

  predicate NoAbsence(s: seq<PresenceStatus>) { forall k :: 0 <= k < |s| ==> s[k] != Assente }

  /** The running counter of the loop: presences since the last absence;
      an unconfirmed answer neither extends nor resets it. */
  function Streak(s: seq<PresenceStatus>): nat {
    if s == [] then 0
    else match s[|s| - 1]
      case Presente => Streak(s[..|s| - 1]) + 1
      case Assente => 0
      case NonConfermato => Streak(s[..|s| - 1])
  }

  /** The loop's maximum: the largest counter reached on any prefix. */
  function LongestStreak(s: seq<PresenceStatus>): nat {
    if s == [] then 0
    else
      var before := LongestStreak(s[..|s| - 1]);
      if Streak(s) > before then Streak(s) else before
  }

  /** One more answer: the counter is extended, reset or kept, and the
      maximum follows it. */
  lemma StreakStep(s: seq<PresenceStatus>, x: PresenceStatus)
    ensures Streak(s + [x]) == match x
      case Presente => Streak(s) + 1
      case Assente => 0
      case NonConfermato => Streak(s)
    ensures LongestStreak(s + [x]) ==
      if Streak(s + [x]) > LongestStreak(s) then Streak(s + [x]) else LongestStreak(s)
  {
    assert (s + [x])[..|s|] == s;
  }

  /** The counter counts the presences of a stretch that reaches the end
      and has no absence. */
  lemma {:induction false} StreakIsSuffix(s: seq<PresenceStatus>) returns (k: nat)
    ensures k <= |s| && NoAbsence(s[k..]) && Streak(s) == Presents(s[k..])
    decreases |s|
  {
    if s == [] {
      k := 0;
      assert s[0..] == [];
    } else {
      var n := |s| - 1;
      var init := s[..n];
      if s[n] == Assente {
        k := |s|;
        assert s[|s|..] == [];
      } else {
        k := StreakIsSuffix(init);
        assert s[k..] == init[k..] + [s[n]];
        CountSnoc(init[k..], s[n], IsPresenteStatus);
      }
    }
  }

  /** No stretch without an absence that reaches the end has more
      presences than the counter. */
  lemma {:induction false} StreakBound(s: seq<PresenceStatus>, i: nat)
    requires i <= |s| && NoAbsence(s[i..])
    ensures Presents(s[i..]) <= Streak(s)
    decreases |s|
  {
    if i < |s| {
      var n := |s| - 1;
      var init := s[..n];
      assert s[i..] == init[i..] + [s[n]];
      assert init[i..] == s[i..n];
      CountSnoc(init[i..], s[n], IsPresenteStatus);
      StreakBound(init, i);
    } else {
      assert s[i..] == [];
    }
  }

  /** The maximum is at least the counter after any prefix. */
  lemma {:induction false} LongestCoversPrefixes(s: seq<PresenceStatus>, j: nat)
    requires j <= |s|
    ensures Streak(s[..j]) <= LongestStreak(s)
    decreases |s|
  {
    if j < |s| {
      var n := |s| - 1;
      assert s[..n][..j] == s[..j];
      LongestCoversPrefixes(s[..n], j);
    } else {
      assert s[..j] == s;
    }
  }

  /** The maximum is reached by some stretch. */
  lemma {:induction false} LongestAttained(s: seq<PresenceStatus>) returns (i: nat, j: nat)
    ensures i <= j <= |s| && NoAbsence(s[i..j]) && Presents(s[i..j]) == LongestStreak(s)
    decreases |s|
  {
    if s == [] {
      i, j := 0, 0;
      assert s[0..0] == [];
    } else {
      var n := |s| - 1;
      var init := s[..n];
      if Streak(s) > LongestStreak(init) {
        i := StreakIsSuffix(s);
        j := |s|;
        assert s[i..j] == s[i..];
      } else {
        i, j := LongestAttained(init);
        assert s[i..j] == init[i..j];
      }
    }
  }

  /** `calculateConsecutivePresences` computes the longest run of the
      answers in date order: the most presences in any stretch without an
      absence, unconfirmed answers skipped. So it is at most the number of
      meetings. */
  lemma LongestStreakSpec(s: seq<PresenceStatus>)
    ensures forall i, j :: 0 <= i <= j <= |s| && NoAbsence(s[i..j]) ==> Presents(s[i..j]) <= LongestStreak(s)
    ensures exists i, j :: 0 <= i <= j <= |s| && NoAbsence(s[i..j]) && Presents(s[i..j]) == LongestStreak(s)
    ensures LongestStreak(s) <= |s|
  {
    forall i, j | 0 <= i <= j <= |s| && NoAbsence(s[i..j]) ensures Presents(s[i..j]) <= LongestStreak(s) {
      assert s[..j][i..] == s[i..j];
      StreakBound(s[..j], i);
      LongestCoversPrefixes(s, j);
    }
    var i, j := LongestAttained(s);
  }

  /** The answers of a brother for each meeting of a list. */
  function Statuses(presences: seq<Presence>, brotherId: int, tornate: seq<Tornata>): (ss: seq<PresenceStatus>)
    ensures |ss| == |tornate|
    ensures forall i :: 0 <= i < |tornate| ==> ss[i] == StatusOf(presences, brotherId, tornate[i].id)
  {
    seq(|tornate|, i requires 0 <= i < |tornate| => StatusOf(presences, brotherId, tornate[i].id))
  }

  /** The order `sorted { $0.date < $1.date }` asks for. */
  predicate DateBefore(a: Tornata, b: Tornata) { a.data < b.data }

  // ---------------------------------------------------- yearly statistics

  /** `PresenceStatistics` of this package: the counts without the
      floating-point attendance rate. */
  datatype YearStatistics = YearStatistics(
    totalTornate: int,
    presences: int,
    absences: int,
    consecutivePresences: int,
    personalRecord: int)

  function InYear(year: int, yearOf: int -> int): Tornata -> bool {
    (t: Tornata) => yearOf(t.data) == year
  }

  function OnOneOf(tornate: seq<Tornata>): Presence -> bool {
    (p: Presence) => exists t :: t in tornate && t.id == p.tornataId
  }

  /** The brother's records on the given meetings. */
  function YearPresences(presences: seq<Presence>, brotherId: int, yearTornate: seq<Tornata>): (r: seq<Presence>)
    ensures forall p :: p in r <==> p in presences && p.brotherId == brotherId && OnOneOf(yearTornate)(p)
  {
    var brotherPresences := Filter(presences, OfBrother(brotherId));
    Filter(brotherPresences, OnOneOf(yearTornate))
  }

  predicate StatusPresente(p: Presence) { p.status == Presente }

  predicate StatusAssente(p: Presence) { p.status == Assente }

  /** The mock meetings: two ordinary ones and a ceremony, all at home. */
  function MockTornate(ids: (int, int, int), dates: (int, int, int)): seq<Tornata> {
    [ MakeTornata(ids.0, "Il sentiero della saggezza", dates.0, Ordinaria, "Fr. Marco Rossi"),
      MakeTornata(ids.1, "La ricerca della verità", dates.1, Ordinaria, "Fr. Giuseppe Bianchi"),
      MakeTornata(ids.2, "Cerimonia di Passaggio di Grado", dates.2, Cerimonia, "Ven.mo Maestro") ]
  }

  class DataService {
    var tornate: seq<Tornata>
    var presences: seq<Presence>
    var tavole: seq<Tavola>

    /** `loadMockData`: `ids` and `dates` stand for the generated UUIDs and
        the calendar dates of the three meetings. */
    constructor (ids: (int, int, int), dates: (int, int, int))
      ensures tornate == MockTornate(ids, dates) && presences == [] && tavole == []
      ensures |tornate| == 3 && tornate[2].tipo == Cerimonia
      ensures forall i :: 0 <= i < 3 ==> tornate[i].location == Tofa && !tornate[i].hasDinner
    {
      tornate := MockTornate(ids, dates);
      presences := [];
      tavole := [];
    }

    // ------------------------------------------------------------ tornate

    method CreateTornata(tornata: Tornata)
      modifies this
      ensures tornate == AddByDate(old(tornate), tornata)
      ensures presences == old(presences) && tavole == old(tavole)
    {
      tornate := SortBy(tornate + [tornata], DateAfter);
    }

    method UpdateTornata(tornata: Tornata)
      modifies this
      ensures tornate == ReplaceFirst(old(tornate), HasTornataId(tornata.id), tornata)
      ensures presences == old(presences) && tavole == old(tavole)
    {
      var index := FirstIndex(tornate, HasTornataId(tornata.id));
      if index.Some? {
        tornate := tornate[index.value := tornata];
      }
    }

    method DeleteTornata(tornata: Tornata)
      modifies this
      ensures tornate == RemoveAll(old(tornate), HasTornataId(tornata.id))
      ensures presences == old(presences) && tavole == old(tavole)
    {
      tornate := RemoveAll(tornate, HasTornataId(tornata.id));
    }

    // ----------------------------------------------------------- presenze

    /** `updatePresence`; `now` is the confirmation time. An existing
        record's `presente` flag is left as it was. */
    method UpdatePresence(brotherId: int, tornataId: int, status: PresenceStatus, now: int)
      modifies this
      ensures presences == UpsertAsWritten(old(presences), brotherId, tornataId, status, now)
      ensures StatusOf(presences, brotherId, tornataId) == status
      ensures tornate == old(tornate) && tavole == old(tavole)
    {
      UpsertAsWrittenSpec(presences, brotherId, tornataId, status, now);
      var index := FirstIndex(presences, For(brotherId, tornataId));
      if index.Some? {
        var presence := presences[index.value];
        presence := presence.(status := status, confirmedAt := Some(now));
        presences := presences[index.value := presence];
      } else {
        var presence := MakePresence(brotherId, tornataId, status := status, confirmedAt := Some(now));
        presences := presences + [presence];
      }
    }

    function GetPresenceStatus(brotherId: int, tornataId: int): PresenceStatus
      reads this
    {
      StatusOf(presences, brotherId, tornataId)
    }

    /** `calculateConsecutivePresences`: the meetings oldest first, the
        counter and its maximum updated answer by answer. */
    method CalculateConsecutivePresences(brotherId: int) returns (maxConsecutive: nat)
      ensures maxConsecutive == LongestStreak(Statuses(presences, brotherId, SortBy(tornate, DateBefore)))
      ensures maxConsecutive <= |tornate|
    {
      var sortedTornate := SortBy(tornate, DateBefore);
      ghost var ss := Statuses(presences, brotherId, sortedTornate);
      var consecutive := 0;
      maxConsecutive := 0;
      for i := 0 to |sortedTornate|
        invariant consecutive == Streak(ss[..i]) && maxConsecutive == LongestStreak(ss[..i])
      {
        var status := GetPresenceStatus(brotherId, sortedTornate[i].id);
        assert ss[..i + 1] == ss[..i] + [status];
        StreakStep(ss[..i], status);
        if status == Presente {
          consecutive := consecutive + 1;
          if consecutive > maxConsecutive {
            maxConsecutive := consecutive;
          }
        } else if status == Assente {
          consecutive := 0;
        }
      }
      assert ss[..|sortedTornate|] == ss;
      LongestStreakSpec(ss);
    }

    /** `calculateStatistics`: the year's meetings, the brother's present
        and absent answers on them, and the longest run over every year. */
    method CalculateStatistics(brotherId: int, year: int, yearOf: int -> int) returns (stats: YearStatistics)
      ensures var yearTornate := Filter(tornate, InYear(year, yearOf));
        var yearPresences := YearPresences(presences, brotherId, yearTornate);
        && stats.totalTornate == |yearTornate|
        && stats.presences == Count(yearPresences, StatusPresente)
        && stats.absences == Count(yearPresences, StatusAssente)
      ensures stats.consecutivePresences == stats.personalRecord
      ensures stats.personalRecord == LongestStreak(Statuses(presences, brotherId, SortBy(tornate, DateBefore)))
      ensures 0 <= stats.personalRecord <= |tornate|
    {
      var yearTornate := Filter(tornate, InYear(year, yearOf));
      var brotherPresences := Filter(presences, OfBrother(brotherId));
      var yearPresences := Filter(brotherPresences, OnOneOf(yearTornate));
      var presentCount := Count(yearPresences, StatusPresente);
      var absentCount := Count(yearPresences, StatusAssente);
      var consecutive := CalculateConsecutivePresences(brotherId);
      stats := YearStatistics(|yearTornate|, presentCount, absentCount, consecutive, consecutive);
    }

    // ------------------------------------------------------------- tavole

    function FetchTavole(brotherId: int): seq<Tavola>
      reads this
    {
      TavoleOf(tavole, brotherId)
    }

    method CreateTavola(tavola: Tavola)
      modifies this
      ensures tavole == old(tavole) + [tavola] && tornate == old(tornate) && presences == old(presences)
    {
      tavole := tavole + [tavola];
    }

    method UpdateTavola(tavola: Tavola)
      modifies this
      ensures tavole == ReplaceFirst(old(tavole), HasTavolaId(tavola.id), tavola)
      ensures tornate == old(tornate) && presences == old(presences)
    {
      var index := FirstIndex(tavole, HasTavolaId(tavola.id));
      if index.Some? {
        tavole := tavole[index.value := tavola];
      }
    }
  }
}
