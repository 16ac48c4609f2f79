/** The static helpers of `PresenceCalculator`: the current streak of
    presences counted back from the newest meeting, the meetings that
    count for a brother, the statistics built from them, the year filter
    and the small classification tables. The year of an instant is a
    parameter (`yearOf`), the calendar being outside this model. */
module PresenceCalculator {
  import opened Wrappers
  import opened Text
  import opened Seqs
  import opened Tornate
  import opened Presences

  function TornataIds(presences: seq<Presence>): (ids: seq<int>)
    ensures |ids| == |presences| && forall i :: 0 <= i < |presences| ==> ids[i] == presences[i].tornataId
  {
    seq(|presences|, i requires 0 <= i < |presences| => presences[i].tornataId)
  }

  /** `Dictionary(uniqueKeysWithValues:)` keyed by meeting id; the
      initialiser traps on a repeated key, so the ids must be distinct. */
  function PresenceDict(presences: seq<Presence>): (d: map<int, Presence>)
    requires Distinct(TornataIds(presences))
    ensures d.Keys == set p | p in presences :: p.tornataId
    ensures forall i :: 0 <= i < |presences| ==> d[presences[i].tornataId] == presences[i]
    decreases |presences|
  {
    if presences == [] then map[]
    else
      var n := |presences| - 1;
      assert TornataIds(presences[..n]) == TornataIds(presences)[..n];
      var d := PresenceDict(presences[..n]);
      assert presences == presences[..n] + [presences[n]];
      d[presences[n].tornataId := presences[n]]
  }

  /** `if let presence = presenceDict[tornata.id], presence.presente`. */
  predicate PresentAt(dict: map<int, Presence>, t: Tornata) {
    t.id in dict && dict[t.id].presente
  }

  /** The number of meetings at the head of `tornate` the brother attended. */
  function LeadingPresent(dict: map<int, Presence>, tornate: seq<Tornata>): nat {
    if tornate == [] || !PresentAt(dict, tornate[0]) then 0 else 1 + LeadingPresent(dict, tornate[1..])
  }

  /** The leading count is the length of the longest run of attended
      meetings at the head: all of those were attended, and the next one,
      if any, was not. */
  lemma {:induction false} LeadingPresentSpec(dict: map<int, Presence>, tornate: seq<Tornata>)
    ensures LeadingPresent(dict, tornate) <= |tornate|
    ensures forall k :: 0 <= k < LeadingPresent(dict, tornate) ==> PresentAt(dict, tornate[k])
    ensures LeadingPresent(dict, tornate) < |tornate| ==> !PresentAt(dict, tornate[LeadingPresent(dict, tornate)])
    decreases |tornate|
  {
    if tornate != [] && PresentAt(dict, tornate[0]) {
      LeadingPresentSpec(dict, tornate[1..]);
    }
  }

  /** Any prefix count with that property is the leading count. */
  lemma {:induction false} LeadingPresentUnique(dict: map<int, Presence>, tornate: seq<Tornata>, n: nat)
    requires n <= |tornate|
    requires forall k :: 0 <= k < n ==> PresentAt(dict, tornate[k])
    requires n < |tornate| ==> !PresentAt(dict, tornate[n])
    ensures LeadingPresent(dict, tornate) == n
    decreases n
  {
    if n > 0 {
      LeadingPresentUnique(dict, tornate[1..], n - 1);
    }
  }

  /** `calculateConsecutive`: newest meeting first, count while the
      brother was present and stop at the first meeting that was missed or
      has no record. */
  method CalculateConsecutive(presences: seq<Presence>, tornate: seq<Tornata>) returns (count: nat)
    requires Distinct(TornataIds(presences))
    ensures count == LeadingPresent(PresenceDict(presences), SortBy(tornate, DateAfter))
    ensures count <= |tornate|
  {
    var presenceDict := PresenceDict(presences);
    var sortedTornate := SortBy(tornate, DateAfter);
    count := 0;
    for i := 0 to |sortedTornate|
      invariant count == i
      invariant forall k :: 0 <= k < i ==> PresentAt(presenceDict, sortedTornate[k])
    {
      var tornata := sortedTornate[i];
      if tornata.id in presenceDict && presenceDict[tornata.id].presente {
        count := count + 1;
      } else {
        LeadingPresentUnique(presenceDict, sortedTornate, count);
        return;
      }
    }
    LeadingPresentUnique(presenceDict, sortedTornate, count);
  }

  /** `filterTornateByInitiation`. */
  function FilterByInitiation(tornate: seq<Tornata>, dataIniziazione: Option<int>): (r: seq<Tornata>)
    ensures dataIniziazione.None? ==> r == tornate
    ensures dataIniziazione.Some? ==>
      forall t :: t in r <==> t in tornate && t.data >= dataIniziazione.value
    ensures SubsequenceOf(r, tornate)
  {
    match dataIniziazione
    case None => SubsequenceOfSelf(tornate); tornate
    case Some(d) =>
      var since := (t: Tornata) => t.data >= d;
      FilterSubsequence(tornate, since);
      Filter(tornate, since)
  }

  // --------------------------------------------------------- statistics

  /** `calculateStatistics` as written: it computes a guarded percentage
      and never passes it, so the initialiser divides by the number of
      valid meetings itself and traps when there is none (`None` here).
      The brother's id is not used. */
  function CalculateStatisticsAsWritten(fratelloId: int, presences: seq<Presence>, tornate: seq<Tornata>,
                                        dataIniziazione: Option<int>, percent: (int, int) -> int)
    : (r: Option<PresenceStatistics>)
    requires Distinct(TornataIds(presences))
    ensures r.None? <==> FilterByInitiation(tornate, dataIniziazione) == []
  {
    var validTornate := FilterByInitiation(tornate, dataIniziazione);
    var presenceCount := Count(presences, IsPresente);
    var consecutive := LeadingPresent(PresenceDict(presences), SortBy(validTornate, DateAfter));
    if |validTornate| == 0 then None
    else Some(MakeStatistics(|validTornate|, presenceCount, |validTornate| - presenceCount,
                             consecutive, consecutive, percent))
  }

  /** With no meeting, for instance for an empty calendar, the code as
      written has no result. */
  lemma StatisticsAsWrittenTrapsWithoutMeetings(fratelloId: int, presences: seq<Presence>,
                                                percent: (int, int) -> int)
    requires Distinct(TornataIds(presences))
    ensures CalculateStatisticsAsWritten(fratelloId, presences, [], None, percent).None?
  {
  }

  /** `calculateStatistics` with its guarded percentage passed on. */
  function CalculateStatistics(fratelloId: int, presences: seq<Presence>, tornate: seq<Tornata>,
                               dataIniziazione: Option<int>, percent: (int, int) -> int)
    : PresenceStatistics
    requires Distinct(TornataIds(presences))
  {
    var validTornate := FilterByInitiation(tornate, dataIniziazione);
    var presenceCount := Count(presences, IsPresente);
    var consecutive := LeadingPresent(PresenceDict(presences), SortBy(validTornate, DateAfter));
    var percentage := if |validTornate| > 0 then percent(presenceCount, |validTornate|) else 0;
    MakeStatistics(|validTornate|, presenceCount, |validTornate| - presenceCount,
                   consecutive, consecutive, percent, percentuale := Some(percentage))
  }

  /** The statistics count the valid meetings, the attended records among
      all those supplied, and the rest of the valid meetings as absences
      (negative when more records say present than there are meetings);
      the streak is the leading run over the valid meetings, newest first,
      and the record equals it. Where the code as written has a result, it
      is this one. */
  lemma {:induction false} CalculateStatisticsSpec(fratelloId: int, presences: seq<Presence>, tornate: seq<Tornata>,
                                                   dataIniziazione: Option<int>, percent: (int, int) -> int)
    requires Distinct(TornataIds(presences))
    ensures var s := CalculateStatistics(fratelloId, presences, tornate, dataIniziazione, percent);
      var valid := FilterByInitiation(tornate, dataIniziazione);
      && s.totalTornate == s.totaliTornate == |valid|
      && s.presences == s.presenzeCount == Count(presences, IsPresente)
      && s.absences == |valid| - s.presences
      && s.percentuale == (if |valid| > 0 then percent(s.presences, |valid|) else 0)
      && s.consecutivePresences == s.presenzeConsecutive == s.personalRecord
      && s.personalRecord == LeadingPresent(PresenceDict(presences), SortBy(valid, DateAfter))
      && 0 <= s.personalRecord <= |valid|
    ensures var r := CalculateStatisticsAsWritten(fratelloId, presences, tornate, dataIniziazione, percent);
      r.Some? ==> r.value == CalculateStatistics(fratelloId, presences, tornate, dataIniziazione, percent)
  {
    var valid := FilterByInitiation(tornate, dataIniziazione);
    LeadingPresentSpec(PresenceDict(presences), SortBy(valid, DateAfter));
  }

  // ---------------------------------------------------------- year filter

  /** `filterPresencesByYear`: `"tutti"` and a text that is not an integer
      leave both lists as they are; otherwise the meetings of that year and
      the records of those meetings. */
  function FilterPresencesByYear(presences: seq<Presence>, tornate: seq<Tornata>, anno: string,
                                 yearOf: int -> int): (r: (seq<Presence>, seq<Tornata>))
    ensures anno == "tutti" || ParseInt(anno).None? ==> r == (presences, tornate)
    ensures anno != "tutti" && ParseInt(anno).Some? ==>
      && (forall t :: t in r.1 <==> t in tornate && yearOf(t.data) == ParseInt(anno).value)
      && (forall p :: p in r.0 <==> p in presences && exists t :: t in r.1 && t.id == p.tornataId)
    ensures SubsequenceOf(r.0, presences) && SubsequenceOf(r.1, tornate)
  {
    if anno == "tutti" || ParseInt(anno).None? then
      SubsequenceOfSelf(presences);
      SubsequenceOfSelf(tornate);
      (presences, tornate)
    else
      var year := ParseInt(anno).value;
      var inYear := (t: Tornata) => yearOf(t.data) == year;
      var filteredTornate := Filter(tornate, inYear);
      var tornataIds := set t | t in filteredTornate :: t.id;
      var ofThose := (p: Presence) => p.tornataId in tornataIds;
      FilterSubsequence(tornate, inYear);
      FilterSubsequence(presences, ofThose);
      (Filter(presences, ofThose), filteredTornate)
  }

  // ---------------------------------------------------------------- years

  predicate Greater(a: int, b: int) { a > b }

  /** The adjacent repeats of a list removed. */
  function DedupAdjacent(s: seq<int>): (r: seq<int>)
    ensures forall x :: x in r <==> x in s
    ensures s != [] ==> r != [] && r[0] == s[0]
  {
    if |s| <= 1 then s
    else if s[0] == s[1] then DedupAdjacent(s[1..])
    else [s[0]] + DedupAdjacent(s[1..])
  }

  /** Removing adjacent repeats of a non-increasing list leaves a strictly
      decreasing one. */
  lemma {:induction false} DedupAdjacentDecreasing(s: seq<int>)
    requires forall i, j :: 0 <= i < j < |s| ==> s[i] >= s[j]
    ensures forall i, j :: 0 <= i < j < |DedupAdjacent(s)| ==> DedupAdjacent(s)[i] > DedupAdjacent(s)[j]
  {
    if |s| > 1 {
      DedupAdjacentDecreasing(s[1..]);
      var t := DedupAdjacent(s[1..]);
      if s[0] != s[1] {
        assert forall x :: x in t ==> x < s[0] by {
          forall x | x in t ensures x < s[0] {
            var k :| 0 <= k < |s[1..]| && s[1..][k] == x;
            assert s[k + 1] == x;
          }
        }
      }
    }
  }

  /** The distinct years of the meetings, newest first. */
  function YearsDescending(tornate: seq<Tornata>, yearOf: int -> int): (ys: seq<int>)
    ensures forall y :: y in ys <==> exists t :: t in tornate && yearOf(t.data) == y
    ensures forall i, j :: 0 <= i < j < |ys| ==> ys[i] > ys[j]
  {
    var years := seq(|tornate|, i requires 0 <= i < |tornate| => yearOf(tornate[i].data));
    var sorted := SortBy(years, Greater);
    assert StrictOrder(Greater);
    SortBySorted(years, Greater);
    SortBySameElements(years, Greater);
    DedupAdjacentDecreasing(sorted);
    assert forall y :: y in years <==> exists t :: t in tornate && yearOf(t.data) == y by {
      forall y | y in years ensures exists t :: t in tornate && yearOf(t.data) == y {
        var k :| 0 <= k < |years| && years[k] == y;
        assert tornate[k] in tornate;
      }
      forall t | t in tornate ensures yearOf(t.data) in years {
        var k :| 0 <= k < |tornate| && tornate[k] == t;
        assert years[k] == yearOf(t.data);
      }
    }
    assert forall y :: y in sorted <==> y in years by {
      forall y | y in sorted ensures y in years {
        var k :| 0 <= k < |sorted| && sorted[k] == y;
      }
      forall y | y in years ensures y in sorted {
        var k :| 0 <= k < |years| && years[k] == y;
      }
    }
    DedupAdjacent(sorted)
  }

  /** `getAvailableYears`: every year written out, newest first, each
      once. */
  function GetAvailableYears(tornate: seq<Tornata>, yearOf: int -> int): (r: seq<string>)
    ensures |r| == |YearsDescending(tornate, yearOf)|
    ensures forall i :: 0 <= i < |r| ==> r[i] == IntToString(YearsDescending(tornate, yearOf)[i])
  {
    var ys := YearsDescending(tornate, yearOf);
    seq(|ys|, i requires 0 <= i < |ys| => IntToString(ys[i]))
  }

  // ------------------------------------------------------- classification

  /** `isAdmin`: one of the two names, compared exactly. */
  predicate IsAdmin(nome: string) {
    nome in ["Paolo Giulio Gazzano", "Emiliano Menicucci"]
  }

  /** The comparison is exact: letter case and spacing matter. */
  lemma IsAdminExact()
    ensures IsAdmin("Paolo Giulio Gazzano") && IsAdmin("Emiliano Menicucci")
    ensures !IsAdmin("paolo giulio gazzano") && !IsAdmin("Emiliano  Menicucci") && !IsAdmin("")
  {
  }

  /** `getDegreeIcon`, on the lower-cased degree. */
  function GetDegreeIcon(grado: string): (icon: string)
    ensures icon in {"🔶", "🔷", "🔹", "◆"}
  {
    match LowerStr(grado)
    case "maestro" => "🔶"
    case "maestri" => "🔶"
    case "compagno" => "🔷"
    case "compagni" => "🔷"
    case "apprendista" => "🔹"
    case "apprendisti" => "🔹"
    case _ => "◆"
  }

  /** The icon depends on the degree only up to letter case, and the
      default covers every other text. */
  lemma DegreeIconCases(grado: string)
    ensures GetDegreeIcon(LowerStr(grado)) == GetDegreeIcon(grado)
    ensures GetDegreeIcon(grado) == "◆" <==>
      LowerStr(grado) !in {"maestro", "maestri", "compagno", "compagni", "apprendista", "apprendisti"}
  {
    LowerStrIdempotent(grado);
  }

  /** `getPercentageColor`. */
  function GetPercentageColor(percentuale: int): (color: string)
    ensures color == "green" <==> 90 <= percentuale <= 100
    ensures color == "orange" <==> 70 <= percentuale < 90
    ensures color == "red" <==> percentuale < 70 || percentuale > 100
  {
    if 90 <= percentuale <= 100 then "green"
    else if 70 <= percentuale < 90 then "orange"
    else "red"
  }

  /** `getStatoBadgeColor`, on the lower-cased state. */
  function GetStatoBadgeColor(stato: string): (color: string)
    ensures color in {"blue", "green", "red", "gray"}
  {
    match LowerStr(stato)
    case "programmata" => "blue"
    case "completata" => "green"
    case "annullata" => "red"
    case _ => "gray"
  }

  lemma StatoBadgeColorCases(stato: string)
    ensures GetStatoBadgeColor(LowerStr(stato)) == GetStatoBadgeColor(stato)
    ensures GetStatoBadgeColor(stato) == "gray" <==> LowerStr(stato) !in {"programmata", "completata", "annullata"}
  {
    LowerStrIdempotent(stato);
  }
}
