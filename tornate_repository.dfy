/** The mock meeting repository: a list kept newest first, with the three
    meetings of its seed data. The lock serialises calls that this model
    makes one after the other anyway. */
module MockTornate {
  import opened Wrappers
  import opened Seqs
  import opened Tornate

  /** The seed: two ordinary meetings and a ceremony at home, dinner at the
      first and the third. `ids` and `dates` stand for the generated UUIDs
      and the calendar dates. */
  function SeedTornate(ids: (int, int, int), dates: (int, int, int)): seq<Tornata> {
    [ MakeTornata(ids.0, "Il sentiero della saggezza", dates.0, Ordinaria, "Fr. Marco Rossi", hasDinner := true),
      MakeTornata(ids.1, "La ricerca della verità", dates.1, Ordinaria, "Fr. Giuseppe Bianchi", hasDinner := false),
      MakeTornata(ids.2, "Cerimonia di Passaggio di Grado", dates.2, Cerimonia, "Ven.mo Maestro", hasDinner := true) ]
  }

  class MockTornateRepository {
    var tornate: seq<Tornata>

    constructor (ids: (int, int, int), dates: (int, int, int))
      ensures tornate == SeedTornate(ids, dates)
      ensures |tornate| == 3 && tornate[2].tipo == Cerimonia
      ensures forall i :: 0 <= i < 3 ==> tornate[i].location == Tofa
    {
      tornate := SeedTornate(ids, dates);
    }

    function FetchTornate(): seq<Tornata>
      reads this
    {
      tornate
    }

    /** `fetchTornata`: the first meeting with the id, if any. */
    function FetchTornata(id: int): (r: Option<Tornata>)
      reads this
      ensures r.None? <==> forall i :: 0 <= i < |tornate| ==> tornate[i].id != id
      ensures r.Some? ==> r.value.id == id && r.value in tornate
      ensures r.Some? ==> r.value == tornate[FirstIndex(tornate, HasTornataId(id)).value]
    {
      First(tornate, HasTornataId(id))
    }

    method CreateTornata(tornata: Tornata)
      modifies this
      ensures tornate == AddByDate(old(tornate), tornata)
    {
      tornate := SortBy(tornate + [tornata], DateAfter);
    }

    method UpdateTornata(tornata: Tornata)
      modifies this
      ensures tornate == ReplaceFirst(old(tornate), HasTornataId(tornata.id), tornata)
    {
      var index := FirstIndex(tornate, HasTornataId(tornata.id));
      if index.Some? {
        tornate := tornate[index.value := tornata];
      }
    }

    method DeleteTornata(tornata: Tornata)
      modifies this
      ensures tornate == RemoveAll(old(tornate), HasTornataId(tornata.id))
    {
      tornate := RemoveAll(tornate, HasTornataId(tornata.id));
    }
  }
}
