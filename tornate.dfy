/** The meetings of the lodge ("tornate") and the architectural papers
    ("tavole"), and the list rules the stores keep for them: the newest
    meeting first. Ids are integers wherever a tree uses a UUID; instants
    are whole seconds. */
module Tornate {
  import opened Wrappers
  import opened Text
  import opened Seqs

  datatype TornataType = Ordinaria | Cerimonia {
    function RawValue(): string {
      match this
      case Ordinaria => "Ordinaria"
      case Cerimonia => "Cerimonia"
    }
  }

  datatype TornataLocation = Tofa | Visita {
    function RawValue(): string {
      match this
      case Tofa => "Nostra Loggia - Tolfa"
      case Visita => "Loggia in Visita"
    }

    predicate IsHome() { this == Tofa }
  }

  datatype Tornata = Tornata(
    id: int,
    title: string,
    data: int,
    tipo: TornataType,
    location: TornataLocation,
    introducedBy: string,
    hasDinner: bool,
    notes: Option<string>)

  /** `Tornata.init`, with its defaults: at home, no dinner, no notes. */
  function MakeTornata(id: int, title: string, data: int, tipo: TornataType, introducedBy: string,
                       location: TornataLocation := Tofa, hasDinner: bool := false,
                       notes: Option<string> := None): (t: Tornata)
    ensures t.id == id && t.title == title && t.data == data && t.tipo == tipo
    ensures t.introducedBy == introducedBy && t.location == location
    ensures t.hasDinner == hasDinner && t.notes == notes
  {
    Tornata(id, title, data, tipo, location, introducedBy, hasDinner, notes)
  }

  function HasTornataId(id: int): Tornata -> bool { (t: Tornata) => t.id == id }

  /** The order `sort { $0.date > $1.date }` asks for. */
  predicate DateAfter(a: Tornata, b: Tornata) { a.data > b.data }

  /** `append` then `sort { $0.date > $1.date }`. */
  function AddByDate(tornate: seq<Tornata>, tornata: Tornata): seq<Tornata> {
    SortBy(tornate + [tornata], DateAfter)
  }

  /** Adding a meeting keeps every meeting, adds exactly the new one, and
      leaves the newest first. */
  lemma AddByDateSpec(tornate: seq<Tornata>, tornata: Tornata)
    ensures |AddByDate(tornate, tornata)| == |tornate| + 1
    ensures multiset(AddByDate(tornate, tornata)) == multiset(tornate) + multiset{tornata}
    ensures forall i, j :: 0 <= i < j < |AddByDate(tornate, tornata)| ==>
      AddByDate(tornate, tornata)[i].data >= AddByDate(tornate, tornata)[j].data
  {
    assert StrictOrder(DateAfter);
    SortBySorted(tornate + [tornata], DateAfter);
  }

  // -------------------------------------------------------------- tavole

  datatype TavolaStatus = Completata | Programmato | InPreparazione {
    function RawValue(): string {
      match this
      case Completata => "Completata"
      case Programmato => "Programmato"
      case InPreparazione => "In Preparazione"
    }
  }

  datatype Tavola = Tavola(
    id: int,
    brotherId: int,
    title: string,
    presentationDate: Option<int>,
    status: TavolaStatus,
    content: Option<string>,
    createdAt: int)

  /** `Tavola.init`: a paper in preparation, with no date and no text. */
  function MakeTavola(id: int, brotherId: int, title: string, createdAt: int,
                      presentationDate: Option<int> := None, status: TavolaStatus := InPreparazione,
                      content: Option<string> := None): (t: Tavola)
    ensures t.id == id && t.brotherId == brotherId && t.title == title && t.createdAt == createdAt
    ensures t.presentationDate == presentationDate && t.status == status && t.content == content
  {
    Tavola(id, brotherId, title, presentationDate, status, content, createdAt)
  }

  function HasTavolaId(id: int): Tavola -> bool { (t: Tavola) => t.id == id }

  function ByBrother(brotherId: int): Tavola -> bool { (t: Tavola) => t.brotherId == brotherId }

  /** `tavole.filter { $0.brotherId == brotherId }`: exactly the brother's
      papers, in stored order. */
  function TavoleOf(tavole: seq<Tavola>, brotherId: int): (r: seq<Tavola>)
    ensures forall t :: t in r <==> t in tavole && t.brotherId == brotherId
    ensures SubsequenceOf(r, tavole)
  {
    FilterSubsequence(tavole, ByBrother(brotherId));
    Filter(tavole, ByBrother(brotherId))
  }
}
