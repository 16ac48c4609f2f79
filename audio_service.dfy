/** The audio talks of the meetings, in the SwiftUI package's in-memory
    service: a list kept newest upload first. */
module AppAudio {
  import opened Wrappers
  import opened Text
  import opened Seqs

  datatype AudioDiscussione = AudioDiscussione(
    id: int,
    idTornata: int,
    fratelloIntervento: string,
    titoloIntervento: string,
    durata: Option<string>,
    audioURL: string,
    dataUpload: int)

  /** `AudioDiscussione.init`: no duration, uploaded now, unless given. */
  function MakeDiscussione(id: int, idTornata: int, fratelloIntervento: string, titoloIntervento: string,
                           audioURL: string, now: int,
                           durata: Option<string> := None, dataUpload: Option<int> := None)
    : (d: AudioDiscussione)
    ensures d.id == id && d.idTornata == idTornata && d.audioURL == audioURL
    ensures d.fratelloIntervento == fratelloIntervento && d.titoloIntervento == titoloIntervento
    ensures d.durata == durata && d.dataUpload == (if dataUpload.Some? then dataUpload.value else now)
  {
    AudioDiscussione(id, idTornata, fratelloIntervento, titoloIntervento, durata, audioURL, dataUpload.GetOr(now))
  }

  function HasDiscussioneId(id: int): AudioDiscussione -> bool { (d: AudioDiscussione) => d.id == id }

  function OfTornata(tornataId: int): AudioDiscussione -> bool { (d: AudioDiscussione) => d.idTornata == tornataId }

  /** The order `sort { $0.dataUpload > $1.dataUpload }` asks for. */
  predicate UploadAfter(a: AudioDiscussione, b: AudioDiscussione) { a.dataUpload > b.dataUpload }

  /** `append` then the sort by upload time. */
  function AddByUpload(discussioni: seq<AudioDiscussione>, d: AudioDiscussione): seq<AudioDiscussione> {
    SortBy(discussioni + [d], UploadAfter)
  }

  /** Adding a talk keeps every talk, adds exactly the new one and leaves
      the newest upload first. */
  lemma AddByUploadSpec(discussioni: seq<AudioDiscussione>, d: AudioDiscussione)
    ensures |AddByUpload(discussioni, d)| == |discussioni| + 1
    ensures multiset(AddByUpload(discussioni, d)) == multiset(discussioni) + multiset{d}
    ensures forall i, j :: 0 <= i < j < |AddByUpload(discussioni, d)| ==>
      AddByUpload(discussioni, d)[i].dataUpload >= AddByUpload(discussioni, d)[j].dataUpload
  {
    assert StrictOrder(UploadAfter);
    SortBySorted(discussioni + [d], UploadAfter);
  }

  /** `filter { $0.idTornata == tornataId }`: exactly the meeting's talks,
      in stored order. */
  function DiscussioniOf(discussioni: seq<AudioDiscussione>, tornataId: int): (r: seq<AudioDiscussione>)
    ensures forall d :: d in r <==> d in discussioni && d.idTornata == tornataId
    ensures SubsequenceOf(r, discussioni)
  {
    FilterSubsequence(discussioni, OfTornata(tornataId));
    Filter(discussioni, OfTornata(tornataId))
  }

  class AudioService {
    var discussioni: seq<AudioDiscussione>

    /** `loadMockData` leaves the list empty. */
    constructor ()
      ensures discussioni == []
    {
      discussioni := [];
    }

    function FetchDiscussioni(tornataId: int): seq<AudioDiscussione>
      reads this
    {
      DiscussioniOf(discussioni, tornataId)
    }

    method AddDiscussione(discussione: AudioDiscussione)
      modifies this
      ensures discussioni == AddByUpload(old(discussioni), discussione)
    {
      discussioni := SortBy(discussioni + [discussione], UploadAfter);
    }

    method UpdateDiscussione(discussione: AudioDiscussione)
      modifies this
      ensures discussioni == ReplaceFirst(old(discussioni), HasDiscussioneId(discussione.id), discussione)
    {
      var index := FirstIndex(discussioni, HasDiscussioneId(discussione.id));
      if index.Some? {
        discussioni := discussioni[index.value := discussione];
      }
    }

    method DeleteDiscussione(discussione: AudioDiscussione)
      modifies this
      ensures discussioni == RemoveAll(old(discussioni), HasDiscussioneId(discussione.id))
    {
      discussioni := RemoveAll(discussioni, HasDiscussioneId(discussione.id));
    }
  }
}
