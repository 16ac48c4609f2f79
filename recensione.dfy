/** A reader's review of a book, with its vote clamped to one to five
    stars. Instants are whole seconds. */
module Recensioni {
  import opened Wrappers

  datatype Recensione = Recensione(
    id: int,
    libroId: int,
    fratelloId: int,
    nomeFratello: Option<string>,
    voto: int,
    testo: Option<string>,
    dataCreazione: int,
    dataModifica: Option<int>)

  /** `max(1, min(5, voto))`. */
  function ClampVoto(voto: int): (v: int)
    ensures 1 <= v <= 5
    ensures 1 <= voto <= 5 ==> v == voto
    ensures voto < 1 ==> v == 1
    ensures voto > 5 ==> v == 5
  {
    var upper := if voto < 5 then voto else 5;
    if upper > 1 then upper else 1
  }

  /** `Recensione.init`: the vote clamped, created `now` unless given. */
  function MakeRecensione(id: int, libroId: int, fratelloId: int, voto: int, now: int,
                          nomeFratello: Option<string> := None, testo: Option<string> := None,
                          dataCreazione: Option<int> := None, dataModifica: Option<int> := None)
    : (r: Recensione)
    ensures r.voto == ClampVoto(voto)
    ensures r.id == id && r.libroId == libroId && r.fratelloId == fratelloId
    ensures r.nomeFratello == nomeFratello && r.testo == testo && r.dataModifica == dataModifica
    ensures r.dataCreazione == (if dataCreazione.Some? then dataCreazione.value else now)
  {
    Recensione(id, libroId, fratelloId, nomeFratello, ClampVoto(voto), testo, dataCreazione.GetOr(now), dataModifica)
  }

  /** Clamping twice is clamping once. */
  lemma ClampIdempotent(voto: int)
    ensures ClampVoto(ClampVoto(voto)) == ClampVoto(voto)
  {
  }

  /** `String(repeating: "⭐", count: voto)`, which traps on a negative
      count (a decoded review does not pass through the clamp). */
  function StelleText(r: Recensione): (s: string)
    requires r.voto >= 0
    ensures |s| == r.voto && forall i :: 0 <= i < |s| ==> s[i] == '⭐'
  {
    seq(r.voto, _ => '⭐')
  }

  /** A review built by the initialiser shows between one and five stars,
      as many as its vote. */
  lemma StarsOfNewReview(id: int, libroId: int, fratelloId: int, voto: int, now: int)
    ensures var r := MakeRecensione(id, libroId, fratelloId, voto, now);
      1 <= |StelleText(r)| <= 5 && |StelleText(r)| == ClampVoto(voto)
  {
  }
}
