/** The computed properties of a loan: the days left before it is due and
    the two warnings derived from them, and the text shown for its dates.
    The calendar is a parameter: `daysBetween(from, to)` is the number of
    whole days between two instants, and `format` renders an instant. */
module PrestitoModel {
  import opened Wrappers
  import opened Library

  /** `Prestito.init`, with its defaults. */
  function MakePrestito(id: int, idLibro: int, idFratello: int,
                        dataInizio: Option<int> := None, dataFine: Option<int> := None,
                        dataScadenza: Option<int> := None, stato: PrestitoStato := Richiesto): (p: Prestito)
    ensures p.id == id && p.idLibro == idLibro && p.idFratello == idFratello
    ensures p.dataInizio == dataInizio && p.dataFine == dataFine && p.dataScadenza == dataScadenza
    ensures p.stato == stato
  {
    Prestito(id, idLibro, idFratello, dataInizio, dataFine, dataScadenza, stato)
  }

  /** A loan built from its ids alone is requested, with no dates. */
  lemma InitDefaults(id: int, idLibro: int, idFratello: int)
    ensures var p := MakePrestito(id, idLibro, idFratello);
      p.stato == Richiesto && p.dataInizio.None? && p.dataFine.None? && p.dataScadenza.None?
  {
  }

  /** `giorniRimanenti`: the days from `now` to the due date, for an
      active loan with a due date only. */
  function GiorniRimanenti(p: Prestito, now: int, daysBetween: (int, int) -> int): (r: Option<int>)
    ensures r.Some? <==> p.stato == Attivo && p.dataScadenza.Some?
    ensures r.Some? ==> r.value == daysBetween(now, p.dataScadenza.value)
  {
    if p.dataScadenza.Some? && p.stato == Attivo then Some(daysBetween(now, p.dataScadenza.value)) else None
  }

  /** `isInScadenza`: due within three days. */
  predicate IsInScadenza(p: Prestito, now: int, daysBetween: (int, int) -> int) {
    match GiorniRimanenti(p, now, daysBetween)
    case None => false
    case Some(giorni) => giorni <= 3 && giorni >= 0
  }

  /** `isScaduto`: past its due date. */
  predicate IsScaduto(p: Prestito, now: int, daysBetween: (int, int) -> int) {
    match GiorniRimanenti(p, now, daysBetween)
    case None => false
    case Some(giorni) => giorni < 0
  }

  /** The two warnings in terms of the loan: each needs an active loan with
      a due date, the first 0 to 3 days away, the second in the past; so
      no loan carries both. */
  lemma FlagsSpec(p: Prestito, now: int, daysBetween: (int, int) -> int)
    ensures IsInScadenza(p, now, daysBetween) <==>
      p.stato == Attivo && p.dataScadenza.Some? && 0 <= daysBetween(now, p.dataScadenza.value) <= 3
    ensures IsScaduto(p, now, daysBetween) <==>
      p.stato == Attivo && p.dataScadenza.Some? && daysBetween(now, p.dataScadenza.value) < 0
    ensures !(IsInScadenza(p, now, daysBetween) && IsScaduto(p, now, daysBetween))
  {
  }

  /** Without a remaining-days count neither warning is raised. */
  lemma NoDaysNoFlags(p: Prestito, now: int, daysBetween: (int, int) -> int)
    requires GiorniRimanenti(p, now, daysBetween).None?
    ensures !IsInScadenza(p, now, daysBetween) && !IsScaduto(p, now, daysBetween)
  {
  }

  /** `formattedDataInizio`: a fixed text when the loan has not started. */
  function FormattedDataInizio(p: Prestito, format: int -> string): (s: string)
    ensures p.dataInizio.None? ==> s == "Non ancora iniziato"
    ensures p.dataInizio.Some? ==> s == format(p.dataInizio.value)
  {
    match p.dataInizio
    case None => "Non ancora iniziato"
    case Some(d) => format(d)
  }

  /** `formattedDataFine`: no text when the loan has not ended. */
  function FormattedDataFine(p: Prestito, format: int -> string): (s: Option<string>)
    ensures s.None? <==> p.dataFine.None?
    ensures s.Some? ==> s.value == format(p.dataFine.value)
  {
    match p.dataFine
    case None => None
    case Some(d) => Some(format(d))
  }

  /** `formattedDataScadenza`: no text when there is no due date. */
  function FormattedDataScadenza(p: Prestito, format: int -> string): (s: Option<string>)
    ensures s.None? <==> p.dataScadenza.None?
    ensures s.Some? ==> s.value == format(p.dataScadenza.value)
  {
    match p.dataScadenza
    case None => None
    case Some(d) => Some(format(d))
  }
}
