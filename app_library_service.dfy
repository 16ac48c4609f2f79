/** The in-memory library of the SwiftUI package: a list of books and a
    list of loans, changed in place by the loan requests and returns and by
    the book editing operations. */
module AppLibrary {
  import opened Wrappers
  import opened Seqs
  import opened Library

  const Day: int := 86400

  /** `richediPrestito`: the guards, then one new active loan and the
      book lent. */
  function RequestLoan(libri: seq<Libro>, prestiti: seq<Prestito>, libroId: int, fratelloId: int, now: int)
    : Result<(seq<Libro>, seq<Prestito>), LibraryError>
  {
    match LoanGuard(libri, libroId)
    case Err(e) => Err(e)
    case Ok(i) => Ok((SetStato(libri, i, InPrestito), prestiti + [NewLoan(prestiti, libroId, fratelloId, now)]))
  }

  /** An unknown book or a book that is not available fails the request
      with the matching error. */
  lemma RequestLoanErrors(libri: seq<Libro>, prestiti: seq<Prestito>, libroId: int, fratelloId: int, now: int)
    ensures RequestLoan(libri, prestiti, libroId, fratelloId, now) == Err(LibroNonTrovato)
      <==> forall j :: 0 <= j < |libri| ==> libri[j].id != libroId
    ensures RequestLoan(libri, prestiti, libroId, fratelloId, now) == Err(LibroNonDisponibile)
      <==> exists i :: 0 <= i < |libri| && libri[i].id == libroId && libri[i].stato != Disponibile
             && forall j :: 0 <= j < i ==> libri[j].id != libroId
  {
  }

  /** A granted request appends one loan, with a fresh id, for the book and
      the brother, active and not ended, and lends the first book with the
      id, which was available; no other book changes. */
  lemma RequestLoanGranted(libri: seq<Libro>, prestiti: seq<Prestito>, libroId: int, fratelloId: int, now: int)
    requires RequestLoan(libri, prestiti, libroId, fratelloId, now).Ok?
    ensures var (libri', prestiti') := RequestLoan(libri, prestiti, libroId, fratelloId, now).value;
      |prestiti'| == |prestiti| + 1 && prestiti'[..|prestiti|] == prestiti
      && var p := prestiti'[|prestiti|];
      p.id !in LoanIds(prestiti) && p.id == NextId(LoanIds(prestiti))
      && p.idLibro == libroId && p.idFratello == fratelloId
      && p.stato == Attivo && p.dataFine == None && p.dataInizio == Some(now)
      && exists i :: 0 <= i < |libri| && libri[i].id == libroId && libri[i].stato == Disponibile
           && libri'[i].stato == InPrestito && libri'[i].id == libroId && |libri'| == |libri|
           && forall j :: 0 <= j < |libri| && j != i ==> libri'[j] == libri[j]
  {
    var i := LoanGuard(libri, libroId).value;
    var (libri', prestiti') := RequestLoan(libri, prestiti, libroId, fratelloId, now).value;
    assert prestiti'[..|prestiti|] == prestiti;
    assert libri'[i].stato == InPrestito;
  }

  /** `restituisciLibro`: the guards, then the loan closed now and its book
      available again. */
  function ReturnBook(libri: seq<Libro>, prestiti: seq<Prestito>, prestitoId: int, now: int)
    : Result<(seq<Libro>, seq<Prestito>), LibraryError>
  {
    match ReturnGuard(libri, prestiti, prestitoId)
    case Err(e) => Err(e)
    case Ok((pi, li)) => Ok((SetStato(libri, li, Disponibile), CloseLoan(prestiti, pi, now)))
  }

  /** A return fails exactly for an unknown loan or for a loan whose book
      is unknown; on success the first loan with the id is closed now, its
      book is available, and nothing else changes. */
  lemma ReturnBookSpec(libri: seq<Libro>, prestiti: seq<Prestito>, prestitoId: int, now: int)
    ensures var r := ReturnBook(libri, prestiti, prestitoId, now);
      (r == Err(PrestitoNonTrovato) <==> forall j :: 0 <= j < |prestiti| ==> prestiti[j].id != prestitoId)
      && (r.Err? ==> r.error == PrestitoNonTrovato || r.error == LibroNonTrovato)
    ensures var r := ReturnBook(libri, prestiti, prestitoId, now);
      r.Ok? ==> exists pi, li ::
        && 0 <= pi < |prestiti| && 0 <= li < |libri|
        && prestiti[pi].id == prestitoId && libri[li].id == prestiti[pi].idLibro
        && r.value.1[pi].stato == Concluso && r.value.1[pi].dataFine == Some(now)
        && r.value.0[li].stato == Disponibile
        && |r.value.0| == |libri| && |r.value.1| == |prestiti|
        && (forall j :: 0 <= j < |prestiti| && j != pi ==> r.value.1[j] == prestiti[j])
        && (forall j :: 0 <= j < |libri| && j != li ==> r.value.0[j] == libri[j])
  {
    var r := ReturnBook(libri, prestiti, prestitoId, now);
    if r.Ok? {
      var (pi, li) := ReturnGuard(libri, prestiti, prestitoId).value;
      assert r.value.1[pi].stato == Concluso && r.value.0[li].stato == Disponibile;
    }
  }

  class LibraryService {
    var libri: seq<Libro>
    var prestiti: seq<Prestito>

    /** `loadMockData`: three books, the third lent, and its loan started
        a week before `now`. */
    constructor (now: int)
      ensures |libri| == 3 && |prestiti| == 1
      ensures libri[0].stato == Disponibile && libri[1].stato == Disponibile && libri[2].stato == InPrestito
      ensures prestiti[0].idLibro == libri[2].id && prestiti[0].stato == Attivo
    {
      libri := [
        Libro(1, "Il Simbolismo Massonico", "Jules Boucher", "1948", "Simbologia", "SIM-001", Disponibile, None, None),
        Libro(2, "La Massoneria e la sua Storia", "Albert Mackey", "1867", "Storia", "STO-001", Disponibile, None, None),
        Libro(3, "I Landmarks della Massoneria", "Albert Mackey", "1856", "Dottrina", "DOT-001", InPrestito, None, None)
      ];
      prestiti := [Prestito(1, 3, 0, Some(now - 7 * Day), None, None, Attivo)];
    }

    function SearchLibri(query: string): seq<Libro>
      reads this
    {
      Search(libri, query)
    }

    function FilterLibri(stato: Option<LibroStato>): seq<Libro>
      reads this
    {
      FilterByStato(libri, stato)
    }

    function FetchPrestiti(fratello: int): seq<Prestito>
      reads this
    {
      LoansOf(prestiti, fratello)
    }

    function FetchPrestitiAttivi(fratello: int): seq<Prestito>
      reads this
    {
      ActiveLoansOf(prestiti, fratello)
    }

    /** Appends the book, then sorts by title. */
    method AddLibro(libro: Libro)
      modifies this
      ensures libri == AddSorted(old(libri), libro) && prestiti == old(prestiti)
    {
      libri := libri + [libro];
      libri := SortBy(libri, TitleLess);
    }

    /** Replaces the first book with the same id; nothing when there is
        none. */
    method UpdateLibro(libro: Libro)
      modifies this
      ensures libri == ReplaceFirst(old(libri), HasLibroId(libro.id), libro) && prestiti == old(prestiti)
    {
      var index := FirstIndex(libri, HasLibroId(libro.id));
      if index.Some? {
        libri := libri[index.value := libro];
      }
    }

    /** Removes every book with the id. */
    method DeleteLibro(libro: Libro)
      modifies this
      ensures libri == RemoveAll(old(libri), HasLibroId(libro.id)) && prestiti == old(prestiti)
    {
      libri := RemoveAll(libri, HasLibroId(libro.id));
    }

    method RichiediPrestito(libroId: int, fratelloId: int, now: int) returns (r: Outcome<LibraryError>)
      modifies this
      ensures var res := RequestLoan(old(libri), old(prestiti), libroId, fratelloId, now);
        match res
        case Err(e) => r == Fail(e) && libri == old(libri) && prestiti == old(prestiti)
        case Ok((l, p)) => r == Pass && libri == l && prestiti == p
    {
      var index := FirstIndex(libri, HasLibroId(libroId));
      if index.None? {
        return Fail(LibroNonTrovato);
      }
      if libri[index.value].stato != Disponibile {
        return Fail(LibroNonDisponibile);
      }
      var newId := NextId(LoanIds(prestiti));
      var prestito := Prestito(newId, libroId, fratelloId, Some(now), None, None, Attivo);
      prestiti := prestiti + [prestito];
      libri := libri[index.value := libri[index.value].(stato := InPrestito)];
      return Pass;
    }

    method RestituisciLibro(prestitoId: int, now: int) returns (r: Outcome<LibraryError>)
      modifies this
      ensures var res := ReturnBook(old(libri), old(prestiti), prestitoId, now);
        match res
        case Err(e) => r == Fail(e) && libri == old(libri) && prestiti == old(prestiti)
        case Ok((l, p)) => r == Pass && libri == l && prestiti == p
    {
      var prestitoIndex := FirstIndex(prestiti, HasPrestitoId(prestitoId));
      if prestitoIndex.None? {
        return Fail(PrestitoNonTrovato);
      }
      var libroId := prestiti[prestitoIndex.value].idLibro;
      var libroIndex := FirstIndex(libri, HasLibroId(libroId));
      if libroIndex.None? {
        return Fail(LibroNonTrovato);
      }
      prestiti := prestiti[prestitoIndex.value := prestiti[prestitoIndex.value].(dataFine := Some(now))];
      prestiti := prestiti[prestitoIndex.value := prestiti[prestitoIndex.value].(stato := Concluso)];
      libri := libri[libroIndex.value := libri[libroIndex.value].(stato := Disponibile)];
      return Pass;
    }
  }
}
