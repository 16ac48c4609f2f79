/** The library service of the app target: the same book and loan lists,
    a mock mode that keeps loans locally, and a live mode that asks the
    server first. Every server call is a parameter saying whether it
    succeeded. */
module LiveLibrary {
  import opened Wrappers
  import opened Text
  import opened Seqs
  import opened Library

  const Day: int := 86400

  /** A book as the server sends it. */
  datatype LibroDTO = LibroDTO(
    id: int, titolo: string, autore: string, anno: string, categoria: string,
    codiceArchivio: string, stato: string, copertinaURL: Option<string>)

  /** `convertToLibro`: a state mentioning "prestito", in any case, is a
      lent book; any other state an available one. */
  function ConvertToLibro(dto: LibroDTO): (l: Libro)
    ensures l.stato == InPrestito <==> Contains(LowerStr(dto.stato), "prestito")
    ensures l.stato != Prenotato
    ensures l.id == dto.id && l.titolo == dto.titolo && l.autore == dto.autore && l.categoria == dto.categoria
    ensures l.codiceArchivio == dto.codiceArchivio && l.copertinaURL == dto.copertinaURL
  {
    var stato := if Contains(LowerStr(dto.stato), "prestito") then InPrestito else Disponibile;
    Libro(dto.id, dto.titolo, dto.autore, dto.anno, dto.categoria, dto.codiceArchivio, stato, dto.copertinaURL, None)
  }

  /** The server's "In prestito" is read back as a lent book. */
  lemma ConvertLent(dto: LibroDTO)
    requires dto.stato == InPrestito.RawValue()
    ensures ConvertToLibro(dto).stato == InPrestito
  {
    var s := LowerStr(dto.stato);
    assert s[3..11] == "prestito";
    assert "prestito" <= s[3..];
  }

  /** The server's "Disponibile" is read back as an available book. */
  lemma ConvertAvailable(dto: LibroDTO)
    requires dto.stato == Disponibile.RawValue()
    ensures ConvertToLibro(dto).stato == Disponibile
  {
    var s := LowerStr(dto.stato);
    assert |s| == 11;
    forall i | 0 <= i <= |s| ensures !("prestito" <= s[i..]) {
      if i <= 3 {
        assert s[i] != 'p' || s[i + 1] != 'r';
      }
    }
  }

  /** The effect of `richediPrestito` in both modes. In mock mode it is
      the in-memory request. In live mode the book is lent only once the
      server accepted, and no local loan is recorded; a failed call is
      rethrown with nothing changed. */
  function Request(useMockData: bool, serverOk: bool, libri: seq<Libro>, prestiti: seq<Prestito>,
                   libroId: int, fratelloId: int, now: int)
    : Result<(seq<Libro>, seq<Prestito>), LibraryError>
  {
    match LoanGuard(libri, libroId)
    case Err(e) => Err(e)
    case Ok(i) =>
      if !useMockData then
        if serverOk then Ok((SetStato(libri, i, InPrestito), prestiti)) else Err(NetworkFailure)
      else Ok((SetStato(libri, i, InPrestito), prestiti + [NewLoan(prestiti, libroId, fratelloId, now)]))
  }

  /** The guards come before either branch: their errors do not depend on
      the mode or on the server. */
  lemma RequestGuardsFirst(useMockData: bool, serverOk: bool, libri: seq<Libro>, prestiti: seq<Prestito>,
                           libroId: int, fratelloId: int, now: int)
    ensures var r := Request(useMockData, serverOk, libri, prestiti, libroId, fratelloId, now);
      LoanGuard(libri, libroId).Err? ==> r == Err(LoanGuard(libri, libroId).error)
    ensures var r := Request(useMockData, serverOk, libri, prestiti, libroId, fratelloId, now);
      r == Err(NetworkFailure) <==> LoanGuard(libri, libroId).Ok? && !useMockData && !serverOk
  {
  }

  /** In live mode a granted request lends the book and records no loan;
      in mock mode it also appends the new loan with a fresh id. */
  lemma RequestGranted(useMockData: bool, serverOk: bool, libri: seq<Libro>, prestiti: seq<Prestito>,
                       libroId: int, fratelloId: int, now: int)
    requires Request(useMockData, serverOk, libri, prestiti, libroId, fratelloId, now).Ok?
    ensures var (libri', prestiti') := Request(useMockData, serverOk, libri, prestiti, libroId, fratelloId, now).value;
      var i := LoanGuard(libri, libroId).value;
      libri[i].stato == Disponibile && libri'[i].stato == InPrestito && |libri'| == |libri|
      && (forall j :: 0 <= j < |libri| && j != i ==> libri'[j] == libri[j])
      && (!useMockData ==> prestiti' == prestiti)
      && (useMockData ==>
            && |prestiti'| == |prestiti| + 1 && prestiti'[..|prestiti|] == prestiti
            && prestiti'[|prestiti|].id !in LoanIds(prestiti) && prestiti'[|prestiti|].stato == Attivo
            && prestiti'[|prestiti|].idLibro == libroId)
  {
    var (libri', prestiti') := Request(useMockData, serverOk, libri, prestiti, libroId, fratelloId, now).value;
    if useMockData {
      assert prestiti'[..|prestiti|] == prestiti;
    }
  }

  /** The effect of `restituisciLibro`: in both modes the loan is closed
      now and the book is available again, in live mode only once the
      server accepted. */
  function Return(useMockData: bool, serverOk: bool, libri: seq<Libro>, prestiti: seq<Prestito>,
                  prestitoId: int, now: int)
    : Result<(seq<Libro>, seq<Prestito>), LibraryError>
  {
    match ReturnGuard(libri, prestiti, prestitoId)
    case Err(e) => Err(e)
    case Ok((pi, li)) =>
      if !useMockData && !serverOk then Err(NetworkFailure)
      else Ok((SetStato(libri, li, Disponibile), CloseLoan(prestiti, pi, now)))
  }

  /** Both modes agree whenever the server accepts. */
  lemma ReturnModesAgree(libri: seq<Libro>, prestiti: seq<Prestito>, prestitoId: int, now: int)
    ensures Return(false, true, libri, prestiti, prestitoId, now) == Return(true, false, libri, prestiti, prestitoId, now)
    ensures Return(false, false, libri, prestiti, prestitoId, now).Err?
  {
  }

  class LibraryService {
    var libri: seq<Libro>
    var prestiti: seq<Prestito>
    var useMockData: bool

    constructor (now: int)
      ensures |libri| == 3 && |prestiti| == 1 && !useMockData
      ensures libri[2].stato == InPrestito && prestiti[0].idLibro == libri[2].id
    {
      libri := [
        Libro(1, "Il Simbolismo Massonico", "Jules Boucher", "1948", "Simbologia", "SIM-001", Disponibile, None, None),
        Libro(2, "La Massoneria e la sua Storia", "Albert Mackey", "1867", "Storia", "STO-001", Disponibile, None, None),
        Libro(3, "I Landmarks della Massoneria", "Albert Mackey", "1856", "Dottrina", "DOT-001", InPrestito, None, None)
      ];
      prestiti := [Prestito(1, 3, 0, Some(now - 7 * Day), None, None, Attivo)];
      useMockData := false;
    }

    /** `fetchLibri`: the server's books replace the list and live mode is
        on; on a failed call the list stays and mock mode is on. */
    method FetchLibri(fetched: Option<seq<LibroDTO>>)
      modifies this
      ensures fetched.Some? ==>
        libri == seq(|fetched.value|, i requires 0 <= i < |fetched.value| => ConvertToLibro(fetched.value[i]))
        && !useMockData
      ensures fetched.None? ==> libri == old(libri) && useMockData
      ensures prestiti == old(prestiti)
    {
      match fetched
      case Some(dtos) =>
        libri := seq(|dtos|, i requires 0 <= i < |dtos| => ConvertToLibro(dtos[i]));
        useMockData := false;
      case None =>
        useMockData := true;
    }

    function SearchLibri(query: string): (r: seq<Libro>)
      reads this
      ensures query == [] ==> r == libri
      ensures query != [] ==> forall l :: l in r <==> l in libri && Matches(l, LowerStr(query))
    {
      Search(libri, query)
    }

    function FilterLibri(stato: Option<LibroStato>): (r: seq<Libro>)
      reads this
      ensures stato.None? ==> r == libri
      ensures stato.Some? ==> forall l :: l in r <==> l in libri && l.stato == stato.value
    {
      FilterByStato(libri, stato)
    }

    function FetchPrestiti(fratello: int): seq<Prestito>
      reads this
    {
      LoansOf(prestiti, fratello)
    }

    function FetchPrestitiAttivi(fratello: int): seq<Prestito>
      reads this
    {
      ActiveLoansOf(prestiti, fratello)
    }

    method AddLibro(libro: Libro)
      modifies this
      ensures libri == AddSorted(old(libri), libro) && prestiti == old(prestiti) && useMockData == old(useMockData)
    {
      libri := libri + [libro];
      libri := SortBy(libri, TitleLess);
    }

    method UpdateLibro(libro: Libro)
      modifies this
      ensures libri == ReplaceFirst(old(libri), HasLibroId(libro.id), libro)
      ensures prestiti == old(prestiti) && useMockData == old(useMockData)
    {
      var index := FirstIndex(libri, HasLibroId(libro.id));
      if index.Some? {
        libri := libri[index.value := libro];
      }
    }

    method DeleteLibro(libro: Libro)
      modifies this
      ensures libri == RemoveAll(old(libri), HasLibroId(libro.id))
      ensures prestiti == old(prestiti) && useMockData == old(useMockData)
    {
      libri := RemoveAll(libri, HasLibroId(libro.id));
    }

    /** `serverOk` is the outcome of `createPrestito`, used in live mode
        only. */
    method RichiediPrestito(libroId: int, fratelloId: int, now: int, serverOk: bool) returns (r: Outcome<LibraryError>)
      modifies this
      ensures useMockData == old(useMockData)
      ensures var res := Request(old(useMockData), serverOk, old(libri), old(prestiti), libroId, fratelloId, now);
        match res
        case Err(e) => r == Fail(e) && libri == old(libri) && prestiti == old(prestiti)
        case Ok((l, p)) => r == Pass && libri == l && prestiti == p
    {
      var index := FirstIndex(libri, HasLibroId(libroId));
      if index.None? {
        return Fail(LibroNonTrovato);
      }
      if libri[index.value].stato != Disponibile {
        return Fail(LibroNonDisponibile);
      }
      if !useMockData {
        if !serverOk {
          return Fail(NetworkFailure);
        }
        libri := libri[index.value := libri[index.value].(stato := InPrestito)];
      } else {
        var newId := NextId(LoanIds(prestiti));
        var prestito := Prestito(newId, libroId, fratelloId, Some(now), None, None, Attivo);
        prestiti := prestiti + [prestito];
        libri := libri[index.value := libri[index.value].(stato := InPrestito)];
      }
      return Pass;
    }

    /** `serverOk` is the outcome of `closePrestito`, used in live mode
        only. */
    method RestituisciLibro(prestitoId: int, now: int, serverOk: bool) returns (r: Outcome<LibraryError>)
      modifies this
      ensures useMockData == old(useMockData)
      ensures var res := Return(old(useMockData), serverOk, old(libri), old(prestiti), prestitoId, now);
        match res
        case Err(e) => r == Fail(e) && libri == old(libri) && prestiti == old(prestiti)
        case Ok((l, p)) => r == Pass && libri == l && prestiti == p
    {
      var prestitoIndex := FirstIndex(prestiti, HasPrestitoId(prestitoId));
      if prestitoIndex.None? {
        return Fail(PrestitoNonTrovato);
      }
      var libroId := prestiti[prestitoIndex.value].idLibro;
      var libroIndex := FirstIndex(libri, HasLibroId(libroId));
      if libroIndex.None? {
        return Fail(LibroNonTrovato);
      }
      if !useMockData && !serverOk {
        return Fail(NetworkFailure);
      }
      // the same three writes in both branches
      prestiti := prestiti[prestitoIndex.value := prestiti[prestitoIndex.value].(dataFine := Some(now))];
      prestiti := prestiti[prestitoIndex.value := prestiti[prestitoIndex.value].(stato := Concluso)];
      libri := libri[libroIndex.value := libri[libroIndex.value].(stato := Disponibile)];
      return Pass;
    }
  }
}
