/** The library's records and the rules both library services share: the
    search over titles, authors and categories, the filter by state, the
    loans of a brother, the title order `addLibro` keeps and the guards of
    a loan request and of a return. The two Swift trees declare slightly
    different `Libro` and `Prestito` structs; the model uses one record of
    each, with the union of their states. */
module Library {
  import opened Wrappers
  import opened Text
  import opened Seqs

  // ---------------------------------------------------------------- books

  datatype LibroStato = Disponibile | InPrestito | Prenotato {
    /** The raw value sent to and read from the server. */
    function RawValue(): string {
      match this
      case Disponibile => "Disponibile"
      case InPrestito => "In prestito"
      case Prenotato => "Prenotato"
    }
  }

  /** A book. Dates are whole seconds; the fields the services only copy
      through (isbn, publisher, shelf position, notes, rating) are not
      kept. */
  datatype Libro = Libro(
    id: int,
    titolo: string,
    autore: string,
    anno: string,
    categoria: string,
    codiceArchivio: string,
    stato: LibroStato,
    copertinaURL: Option<string>,
    isFavorito: Option<bool>)

  // ---------------------------------------------------------------- loans

  datatype PrestitoStato = Richiesto | Attivo | Concluso | Scaduto {
    function RawValue(): string {
      match this
      case Richiesto => "Richiesto"
      case Attivo => "Attivo"
      case Concluso => "Concluso"
      case Scaduto => "Scaduto"
    }
  }

  /** A loan. Brothers are identified by an integer, whichever type a tree
      gives their id. */
  datatype Prestito = Prestito(
    id: int,
    idLibro: int,
    idFratello: int,
    dataInizio: Option<int>,
    dataFine: Option<int>,
    dataScadenza: Option<int>,
    stato: PrestitoStato)

  datatype LibraryError = LibroNonTrovato | LibroNonDisponibile | PrestitoNonTrovato | NetworkFailure

  function HasLibroId(id: int): Libro -> bool { (l: Libro) => l.id == id }

  function HasPrestitoId(id: int): Prestito -> bool { (p: Prestito) => p.id == id }

  function LoanIds(prestiti: seq<Prestito>): (ids: seq<int>)
    ensures |ids| == |prestiti|
    ensures forall i :: 0 <= i < |prestiti| ==> ids[i] == prestiti[i].id
  {
    seq(|prestiti|, i requires 0 <= i < |prestiti| => prestiti[i].id)
  }

  // --------------------------------------------------------------- search

  /** The book's title, author or category, lower-cased, contains `q`. */
  predicate Matches(l: Libro, q: string) {
    Contains(LowerStr(l.titolo), q) || Contains(LowerStr(l.autore), q) || Contains(LowerStr(l.categoria), q)
  }

  /** `searchLibri(query:)`: every book for an empty query, otherwise the
      books matching the lower-cased query, in their order. */
  function Search(libri: seq<Libro>, query: string): (r: seq<Libro>)
    ensures query == [] ==> r == libri
    ensures query != [] ==> forall l :: l in r <==> l in libri && Matches(l, LowerStr(query))
  {
    if query == [] then libri
    else
      var r := Filter(libri, l => Matches(l, LowerStr(query)));
      assert forall l :: l in r ==> l in libri && Matches(l, LowerStr(query)) by {
        forall l | l in r ensures l in libri && Matches(l, LowerStr(query)) {
          var k :| 0 <= k < |r| && r[k] == l;
        }
      }
      assert forall l :: l in libri && Matches(l, LowerStr(query)) ==> l in r by {
        forall l | l in libri && Matches(l, LowerStr(query)) ensures l in r {
          var k :| 0 <= k < |libri| && libri[k] == l;
        }
      }
      r
  }

  /** The search never reorders: its result is a subsequence of the books. */
  lemma SearchKeepsOrder(libri: seq<Libro>, query: string)
    ensures SubsequenceOf(Search(libri, query), libri)
  {
    if query == [] {
      SubsequenceOfSelf(libri);
    } else {
      FilterSubsequence(libri, l => Matches(l, LowerStr(query)));
    }
  }

  /** `filterLibri(byStato:)`: every book for `nil`, otherwise exactly the
      books in that state, in their order. */
  function FilterByStato(libri: seq<Libro>, stato: Option<LibroStato>): (r: seq<Libro>)
    ensures stato.None? ==> r == libri
    ensures stato.Some? ==> forall l :: l in r <==> l in libri && l.stato == stato.value
  {
    match stato
    case None => libri
    case Some(s) =>
      var r := Filter(libri, (l: Libro) => l.stato == s);
      assert forall l :: l in r ==> l in libri && l.stato == s by {
        forall l | l in r ensures l in libri && l.stato == s {
          var k :| 0 <= k < |r| && r[k] == l;
        }
      }
      assert forall l :: l in libri && l.stato == s ==> l in r by {
        forall l | l in libri && l.stato == s ensures l in r {
          var k :| 0 <= k < |libri| && libri[k] == l;
        }
      }
      r
  }

  /** `fetchPrestiti(for:)`: exactly the loans of the brother. */
  function LoansOf(prestiti: seq<Prestito>, fratello: int): (r: seq<Prestito>)
    ensures forall i :: 0 <= i < |r| ==> r[i] in prestiti && r[i].idFratello == fratello
    ensures forall i :: 0 <= i < |prestiti| && prestiti[i].idFratello == fratello ==> prestiti[i] in r
  {
    Filter(prestiti, (p: Prestito) => p.idFratello == fratello)
  }

  /** `fetchPrestitiAttivi(for:)`: exactly the brother's active loans. */
  function ActiveLoansOf(prestiti: seq<Prestito>, fratello: int): (r: seq<Prestito>)
    ensures forall i :: 0 <= i < |r| ==> r[i] in prestiti && r[i].idFratello == fratello && r[i].stato == Attivo
    ensures forall i :: 0 <= i < |prestiti| && prestiti[i].idFratello == fratello && prestiti[i].stato == Attivo ==>
      prestiti[i] in r
  {
    Filter(prestiti, (p: Prestito) => p.idFratello == fratello && p.stato == Attivo)
  }

  // ----------------------------------------------------------- title order

  /** `$0.titolo < $1.titolo`, by code point. */
  predicate TitleLess(a: Libro, b: Libro) { StrLess(a.titolo, b.titolo) }

  lemma TitleLessStrict()
    ensures StrictOrder(TitleLess)
  {
    StrLessStrictTotal();
    forall a: Libro, b: Libro, c: Libro | TitleLess(a, b) && TitleLess(b, c) ensures TitleLess(a, c) {
      assert StrLess(a.titolo, b.titolo) && StrLess(b.titolo, c.titolo);
    }
  }

  /** `libri.append(libro); libri.sort { $0.titolo < $1.titolo }`. */
  function AddSorted(libri: seq<Libro>, libro: Libro): seq<Libro> {
    SortBy(libri + [libro], TitleLess)
  }

  /** Adding a book keeps every book, adds exactly the new one and leaves
      the list in title order. */
  lemma AddSortedSpec(libri: seq<Libro>, libro: Libro)
    ensures |AddSorted(libri, libro)| == |libri| + 1
    ensures multiset(AddSorted(libri, libro)) == multiset(libri) + multiset{libro}
    ensures SortedBy(AddSorted(libri, libro), TitleLess)
  {
    TitleLessStrict();
    SortBySorted(libri + [libro], TitleLess);
  }

  // ------------------------------------------------------------- guards

  /** The two guards of `richiediPrestito`: the position of the first book
      with the id, which must be available. */
  function LoanGuard(libri: seq<Libro>, libroId: int): (r: Result<nat, LibraryError>)
    ensures r.Ok? ==> r.value < |libri| && libri[r.value].id == libroId && libri[r.value].stato == Disponibile
    ensures r.Ok? ==> forall j :: 0 <= j < r.value ==> libri[j].id != libroId
    ensures r == Err(LibroNonTrovato) <==> forall j :: 0 <= j < |libri| ==> libri[j].id != libroId
    ensures r == Err(LibroNonDisponibile) <==>
      exists i :: 0 <= i < |libri| && libri[i].id == libroId && libri[i].stato != Disponibile
        && forall j :: 0 <= j < i ==> libri[j].id != libroId
    ensures r.Err? ==> r.error == LibroNonTrovato || r.error == LibroNonDisponibile
  {
    match FirstIndex(libri, HasLibroId(libroId))
    case None => Err(LibroNonTrovato)
    case Some(i) =>
      if libri[i].stato != Disponibile then
        assert forall k :: (0 <= k < |libri| && libri[k].id == libroId && libri[k].stato != Disponibile
          && (forall j :: 0 <= j < k ==> libri[j].id != libroId)) ==> k == i by {
          forall k | 0 <= k < |libri| && libri[k].id == libroId && (forall j :: 0 <= j < k ==> libri[j].id != libroId)
            ensures k == i
          {
            assert !HasLibroId(libroId)(libri[k]) ==> k < i;
          }
        }
        Err(LibroNonDisponibile)
      else Ok(i)
  }

  /** The two guards of `restituisciLibro`: the position of the first loan
      with the id, then of the first book the loan refers to. */
  function ReturnGuard(libri: seq<Libro>, prestiti: seq<Prestito>, prestitoId: int): (r: Result<(nat, nat), LibraryError>)
    ensures r.Ok? ==> var (pi, li) := r.value;
      pi < |prestiti| && prestiti[pi].id == prestitoId && (forall j :: 0 <= j < pi ==> prestiti[j].id != prestitoId)
      && li < |libri| && libri[li].id == prestiti[pi].idLibro
      && (forall j :: 0 <= j < li ==> libri[j].id != prestiti[pi].idLibro)
    ensures r == Err(PrestitoNonTrovato) <==> forall j :: 0 <= j < |prestiti| ==> prestiti[j].id != prestitoId
    ensures r.Err? ==> r.error == PrestitoNonTrovato || r.error == LibroNonTrovato
  {
    match FirstIndex(prestiti, HasPrestitoId(prestitoId))
    case None => Err(PrestitoNonTrovato)
    case Some(pi) =>
      match FirstIndex(libri, HasLibroId(prestiti[pi].idLibro))
      case None => Err(LibroNonTrovato)
      case Some(li) => Ok((pi, li))
  }

  /** The loan a successful request records: the next free id, the current
      time as start, no end, no due date, active. */
  function NewLoan(prestiti: seq<Prestito>, libroId: int, fratelloId: int, now: int): (p: Prestito)
    ensures p.id !in LoanIds(prestiti)
    ensures forall j :: 0 <= j < |prestiti| ==> prestiti[j].id < p.id
    ensures prestiti == [] ==> p.id == 1
    ensures prestiti != [] ==> exists j :: 0 <= j < |prestiti| && prestiti[j].id == p.id - 1
    ensures p.idLibro == libroId && p.idFratello == fratelloId
    ensures p.dataInizio == Some(now) && p.dataFine.None? && p.dataScadenza.None? && p.stato == Attivo
  {
    var ids := LoanIds(prestiti);
    assert forall j :: 0 <= j < |prestiti| ==> ids[j] in ids;
    assert prestiti != [] ==> NextId(ids) - 1 in ids;
    Prestito(NextId(LoanIds(prestiti)), libroId, fratelloId, Some(now), None, None, Attivo)
  }

  /** The book at `i` with another state, everything else unchanged. */
  function SetStato(libri: seq<Libro>, i: nat, stato: LibroStato): (r: seq<Libro>)
    requires i < |libri|
    ensures |r| == |libri| && r[i].stato == stato && r[i].id == libri[i].id
    ensures forall j :: 0 <= j < |libri| && j != i ==> r[j] == libri[j]
  {
    libri[i := libri[i].(stato := stato)]
  }

  /** The loan at `i` closed at `now`. */
  function CloseLoan(prestiti: seq<Prestito>, i: nat, now: int): (r: seq<Prestito>)
    requires i < |prestiti|
    ensures |r| == |prestiti| && r[i].stato == Concluso && r[i].dataFine == Some(now)
    ensures r[i].id == prestiti[i].id && r[i].idLibro == prestiti[i].idLibro
    ensures forall j :: 0 <= j < |prestiti| && j != i ==> r[j] == prestiti[j]
  {
    prestiti[i := prestiti[i].(dataFine := Some(now), stato := Concluso)]
  }
}
