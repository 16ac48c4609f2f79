/** The client-side half of the library service backed by the PHP API: the
    query parameters it sends, the mapping of the server's records, the
    favourites set, and the local lists it trims after a confirmed delete.
    Each server call is a parameter: the records it returned, or whether it
    succeeded. */
module Biblioteca {
  import opened Wrappers
  import opened Text
  import opened Seqs
  import opened Library

  datatype Categoria = Categoria(id: int, nome: string, icona: string, ordinamento: int)

  datatype ListaLettura = ListaLettura(id: int, nome: string, fratelloId: int)

  datatype BibliotecaError = NotAuthenticated | MissingData | InvalidPermissions | ServerFailure

  /** A book as `biblioteca/libri.php` sends it. */
  datatype LibroServerDTO = LibroServerDTO(
    id: int, titolo: string, autore: string, anno: string, categoria: string,
    codiceArchivio: string, stato: string, copertinaURL: Option<string>)

  /** A loan as `biblioteca/prestiti.php` sends it; dates already parsed. */
  datatype PrestitoServerDTO = PrestitoServerDTO(
    id: int, idLibro: int, idFratello: int,
    dataInizio: Option<int>, dataFine: Option<int>, dataScadenza: Option<int>, stato: string)

  // ------------------------------------------------------ query parameters

  /** The query of `fetchLibri`: a category and a state when given, a
      search only when non-empty; no query at all when nothing is set. */
  function FetchParams(categoria: Option<string>, stato: Option<LibroStato>, searchQuery: Option<string>)
    : (r: Option<map<string, string>>)
    ensures r.None? <==> categoria.None? && stato.None? && (searchQuery.None? || searchQuery.value == [])
    ensures r.Some? ==> forall k :: k in r.value ==> k == "categoria" || k == "stato" || k == "search"
    ensures r.Some? ==> ("categoria" in r.value <==> categoria.Some?)
    ensures r.Some? && categoria.Some? ==> r.value["categoria"] == categoria.value
    ensures r.Some? ==> ("stato" in r.value <==> stato.Some?)
    ensures r.Some? && stato.Some? ==> r.value["stato"] == stato.value.RawValue()
    ensures r.Some? ==> ("search" in r.value <==> searchQuery.Some? && searchQuery.value != [])
    ensures r.Some? && "search" in r.value ==> r.value["search"] == searchQuery.value
  {
    var p1: map<string, string> := if categoria.Some? then map["categoria" := categoria.value] else map[];
    var p2 := if stato.Some? then p1["stato" := stato.value.RawValue()] else p1;
    var p3 := if searchQuery.Some? && searchQuery.value != [] then p2["search" := searchQuery.value] else p2;
    if p3 == map[] then
      assert categoria.Some? ==> "categoria" in p3;
      None
    else Some(p3)
  }

  // ------------------------------------------------------------- mappings

  /** `response.data.map { convertToLibro(from: $0) }`. */
  function ConvertAll(dtos: seq<LibroServerDTO>, preferiti: set<int>): (r: seq<Libro>)
    ensures |r| == |dtos|
    ensures forall i :: 0 <= i < |dtos| ==> r[i] == ConvertToLibro(dtos[i], preferiti)
  {
    seq(|dtos|, i requires 0 <= i < |dtos| => ConvertToLibro(dtos[i], preferiti))
  }

  /** The book state named by the lower-cased server string; unknown
      strings read as available. */
  function ParseLibroStato(raw: string): (s: LibroStato)
    ensures LowerStr(raw) == "in prestito" <==> s == InPrestito
    ensures LowerStr(raw) == "prenotato" <==> s == Prenotato
  {
    match LowerStr(raw)
    case "disponibile" => Disponibile
    case "in prestito" => InPrestito
    case "prenotato" => Prenotato
    case _ => Disponibile
  }

  /** Every raw value the app sends is read back as the same state. */
  lemma LibroStatoRoundTrip(s: LibroStato)
    ensures ParseLibroStato(s.RawValue()) == s
  {
    match s
    case Disponibile => assert LowerStr(s.RawValue()) == "disponibile";
    case InPrestito => assert LowerStr(s.RawValue()) == "in prestito";
    case Prenotato => assert LowerStr(s.RawValue()) == "prenotato";
  }

  /** `convertToLibro`: the mapped state, and the book is a favourite
      exactly when its id is in the set. */
  function ConvertToLibro(dto: LibroServerDTO, preferiti: set<int>): (l: Libro)
    ensures l.stato == ParseLibroStato(dto.stato)
    ensures l.isFavorito == Some(dto.id in preferiti)
    ensures l.id == dto.id && l.titolo == dto.titolo && l.autore == dto.autore && l.categoria == dto.categoria
    ensures l.codiceArchivio == dto.codiceArchivio && l.copertinaURL == dto.copertinaURL
  {
    Libro(dto.id, dto.titolo, dto.autore, dto.anno, dto.categoria, dto.codiceArchivio,
          ParseLibroStato(dto.stato), dto.copertinaURL, Some(dto.id in preferiti))
  }

  /** The loan state named by the lower-cased server string; unknown
      strings read as requested. */
  function ParsePrestitoStato(raw: string): (s: PrestitoStato)
    ensures LowerStr(raw) == "attivo" <==> s == Attivo
    ensures LowerStr(raw) == "concluso" <==> s == Concluso
    ensures LowerStr(raw) == "scaduto" <==> s == Scaduto
  {
    match LowerStr(raw)
    case "richiesto" => Richiesto
    case "attivo" => Attivo
    case "concluso" => Concluso
    case "scaduto" => Scaduto
    case _ => Richiesto
  }

  lemma PrestitoStatoRoundTrip(s: PrestitoStato)
    ensures ParsePrestitoStato(s.RawValue()) == s
  {
    match s
    case Richiesto => assert LowerStr(s.RawValue()) == "richiesto";
    case Attivo => assert LowerStr(s.RawValue()) == "attivo";
    case Concluso => assert LowerStr(s.RawValue()) == "concluso";
    case Scaduto => assert LowerStr(s.RawValue()) == "scaduto";
  }

  /** `convertToPrestito`: ids and dates copied, state mapped. */
  function ConvertToPrestito(dto: PrestitoServerDTO): (p: Prestito)
    ensures p.stato == ParsePrestitoStato(dto.stato)
    ensures p.id == dto.id && p.idLibro == dto.idLibro && p.idFratello == dto.idFratello
    ensures p.dataInizio == dto.dataInizio && p.dataFine == dto.dataFine && p.dataScadenza == dto.dataScadenza
  {
    Prestito(dto.id, dto.idLibro, dto.idFratello, dto.dataInizio, dto.dataFine, dto.dataScadenza,
             ParsePrestitoStato(dto.stato))
  }

  /** `response.data.map { convertToPrestito(from: $0) }`. */
  function ConvertPrestiti(dtos: seq<PrestitoServerDTO>): (r: seq<Prestito>)
    ensures |r| == |dtos|
    ensures forall i :: 0 <= i < |dtos| ==> r[i] == ConvertToPrestito(dtos[i])
  {
    seq(|dtos|, i requires 0 <= i < |dtos| => ConvertToPrestito(dtos[i]))
  }

  // ------------------------------------------------------------ favourites

  /** The favourites set with `id` added when absent and removed when
      present. */
  function Toggle(preferiti: set<int>, id: int): (r: set<int>)
    ensures id in r <==> id !in preferiti
    ensures forall x :: x != id ==> (x in r <==> x in preferiti)
  {
    if id in preferiti then preferiti - {id} else preferiti + {id}
  }

  /** Toggling twice restores the set. */
  lemma ToggleTwice(preferiti: set<int>, id: int)
    ensures Toggle(Toggle(preferiti, id), id) == preferiti
  {
  }

  /** `getLibriPreferiti`: the books in the set, in their order. */
  function Favourites(libri: seq<Libro>, preferiti: set<int>): (r: seq<Libro>)
    ensures forall i :: 0 <= i < |r| ==> r[i] in libri && r[i].id in preferiti
    ensures forall i :: 0 <= i < |libri| && libri[i].id in preferiti ==> libri[i] in r
  {
    Filter(libri, (l: Libro) => l.id in preferiti)
  }

  lemma FavouritesKeepOrder(libri: seq<Libro>, preferiti: set<int>)
    ensures SubsequenceOf(Favourites(libri, preferiti), libri)
  {
    FilterSubsequence(libri, (l: Libro) => l.id in preferiti);
  }

  // -------------------------------------------------------------- orders

  predicate OrdinamentoLess(a: Categoria, b: Categoria) { a.ordinamento < b.ordinamento }

  /** `fetchCategorie` keeps every category answered and leaves them by
      ascending `ordinamento`. */
  lemma CategorieSorted(cs: seq<Categoria>)
    ensures multiset(SortBy(cs, OrdinamentoLess)) == multiset(cs)
    ensures SortedBy(SortBy(cs, OrdinamentoLess), OrdinamentoLess)
    ensures forall i, j :: 0 <= i < j < |cs| ==>
      SortBy(cs, OrdinamentoLess)[i].ordinamento <= SortBy(cs, OrdinamentoLess)[j].ordinamento
  {
    assert StrictOrder(OrdinamentoLess);
    SortBySorted(cs, OrdinamentoLess);
  }

  function HasCategoriaId(id: int): Categoria -> bool { (c: Categoria) => c.id == id }

  function HasListaId(id: int): ListaLettura -> bool { (l: ListaLettura) => l.id == id }

  class BibliotecaService {
    var libri: seq<Libro>
    var categorie: seq<Categoria>
    var mieiPrestiti: seq<Prestito>
    var listeLettura: seq<ListaLettura>
    var preferiti: set<int>
    var isLoading: bool
    var errorMessage: Option<string>
    var currentFratelloId: Option<int>

    constructor ()
      ensures libri == [] && categorie == [] && mieiPrestiti == [] && listeLettura == []
      ensures preferiti == {} && !isLoading && errorMessage.None? && currentFratelloId.None?
    {
      libri := [];
      categorie := [];
      mieiPrestiti := [];
      listeLettura := [];
      preferiti := {};
      isLoading := false;
      errorMessage := None;
      currentFratelloId := None;
    }

    method SetCurrentFratello(id: int)
      modifies this
      ensures currentFratelloId == Some(id)
      ensures libri == old(libri) && categorie == old(categorie) && mieiPrestiti == old(mieiPrestiti)
      ensures listeLettura == old(listeLettura) && preferiti == old(preferiti)
      ensures isLoading == old(isLoading) && errorMessage == old(errorMessage)
    {
      currentFratelloId := Some(id);
    }

    /** `fetchLibri`, after the request built by `FetchParams`: the books
        answered replace the list, or the error's message is kept. */
    method FetchLibri(response: Result<seq<LibroServerDTO>, string>)
      modifies this
      ensures !isLoading
      ensures response.Ok? ==> errorMessage.None? && libri == ConvertAll(response.value, preferiti)
      ensures response.Err? ==> errorMessage == Some(response.error) && libri == old(libri)
      ensures categorie == old(categorie) && mieiPrestiti == old(mieiPrestiti) && listeLettura == old(listeLettura)
      ensures preferiti == old(preferiti) && currentFratelloId == old(currentFratelloId)
    {
      isLoading := true;
      errorMessage := None;
      match response
      case Ok(dtos) =>
        libri := ConvertAll(dtos, preferiti);
        isLoading := false;
      case Err(message) =>
        errorMessage := Some(message);
        isLoading := false;
    }

    function SearchLibri(query: string): (r: seq<Libro>)
      reads this
      ensures query == [] ==> r == libri
      ensures query != [] ==> forall l :: l in r <==> l in libri && Matches(l, LowerStr(query))
    {
      Search(libri, query)
    }

    /** `eliminaLibro`: once the server confirmed, every book with the id
        leaves the local list. */
    method EliminaLibro(id: int, serverOk: bool) returns (r: Outcome<BibliotecaError>)
      modifies this
      ensures serverOk ==> r == Pass && libri == RemoveAll(old(libri), HasLibroId(id))
      ensures !serverOk ==> r == Fail(ServerFailure) && libri == old(libri)
      ensures categorie == old(categorie) && listeLettura == old(listeLettura) && preferiti == old(preferiti)
      ensures mieiPrestiti == old(mieiPrestiti) && errorMessage == old(errorMessage)
      ensures isLoading == old(isLoading) && currentFratelloId == old(currentFratelloId)
    {
      if !serverOk {
        return Fail(ServerFailure);
      }
      libri := RemoveAll(libri, HasLibroId(id));
      return Pass;
    }

    /** `fetchCategorie`: the categories answered, by ascending
        `ordinamento`. */
    method FetchCategorie(response: Result<seq<Categoria>, string>)
      modifies this
      ensures response.Ok? ==> categorie == SortBy(response.value, OrdinamentoLess) && errorMessage == old(errorMessage)
      ensures response.Err? ==> categorie == old(categorie) && errorMessage == Some(response.error)
      ensures libri == old(libri) && listeLettura == old(listeLettura) && preferiti == old(preferiti)
      ensures mieiPrestiti == old(mieiPrestiti) && isLoading == old(isLoading)
      ensures currentFratelloId == old(currentFratelloId)
    {
      match response
      case Ok(cs) =>
        categorie := SortBy(cs, OrdinamentoLess);
      case Err(message) =>
        errorMessage := Some(message);
    }

    method EliminaCategoria(id: int, serverOk: bool) returns (r: Outcome<BibliotecaError>)
      modifies this
      ensures serverOk ==> r == Pass && categorie == RemoveAll(old(categorie), HasCategoriaId(id))
      ensures !serverOk ==> r == Fail(ServerFailure) && categorie == old(categorie)
      ensures libri == old(libri) && listeLettura == old(listeLettura) && preferiti == old(preferiti)
      ensures mieiPrestiti == old(mieiPrestiti) && errorMessage == old(errorMessage)
      ensures isLoading == old(isLoading) && currentFratelloId == old(currentFratelloId)
    {
      if !serverOk {
        return Fail(ServerFailure);
      }
      categorie := RemoveAll(categorie, HasCategoriaId(id));
      return Pass;
    }

    method EliminaLista(id: int, serverOk: bool) returns (r: Outcome<BibliotecaError>)
      modifies this
      ensures serverOk ==> r == Pass && listeLettura == RemoveAll(old(listeLettura), HasListaId(id))
      ensures !serverOk ==> r == Fail(ServerFailure) && listeLettura == old(listeLettura)
      ensures libri == old(libri) && categorie == old(categorie) && preferiti == old(preferiti)
      ensures mieiPrestiti == old(mieiPrestiti) && errorMessage == old(errorMessage)
      ensures isLoading == old(isLoading) && currentFratelloId == old(currentFratelloId)
    {
      if !serverOk {
        return Fail(ServerFailure);
      }
      listeLettura := RemoveAll(listeLettura, HasListaId(id));
      return Pass;
    }

    /** `fetchMieiPrestiti`: nothing happens when no brother is signed in;
        otherwise the loans answered replace the list, or the error's
        message is kept. */
    method FetchMieiPrestiti(response: Result<seq<PrestitoServerDTO>, string>)
      modifies this
      ensures currentFratelloId.None? ==>
        mieiPrestiti == old(mieiPrestiti) && isLoading == old(isLoading) && errorMessage == old(errorMessage)
      ensures currentFratelloId.Some? && response.Ok? ==>
        mieiPrestiti == ConvertPrestiti(response.value) && !isLoading && errorMessage.None?
      ensures currentFratelloId.Some? && response.Err? ==>
        mieiPrestiti == old(mieiPrestiti) && !isLoading && errorMessage == Some(response.error)
      ensures libri == old(libri) && categorie == old(categorie) && listeLettura == old(listeLettura)
      ensures preferiti == old(preferiti) && currentFratelloId == old(currentFratelloId)
    {
      if currentFratelloId.None? {
        return;
      }
      isLoading := true;
      errorMessage := None;
      match response
      case Ok(dtos) =>
        mieiPrestiti := ConvertPrestiti(dtos);
        isLoading := false;
      case Err(message) =>
        errorMessage := Some(message);
        isLoading := false;
    }

    /** `richiediPrestito`: refused before any request when no brother is
        signed in; a refused request changes nothing; an accepted one
        refreshes the loans and then the books from the two answers that
        follow it. */
    method RichiediPrestito(libroId: int, serverOk: bool,
                            loans: Result<seq<PrestitoServerDTO>, string>,
                            books: Result<seq<LibroServerDTO>, string>) returns (r: Outcome<BibliotecaError>)
      modifies this
      ensures old(currentFratelloId).None? ==> r == Fail(NotAuthenticated)
      ensures old(currentFratelloId).Some? ==> (r == Pass <==> serverOk)
      ensures r.Fail? ==> r.error == NotAuthenticated || r.error == ServerFailure
      ensures r.Fail? ==>
        libri == old(libri) && mieiPrestiti == old(mieiPrestiti) && isLoading == old(isLoading) && errorMessage == old(errorMessage)
      ensures r.Pass? && loans.Ok? ==> mieiPrestiti == ConvertPrestiti(loans.value)
      ensures r.Pass? && loans.Err? ==> mieiPrestiti == old(mieiPrestiti)
      ensures r.Pass? && books.Ok? ==> libri == ConvertAll(books.value, old(preferiti)) && errorMessage.None?
      ensures r.Pass? && books.Err? ==> libri == old(libri) && errorMessage == Some(books.error)
      ensures r.Pass? ==> !isLoading
      ensures categorie == old(categorie) && listeLettura == old(listeLettura)
      ensures preferiti == old(preferiti) && currentFratelloId == old(currentFratelloId)
    {
      if currentFratelloId.None? {
        return Fail(NotAuthenticated);
      }
      if !serverOk {
        return Fail(ServerFailure);
      }
      FetchMieiPrestiti(loans);
      FetchLibri(books);
      return Pass;
    }

  /** `togglePreferito`: once the server confirmed, the id's membership
        flips and the first book with the id records the new membership. */
    method TogglePreferito(libroId: int, serverOk: bool) returns (r: Outcome<BibliotecaError>)
      modifies this
      ensures !serverOk ==> r == Fail(ServerFailure) && preferiti == old(preferiti) && libri == old(libri)
      ensures serverOk ==> r == Pass && preferiti == Toggle(old(preferiti), libroId)
      ensures serverOk ==> libri == ReplaceFirst(old(libri), HasLibroId(libroId),
             FirstOr(old(libri), HasLibroId(libroId)).(isFavorito := Some(libroId in preferiti)))
      ensures categorie == old(categorie) && listeLettura == old(listeLettura) && mieiPrestiti == old(mieiPrestiti)
      ensures isLoading == old(isLoading) && errorMessage == old(errorMessage)
      ensures currentFratelloId == old(currentFratelloId)
    {
      if !serverOk {
        return Fail(ServerFailure);
      }
      if libroId in preferiti {
        preferiti := preferiti - {libroId};
      } else {
        preferiti := preferiti + {libroId};
      }
      var index := FirstIndex(libri, HasLibroId(libroId));
      if index.Some? {
        libri := libri[index.value := libri[index.value].(isFavorito := Some(libroId in preferiti))];
      }
      return Pass;
    }

    function GetLibriPreferiti(): seq<Libro>
      reads this
    {
      Favourites(libri, preferiti)
    }
  }

  /** The first book satisfying `p`, or a placeholder when there is none
      (only read when there is one). */
  function FirstOr(libri: seq<Libro>, p: Libro -> bool): (l: Libro)
    ensures FirstIndex(libri, p).Some? ==> l == libri[FirstIndex(libri, p).value]
  {
    match FirstIndex(libri, p)
    case Some(i) => libri[i]
    case None => Libro(0, "", "", "", "", "", Disponibile, None, None)
  }

  /** After a confirmed toggle the first book with the id is a favourite
      exactly when the id is now in the set; every other position keeps its
      book. */
  lemma ToggleMarksBook(libri: seq<Libro>, preferiti: set<int>, libroId: int)
    requires FirstIndex(libri, HasLibroId(libroId)).Some?
    ensures var p := Toggle(preferiti, libroId);
      var r := ReplaceFirst(libri, HasLibroId(libroId), FirstOr(libri, HasLibroId(libroId)).(isFavorito := Some(libroId in p)));
      var i := FirstIndex(libri, HasLibroId(libroId)).value;
      r[i].id == libroId && r[i].isFavorito == Some(libroId !in preferiti)
      && forall j :: 0 <= j < |libri| && j != i ==> r[j] == libri[j]
  {
  }
}
