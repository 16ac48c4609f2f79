/** The remote meeting repository: the server's rows mapped to meetings.
    The server call is its outcome (`response`), the ISO 8601 date parser a
    parameter (`parse`), and the UUID given to the row at position `k` of
    the server's answer is `newUuid(k)`. */
module RemoteTornate {
  import opened Wrappers
  import opened Text
  import opened Seqs
  import opened Tornate

  /** A row of `tornate` as the server sends it. */
  datatype TornataDTO = TornataDTO(
    id: int,
    titolo: string,
    dataTornata: string,
    tipo: string,
    luogo: string,
    presentatoDa: Option<string>,
    haAgape: int,
    note: Option<string>)

  datatype NetworkError = HttpError(statusCode: int) | TransportFailure

  /** The type: a ceremony only when the lower-cased text says so. */
  function TipoFrom(tipo: string): (t: TornataType)
    ensures t == Cerimonia <==> LowerStr(tipo) == "cerimonia"
  {
    match LowerStr(tipo)
    case "ordinaria" => Ordinaria
    case "cerimonia" => Cerimonia
    case _ => Ordinaria
  }

  /** Both raw values of the type are read back as themselves, whatever
      their letter case. */
  lemma TipoRoundTrip(t: TornataType)
    ensures TipoFrom(t.RawValue()) == t
    ensures TipoFrom(UpperStr(t.RawValue())) == t
  {
    var raw := t.RawValue();
    UpperStrSpec(raw);
    assert LowerStr(UpperStr(raw)) == LowerStr(raw);
    if t == Cerimonia {
      assert LowerStr(raw) == "cerimonia";
    } else {
      assert LowerStr(raw)[1] != "cerimonia"[1];
    }
  }

  /** The place: at home when the lower-cased text names Tolfa, as
      "tolfa" or "tofa". */
  function LocationFrom(luogo: string): (l: TornataLocation)
    ensures l == Tofa <==> Contains(LowerStr(luogo), "tolfa") || Contains(LowerStr(luogo), "tofa")
  {
    if Contains(LowerStr(luogo), "tolfa") || Contains(LowerStr(luogo), "tofa") then Tofa else Visita
  }

  /** The place names the app itself shows are read back as themselves. */
  lemma LocationHome()
    ensures LocationFrom(Tofa.RawValue()) == Tofa
  {
    var s := LowerStr(Tofa.RawValue());
    assert s[16..21] == "tolfa";
    assert "tolfa" <= s[16..];
  }

  lemma LocationVisit()
    ensures LocationFrom(Visita.RawValue()) == Visita
  {
    var s := LowerStr(Visita.RawValue());
    assert |s| == 16;
    forall i | 0 <= i <= |s| ensures !("tolfa" <= s[i..]) && !("tofa" <= s[i..]) {
      if i + 4 <= |s| {
        assert s[i] != 't';
      }
    }
  }

  /** `convertToTornata`: no meeting when the date does not parse;
      otherwise a meeting with the mapped type and place, no presenter as
      the empty text, the dinner flag from `ha_agape == 1` and the notes as
      sent. */
  function ConvertToTornata(dto: TornataDTO, parse: string -> Option<int>, newId: int): (r: Option<Tornata>)
    ensures r.None? <==> parse(dto.dataTornata).None?
    ensures r.Some? ==>
      && r.value.id == newId && r.value.title == dto.titolo && r.value.data == parse(dto.dataTornata).value
      && r.value.tipo == TipoFrom(dto.tipo) && r.value.location == LocationFrom(dto.luogo)
      && r.value.introducedBy == dto.presentatoDa.GetOr("")
      && (r.value.hasDinner <==> dto.haAgape == 1) && r.value.notes == dto.note
  {
    match parse(dto.dataTornata)
    case None => None
    case Some(date) =>
      Some(MakeTornata(newId, dto.titolo, date, TipoFrom(dto.tipo), dto.presentatoDa.GetOr(""),
                       location := LocationFrom(dto.luogo), hasDinner := dto.haAgape == 1, notes := dto.note))
  }

  /** The test `compactMap` applies: the row at `i` has a date that parses. */
  function DateParses(dtos: seq<TornataDTO>, parse: string -> Option<int>): nat -> bool {
    (i: nat) => i < |dtos| && parse(dtos[i].dataTornata).Some?
  }

  /** The conversion of the row at position `i`, which gets the UUID
      `newUuid(i)`. */
  function RowTornata(dtos: seq<TornataDTO>, parse: string -> Option<int>, newUuid: nat -> int)
    : nat -> Option<Tornata>
  {
    (i: nat) => if i < |dtos| then ConvertToTornata(dtos[i], parse, newUuid(i)) else None
  }

  /** `dtos.compactMap { convertToTornata(from: $0) }`: one meeting per row
      whose date parses, in the rows' order; the row at position `i` gets
      the UUID `newUuid(i)`. */
  function ConvertAll(dtos: seq<TornataDTO>, parse: string -> Option<int>, newUuid: nat -> int): (r: seq<Tornata>)
    ensures var ks := Kept(|dtos|, DateParses(dtos, parse));
      |r| == |ks| && forall k :: 0 <= k < |r| ==> Some(r[k]) == ConvertToTornata(dtos[ks[k]], parse, newUuid(ks[k]))
  {
    var f := RowTornata(dtos, parse, newUuid);
    assert forall i :: 0 <= i < |dtos| ==> f(i) == ConvertToTornata(dtos[i], parse, newUuid(i));
    KeptAgree(|dtos|, Converts(f), DateParses(dtos, parse));
    CompactMap(|dtos|, RowTornata(dtos, parse, newUuid))
  }

  /** No more meetings than rows, and exactly the conversions of the rows
      whose date parses. */
  lemma ConvertAllMembers(dtos: seq<TornataDTO>, parse: string -> Option<int>, newUuid: nat -> int)
    ensures |ConvertAll(dtos, parse, newUuid)| <= |dtos|
    ensures forall t :: t in ConvertAll(dtos, parse, newUuid) <==>
      exists i :: 0 <= i < |dtos| && ConvertToTornata(dtos[i], parse, newUuid(i)) == Some(t)
  {
    var f := RowTornata(dtos, parse, newUuid);
    CompactMapMembers(|dtos|, f);
    assert forall i :: 0 <= i < |dtos| ==> f(i) == ConvertToTornata(dtos[i], parse, newUuid(i));
  }

  /** `fetchTornate`: a failed call is passed on. */
  function FetchTornate(response: Result<seq<TornataDTO>, NetworkError>, parse: string -> Option<int>,
                        newUuid: nat -> int): (r: Result<seq<Tornata>, NetworkError>)
    ensures response.Err? ==> r == Err(response.error)
    ensures response.Ok? ==> r == Ok(ConvertAll(response.value, parse, newUuid))
  {
    match response
    case Err(e) => Err(e)
    case Ok(dtos) => Ok(ConvertAll(dtos, parse, newUuid))
  }

  /** `fetchTornata`: the first fetched meeting with the id. */
  function FetchTornata(id: int, response: Result<seq<TornataDTO>, NetworkError>, parse: string -> Option<int>,
                        newUuid: nat -> int): (r: Result<Option<Tornata>, NetworkError>)
    ensures response.Err? <==> r.Err?
    ensures r.Ok? && r.value.Some? ==> r.value.value.id == id
  {
    match FetchTornate(response, parse, newUuid)
    case Err(e) => Err(e)
    case Ok(tornate) => Ok(First(tornate, HasTornataId(id)))
  }

  /** Every converted meeting gets a new UUID, so an id none of the new
      ones repeats is never found, even when a row for that meeting was
      sent. */
  lemma FetchTornataFreshIds(id: int, dtos: seq<TornataDTO>, parse: string -> Option<int>, newUuid: nat -> int)
    requires forall k: nat :: newUuid(k) != id
    ensures FetchTornata(id, Ok(dtos), parse, newUuid) == Ok(None)
  {
    var tornate := ConvertAll(dtos, parse, newUuid);
    var ks := Kept(|dtos|, DateParses(dtos, parse));
    forall i | 0 <= i < |tornate| ensures tornate[i].id != id {
      assert Some(tornate[i]) == ConvertToTornata(dtos[ks[i]], parse, newUuid(ks[i]));
    }
  }

  /** `createTornata`, `updateTornata` and `deleteTornata` are not
      implemented on the server side: each fails with HTTP 501. */
  function CreateTornata(tornata: Tornata): Outcome<NetworkError> { Fail(HttpError(501)) }

  function UpdateTornata(tornata: Tornata): Outcome<NetworkError> { Fail(HttpError(501)) }

  function DeleteTornata(tornata: Tornata): Outcome<NetworkError> { Fail(HttpError(501)) }

  lemma WritesNotImplemented(tornata: Tornata)
    ensures CreateTornata(tornata) == UpdateTornata(tornata) == DeleteTornata(tornata) == Fail(HttpError(501))
  {
  }
}
