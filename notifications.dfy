/** In-app notifications: the record, its relative-time label, and the
    service that keeps the list together with its count of unread items. */
module Notifications {
  import opened Wrappers
  import opened Text
  import opened Seqs

  datatype NotificationType =
    | NuovaTornata | TornataModificata | NuovaDiscussione | NuovaTavola
    | NuovoLibro | LibroRestituito | NuovoMessaggio
  {
    function RawValue(): string {
      match this
      case NuovaTornata => "Nuova Tornata"
      case TornataModificata => "Tornata Modificata"
      case NuovaDiscussione => "Nuova Discussione Audio"
      case NuovaTavola => "Nuova Tavola"
      case NuovoLibro => "Nuovo Libro"
      case LibroRestituito => "Libro Restituito"
      case NuovoMessaggio => "Nuovo Messaggio"
    }
  }

  /** A notification; `dataCreazione` in whole seconds. */
  datatype Notifica = Notifica(
    id: int,
    tipo: NotificationType,
    titolo: string,
    messaggio: string,
    dataCreazione: int,
    letto: bool,
    idRiferimento: Option<string>)

  /** `Notification.init`; the default creation time `Date()` is the
      caller's `dataCreazione`. */
  function MakeNotifica(id: int, tipo: NotificationType, titolo: string, messaggio: string,
                        dataCreazione: int, letto: bool := false, idRiferimento: Option<string> := None): (n: Notifica)
    ensures n.id == id && n.tipo == tipo && n.titolo == titolo && n.messaggio == messaggio
    ensures n.dataCreazione == dataCreazione && n.letto == letto && n.idRiferimento == idRiferimento
  {
    Notifica(id, tipo, titolo, messaggio, dataCreazione, letto, idRiferimento)
  }

  /** Unless told otherwise a notification is unread and refers to
      nothing. */
  lemma InitDefaults(id: int, tipo: NotificationType, titolo: string, messaggio: string, dataCreazione: int)
    ensures !MakeNotifica(id, tipo, titolo, messaggio, dataCreazione).letto
    ensures MakeNotifica(id, tipo, titolo, messaggio, dataCreazione).idRiferimento.None?
  {
  }

  // -------------------------------------------------------- relative time

  /** `relativeTime`, for the whole seconds elapsed since creation. */
  function RelativeTime(interval: int): string {
    if interval < 60 then "Ora"
    else if interval < 3600 then NatToString(interval / 60) + " min fa"
    else if interval < 86400 then NatToString(interval / 3600) + "h fa"
    else NatToString(interval / 86400) + "g fa"
  }

  /** Under a minute, future times included, is "now"; otherwise the label
      is a count of whole minutes (1 to 59), hours (1 to 23) or days (at
      least 1), each of which fits its unit. */
  lemma RelativeTimeBuckets(interval: int)
    ensures interval < 60 ==> RelativeTime(interval) == "Ora"
    ensures 60 <= interval < 3600 ==>
      exists m: nat ::
        && 1 <= m <= 59 && m * 60 <= interval < (m + 1) * 60
        && RelativeTime(interval) == NatToString(m) + " min fa"
    ensures 3600 <= interval < 86400 ==>
      exists h: nat ::
        && 1 <= h <= 23 && h * 3600 <= interval < (h + 1) * 3600
        && RelativeTime(interval) == NatToString(h) + "h fa"
    ensures 86400 <= interval ==>
      exists d: nat ::
        && 1 <= d && d * 86400 <= interval < (d + 1) * 86400
        && RelativeTime(interval) == NatToString(d) + "g fa"
  {
    if 60 <= interval < 3600 {
      var m := interval / 60;
      assert 1 <= m <= 59 && m * 60 <= interval < (m + 1) * 60;
      assert RelativeTime(interval) == NatToString(m) + " min fa";
    } else if 3600 <= interval < 86400 {
      var h := interval / 3600;
      assert 1 <= h <= 23 && h * 3600 <= interval < (h + 1) * 3600;
      assert RelativeTime(interval) == NatToString(h) + "h fa";
    } else if 86400 <= interval {
      var d := interval / 86400;
      assert 1 <= d && d * 86400 <= interval < (d + 1) * 86400;
      assert RelativeTime(interval) == NatToString(d) + "g fa";
    }
  }

  // -------------------------------------------------------------- service

  predicate IsUnread(n: Notifica) { !n.letto }

  function HasNotificaId(id: int): Notifica -> bool { (n: Notifica) => n.id == id }

  function NotificaIds(s: seq<Notifica>): (ids: seq<int>)
    ensures |ids| == |s| && forall i :: 0 <= i < |s| ==> ids[i] == s[i].id
  {
    seq(|s|, i requires 0 <= i < |s| => s[i].id)
  }

  /** `segnaComeLetta`: the first notification with the id read, nothing
      else changed. */
  function MarkFirstRead(s: seq<Notifica>, id: int): (r: seq<Notifica>)
    ensures |r| == |s|
    ensures FirstIndex(s, HasNotificaId(id)).None? ==> r == s
    ensures FirstIndex(s, HasNotificaId(id)).Some? ==>
      var i := FirstIndex(s, HasNotificaId(id)).value;
      r[i] == s[i].(letto := true) && forall j :: 0 <= j < |s| && j != i ==> r[j] == s[j]
  {
    match FirstIndex(s, HasNotificaId(id))
    case None => s
    case Some(i) => s[i := s[i].(letto := true)]
  }

  /** Reading the first notification with the id lowers the unread count
      by one when it was unread, and leaves it otherwise. */
  lemma MarkFirstReadCount(s: seq<Notifica>, id: int)
    ensures var i := FirstIndex(s, HasNotificaId(id));
      Count(MarkFirstRead(s, id), IsUnread)
        == Count(s, IsUnread) - (if i.Some? && !s[i.value].letto then 1 else 0)
  {
    match FirstIndex(s, HasNotificaId(id))
    case None =>
    case Some(i) => CountUpdate(s, i, s[i].(letto := true), IsUnread);
  }

  /** The notification every `notificaNuovo*` helper adds: the next free
      id, unread, created now. */
  function NewNotifica(s: seq<Notifica>, tipo: NotificationType, titolo: string, messaggio: string, now: int)
    : (n: Notifica)
    ensures n.id !in NotificaIds(s) && (s == [] ==> n.id == 1)
    ensures n.tipo == tipo && !n.letto && n.dataCreazione == now && n.idRiferimento.None?
  {
    MakeNotifica(NextId(NotificaIds(s)), tipo, titolo, messaggio, now)
  }

  class NotificationService {
    var notifiche: seq<Notifica>
    var nonLette: int

    /** The counter the badge shows is the number of unread items. */
    predicate Valid()
      reads this
    {
      nonLette == Count(notifiche, IsUnread)
    }

    /** `loadMockData` then `calculateNonLette`: one unread tornata a day
        old and one read book three days old. */
    constructor (now: int)
      ensures Valid() && |notifiche| == 2 && nonLette == 1
      ensures notifiche[0].tipo == NuovaTornata && notifiche[1].tipo == NuovoLibro
    {
      notifiche := [
        MakeNotifica(1, NuovaTornata, "Nuova Tornata Programmata",
                     "Il sentiero della saggezza - 25 novembre 2025", now - 86400, false),
        MakeNotifica(2, NuovoLibro, "Nuovo Libro in Biblioteca",
                     "Il Simbolismo Massonico di Jules Boucher", now - 3 * 86400, true)
      ];
      new;
      CountCons(notifiche[0], notifiche[1..], IsUnread);
      CountCons(notifiche[1], [], IsUnread);
      assert notifiche[1..] == [notifiche[1]] + [];
      CalculateNonLette();
    }

    method CalculateNonLette()
      modifies this
      ensures Valid() && notifiche == old(notifiche)
    {
      nonLette := Count(notifiche, IsUnread);
    }

    /** `fetchNotificheNonLette`: the unread notifications, in order. */
    function FetchNotificheNonLette(): (r: seq<Notifica>)
      reads this
      ensures forall i :: 0 <= i < |r| ==> r[i] in notifiche && !r[i].letto
      ensures forall i :: 0 <= i < |notifiche| && !notifiche[i].letto ==> notifiche[i] in r
      ensures SubsequenceOf(r, notifiche)
    {
      FilterSubsequence(notifiche, IsUnread);
      Filter(notifiche, IsUnread)
    }

    /** The counter is the length of that list. */
    lemma UnreadListMatchesCounter()
      requires Valid()
      ensures |FetchNotificheNonLette()| == nonLette
    {
    }

    /** `addNotifica`: inserted at the front, the rest kept in order; the
        counter grows by one for an unread notification. */
    method AddNotifica(notifica: Notifica)
      modifies this
      ensures notifiche == [notifica] + old(notifiche)
      ensures Valid()
      ensures old(Valid()) ==> nonLette == old(nonLette) + (if notifica.letto then 0 else 1)
    {
      notifiche := [notifica] + notifiche;
      CountCons(notifica, old(notifiche), IsUnread);
      CalculateNonLette();
    }

    method SegnaComeLetta(notificaId: int)
      modifies this
      ensures notifiche == MarkFirstRead(old(notifiche), notificaId)
      ensures Valid()
    {
      var index := FirstIndex(notifiche, HasNotificaId(notificaId));
      if index.Some? {
        notifiche := notifiche[index.value := notifiche[index.value].(letto := true)];
      }
      CalculateNonLette();
    }

    /** `segnaTutteComeLette`: every notification read, in the same order,
        and nothing left unread. */
    method SegnaTutteComeLette()
      modifies this
      ensures |notifiche| == |old(notifiche)|
      ensures forall i :: 0 <= i < |notifiche| ==> notifiche[i] == old(notifiche)[i].(letto := true)
      ensures Valid() && nonLette == 0
    {
      for i := 0 to |notifiche|
        invariant |notifiche| == |old(notifiche)|
        invariant forall j :: 0 <= j < i ==> notifiche[j] == old(notifiche)[j].(letto := true)
        invariant forall j :: i <= j < |notifiche| ==> notifiche[j] == old(notifiche)[j]
      {
        notifiche := notifiche[i := notifiche[i].(letto := true)];
      }
      CalculateNonLette();
    }

    /** `eliminaNotifica`: every notification with the id removed, the
        others kept in order. */
    method EliminaNotifica(notificaId: int)
      modifies this
      ensures notifiche == RemoveAll(old(notifiche), HasNotificaId(notificaId))
      ensures Valid()
    {
      notifiche := RemoveAll(notifiche, HasNotificaId(notificaId));
      CalculateNonLette();
    }

    method NotificaNuovaTornata(tornata: string, data: string, now: int)
      modifies this
      ensures notifiche == [NewNotifica(old(notifiche), NuovaTornata, "Nuova Tornata Programmata",
                                        tornata + " - " + data, now)] + old(notifiche)
      ensures Valid()
    {
      var notifica := NewNotifica(notifiche, NuovaTornata, "Nuova Tornata Programmata", tornata + " - " + data, now);
      AddNotifica(notifica);
    }

    method NotificaNuovaDiscussione(titolo: string, fratello: string, now: int)
      modifies this
      ensures notifiche == [NewNotifica(old(notifiche), NuovaDiscussione, "Nuova Discussione Audio",
                                        titolo + " di Fr. " + fratello, now)] + old(notifiche)
      ensures Valid()
    {
      var notifica := NewNotifica(notifiche, NuovaDiscussione, "Nuova Discussione Audio", titolo + " di Fr. " + fratello, now);
      AddNotifica(notifica);
    }

    method NotificaNuovaTavola(titolo: string, autore: string, now: int)
      modifies this
      ensures notifiche == [NewNotifica(old(notifiche), NuovaTavola, "Nuova Tavola Pubblicata",
                                        titolo + " di Fr. " + autore, now)] + old(notifiche)
      ensures Valid()
    {
      var notifica := NewNotifica(notifiche, NuovaTavola, "Nuova Tavola Pubblicata", titolo + " di Fr. " + autore, now);
      AddNotifica(notifica);
    }

    method NotificaNuovoLibro(titolo: string, autore: string, now: int)
      modifies this
      ensures notifiche == [NewNotifica(old(notifiche), NuovoLibro, "Nuovo Libro in Biblioteca",
                                        titolo + " di " + autore, now)] + old(notifiche)
      ensures Valid()
    {
      var notifica := NewNotifica(notifiche, NuovoLibro, "Nuovo Libro in Biblioteca", titolo + " di " + autore, now);
      AddNotifica(notifica);
    }

    method NotificaLibroRestituito(titolo: string, now: int)
      modifies this
      ensures notifiche == [NewNotifica(old(notifiche), LibroRestituito, "Libro Restituito",
                                        titolo + " è ora disponibile", now)] + old(notifiche)
      ensures Valid()
    {
      var notifica := NewNotifica(notifiche, LibroRestituito, "Libro Restituito", titolo + " è ora disponibile", now);
      AddNotifica(notifica);
    }

    method NotificaNuovoMessaggio(chat: string, anteprima: string, now: int)
      modifies this
      ensures notifiche == [NewNotifica(old(notifiche), NuovoMessaggio, "Nuovo Messaggio in " + chat,
                                        anteprima, now)] + old(notifiche)
      ensures Valid()
    {
      var notifica := NewNotifica(notifiche, NuovoMessaggio, "Nuovo Messaggio in " + chat, anteprima, now);
      AddNotifica(notifica);
    }
  }
}
