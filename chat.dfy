/** Chat rooms and messages, and the rules both chat services share:
    the messages of one chat by time, the unread total, reading messages
    and stamping a room with its last message. Sender ids are integers
    wherever a tree uses a UUID. */
module Chat {
  import opened Wrappers
  import opened Text
  import opened Seqs

  datatype ChatType = Singola | Gruppo

  datatype MessaggioStato = Inviato | Ricevuto | Letto

  /** A chat room; times in whole seconds. */
  datatype ChatRoom = ChatRoom(
    id: int,
    titolo: string,
    tipo: ChatType,
    ultimoMessaggio: Option<string>,
    ultimoAggiornamento: Option<int>,
    nonLetti: int)

  datatype MessaggioChat = MessaggioChat(
    id: int,
    idChat: int,
    idMittente: int,
    testo: string,
    timestamp: int,
    stato: MessaggioStato)

  function HasRoomId(id: int): ChatRoom -> bool { (c: ChatRoom) => c.id == id }

  function HasMessageId(id: int): MessaggioChat -> bool { (m: MessaggioChat) => m.id == id }

  function InChat(chatId: int): MessaggioChat -> bool { (m: MessaggioChat) => m.idChat == chatId }

  predicate TimestampLess(a: MessaggioChat, b: MessaggioChat) { a.timestamp < b.timestamp }

  function MessageIds(s: seq<MessaggioChat>): (ids: seq<int>)
    ensures |ids| == |s| && forall i :: 0 <= i < |s| ==> ids[i] == s[i].id
  {
    seq(|s|, i requires 0 <= i < |s| => s[i].id)
  }

  // ------------------------------------------------------------ reading

  /** `filter { $0.idChat == chatId }.sorted { $0.timestamp < $1.timestamp }`. */
  function MessagesOf(messaggi: seq<MessaggioChat>, chatId: int): seq<MessaggioChat> {
    SortBy(Filter(messaggi, InChat(chatId)), TimestampLess)
  }

  /** The messages of a chat are exactly its messages, each once as often
      as stored, by ascending time. */
  lemma MessagesOfSpec(messaggi: seq<MessaggioChat>, chatId: int)
    ensures multiset(MessagesOf(messaggi, chatId)) == multiset(Filter(messaggi, InChat(chatId)))
    ensures forall i :: 0 <= i < |MessagesOf(messaggi, chatId)| ==>
      MessagesOf(messaggi, chatId)[i] in messaggi && MessagesOf(messaggi, chatId)[i].idChat == chatId
    ensures forall m :: m in messaggi && m.idChat == chatId ==> m in MessagesOf(messaggi, chatId)
    ensures forall i, j :: 0 <= i < j < |MessagesOf(messaggi, chatId)| ==>
      MessagesOf(messaggi, chatId)[i].timestamp <= MessagesOf(messaggi, chatId)[j].timestamp
  {
    var f := Filter(messaggi, InChat(chatId));
    assert StrictOrder(TimestampLess);
    SortBySorted(f, TimestampLess);
    SortBySameElements(f, TimestampLess);
    forall m | m in messaggi && m.idChat == chatId ensures m in MessagesOf(messaggi, chatId) {
      var k :| 0 <= k < |messaggi| && messaggi[k] == m;
      var j :| 0 <= j < |f| && f[j] == m;
    }
  }

  /** `chatRooms.reduce(0) { $0 + $1.nonLetti }`. */
  function UnreadSum(rooms: seq<ChatRoom>): int {
    if rooms == [] then 0 else UnreadSum(rooms[..|rooms| - 1]) + rooms[|rooms| - 1].nonLetti
  }

  lemma {:induction false} UnreadSumNonNegative(rooms: seq<ChatRoom>)
    requires forall i :: 0 <= i < |rooms| ==> rooms[i].nonLetti >= 0
    ensures UnreadSum(rooms) >= 0
    ensures forall i :: 0 <= i < |rooms| ==> rooms[i].nonLetti <= UnreadSum(rooms)
    decreases |rooms|
  {
    if rooms != [] {
      UnreadSumNonNegative(rooms[..|rooms| - 1]);
    }
  }

  /** Changing one room changes the total by the difference of its
      counters. */
  lemma {:induction false} UnreadSumUpdate(rooms: seq<ChatRoom>, i: nat, room: ChatRoom)
    requires i < |rooms|
    ensures UnreadSum(rooms[i := room]) == UnreadSum(rooms) - rooms[i].nonLetti + room.nonLetti
    decreases |rooms|
  {
    var n := |rooms| - 1;
    var t := rooms[i := room];
    if i == n {
      assert t[..n] == rooms[..n];
    } else {
      assert t[..n] == rooms[..n][i := room];
      UnreadSumUpdate(rooms[..n], i, room);
    }
  }

  // ------------------------------------------------------------ writing

  /** `segnaComeLetto`: the first message with the id read. */
  function MarkMessageRead(messaggi: seq<MessaggioChat>, id: int): (r: seq<MessaggioChat>)
    ensures |r| == |messaggi|
    ensures FirstIndex(messaggi, HasMessageId(id)).None? ==> r == messaggi
    ensures FirstIndex(messaggi, HasMessageId(id)).Some? ==>
      var i := FirstIndex(messaggi, HasMessageId(id)).value;
      r[i].stato == Letto && r[i].id == id && r[i] == messaggi[i].(stato := Letto)
      && forall j :: 0 <= j < |messaggi| && j != i ==> r[j] == messaggi[j]
  {
    match FirstIndex(messaggi, HasMessageId(id))
    case None => messaggi
    case Some(i) => messaggi[i := messaggi[i].(stato := Letto)]
  }

  /** The messages with every message of the chat read. */
  function MarkChatRead(messaggi: seq<MessaggioChat>, chatId: int): (r: seq<MessaggioChat>)
    ensures |r| == |messaggi|
    ensures forall i :: 0 <= i < |messaggi| && messaggi[i].idChat == chatId ==> r[i] == messaggi[i].(stato := Letto)
    ensures forall i :: 0 <= i < |messaggi| && messaggi[i].idChat != chatId ==> r[i] == messaggi[i]
  {
    seq(|messaggi|, i requires 0 <= i < |messaggi| =>
      if messaggi[i].idChat == chatId then messaggi[i].(stato := Letto) else messaggi[i])
  }

  /** Reading a chat twice is reading it once, and no message of the chat
      is left unread. */
  lemma MarkChatReadIdempotent(messaggi: seq<MessaggioChat>, chatId: int)
    ensures MarkChatRead(MarkChatRead(messaggi, chatId), chatId) == MarkChatRead(messaggi, chatId)
    ensures forall m :: m in MarkChatRead(messaggi, chatId) && m.idChat == chatId ==> m.stato == Letto
  {
  }

  /** The first room with the id, with its counter at zero. */
  function ResetUnread(rooms: seq<ChatRoom>, chatId: int): (r: seq<ChatRoom>)
    ensures |r| == |rooms|
    ensures FirstIndex(rooms, HasRoomId(chatId)).None? ==> r == rooms
    ensures FirstIndex(rooms, HasRoomId(chatId)).Some? ==>
      var i := FirstIndex(rooms, HasRoomId(chatId)).value;
      r[i] == rooms[i].(nonLetti := 0) && forall j :: 0 <= j < |rooms| && j != i ==> r[j] == rooms[j]
  {
    match FirstIndex(rooms, HasRoomId(chatId))
    case None => rooms
    case Some(i) => rooms[i := rooms[i].(nonLetti := 0)]
  }

  /** Resetting a room takes exactly its unread messages off the total. */
  lemma ResetUnreadSum(rooms: seq<ChatRoom>, chatId: int)
    ensures var i := FirstIndex(rooms, HasRoomId(chatId));
      UnreadSum(ResetUnread(rooms, chatId)) == UnreadSum(rooms) - (if i.Some? then rooms[i.value].nonLetti else 0)
  {
    match FirstIndex(rooms, HasRoomId(chatId))
    case None =>
    case Some(i) => UnreadSumUpdate(rooms, i, rooms[i].(nonLetti := 0));
  }

  /** The first room with the id, showing `testo` as last message at
      `now`. */
  function TouchRoom(rooms: seq<ChatRoom>, chatId: int, testo: string, now: int): (r: seq<ChatRoom>)
    ensures |r| == |rooms|
    ensures FirstIndex(rooms, HasRoomId(chatId)).None? ==> r == rooms
    ensures FirstIndex(rooms, HasRoomId(chatId)).Some? ==>
      var i := FirstIndex(rooms, HasRoomId(chatId)).value;
      r[i] == rooms[i].(ultimoMessaggio := Some(testo), ultimoAggiornamento := Some(now))
      && forall j :: 0 <= j < |rooms| && j != i ==> r[j] == rooms[j]
  {
    match FirstIndex(rooms, HasRoomId(chatId))
    case None => rooms
    case Some(i) => rooms[i := rooms[i].(ultimoMessaggio := Some(testo), ultimoAggiornamento := Some(now))]
  }

  /** The message `inviaMessaggio` records: the next free id, sent now. */
  function NewMessage(messaggi: seq<MessaggioChat>, chatId: int, mittente: int, testo: string, now: int)
    : (m: MessaggioChat)
    ensures m.id !in MessageIds(messaggi) && (messaggi == [] ==> m.id == 1)
    ensures m.idChat == chatId && m.idMittente == mittente && m.testo == testo
    ensures m.timestamp == now && m.stato == Inviato
  {
    MessaggioChat(NextId(MessageIds(messaggi)), chatId, mittente, testo, now, Inviato)
  }

  /** The mock chat data: two group rooms and three messages of the
      first, the last one received now. */
  function MockRooms(now: int): seq<ChatRoom> {
    [ ChatRoom(1, "Loggia Kilwinning", Gruppo, Some("La prossima tornata è confermata per il 25 novembre"), Some(now), 2),
      ChatRoom(2, "Comitato Tavole", Gruppo, Some("Ho completato la mia tavola sul simbolismo"), Some(now - 3 * 3600), 0) ]
  }

  function MockMessages(now: int, senders: (int, int, int)): seq<MessaggioChat> {
    [ MessaggioChat(1, 1, senders.0, "Fratelli, ricordo che la prossima tornata è prevista per il 25 novembre",
                    now - 2 * 3600, Letto),
      MessaggioChat(2, 1, senders.1, "Grazie della comunicazione, Ven.mo", now - 3600, Letto),
      MessaggioChat(3, 1, senders.2, "La prossima tornata è confermata per il 25 novembre", now, Ricevuto) ]
  }
}
