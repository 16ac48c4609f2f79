/** The chat service of the app target: the server's rooms and messages
    when it answers, the local mock data when it does not, and a message
    cache kept per chat. Every server call is a parameter: what it
    returned, or whether it succeeded. Date parsing is the parameter
    `parse`, which gives no instant for an unparseable string. */
module LiveChat {
  import opened Wrappers
  import opened Seqs
  import opened Chat

  datatype ChatRoomDTO = ChatRoomDTO(id: int, nomeChat: string, dataCreazione: string, ultimoMessaggio: Option<string>)

  datatype ChatMessageDTO = ChatMessageDTO(id: int, idChat: int, idMittente: int, testo: string, dataInvio: string, letto: int)

  /** `convertToChatRoom`: no room for an unparseable creation date; the
      last update is the last message's date when that parses, else the
      creation date; always a group room with nothing unread. */
  function ConvertToChatRoom(dto: ChatRoomDTO, parse: string -> Option<int>): (r: Option<ChatRoom>)
    ensures r.None? <==> parse(dto.dataCreazione).None?
    ensures r.Some? ==> r.value.id == dto.id && r.value.titolo == dto.nomeChat
    ensures r.Some? ==> r.value.tipo == Gruppo && r.value.nonLetti == 0
    ensures r.Some? ==> r.value.ultimoMessaggio == Some(dto.ultimoMessaggio.GetOr(""))
    ensures r.Some? && dto.ultimoMessaggio.Some? && parse(dto.ultimoMessaggio.value).Some? ==>
      r.value.ultimoAggiornamento == parse(dto.ultimoMessaggio.value)
    ensures r.Some? && (dto.ultimoMessaggio.None? || parse(dto.ultimoMessaggio.value).None?) ==>
      r.value.ultimoAggiornamento == parse(dto.dataCreazione)
  {
    match parse(dto.dataCreazione)
    case None => None
    case Some(dataCreazione) =>
      var ultimoAggiornamento :=
        if dto.ultimoMessaggio.Some? && parse(dto.ultimoMessaggio.value).Some?
        then parse(dto.ultimoMessaggio.value).value else dataCreazione;
      Some(ChatRoom(dto.id, dto.nomeChat, Gruppo, Some(dto.ultimoMessaggio.GetOr("")), Some(ultimoAggiornamento), 0))
  }

  /** `convertToMessaggioChat`: no message for an unparseable date; read
      exactly when the server's flag is 1, received otherwise. The sender
      is the placeholder `mittente`, standing for the fresh `UUID()` the
      source draws, not the server's. */
  function ConvertToMessaggioChat(dto: ChatMessageDTO, parse: string -> Option<int>, mittente: int)
    : (r: Option<MessaggioChat>)
    ensures r.None? <==> parse(dto.dataInvio).None?
    ensures r.Some? ==> (r.value.stato == Letto <==> dto.letto == 1)
    ensures r.Some? ==> r.value.stato != Inviato
    ensures r.Some? ==> r.value.id == dto.id && r.value.idChat == dto.idChat && r.value.testo == dto.testo
    ensures r.Some? ==> r.value.timestamp == parse(dto.dataInvio).value && r.value.idMittente == mittente
  {
    match parse(dto.dataInvio)
    case None => None
    case Some(timestamp) =>
      Some(MessaggioChat(dto.id, dto.idChat, mittente, dto.testo, timestamp, if dto.letto == 1 then Letto else Ricevuto))
  }

  /** The conversion of the room at position `i`. */
  function RoomAt(dtos: seq<ChatRoomDTO>, parse: string -> Option<int>): nat -> Option<ChatRoom> {
    (i: nat) => if i < |dtos| then ConvertToChatRoom(dtos[i], parse) else None
  }

  /** The room at `i` has a creation date that parses. */
  function RoomParses(dtos: seq<ChatRoomDTO>, parse: string -> Option<int>): nat -> bool {
    (i: nat) => i < |dtos| && parse(dtos[i].dataCreazione).Some?
  }

  /** `compactMap` of the room conversion: one room per record whose
      creation date parses, in the records' order. */
  function ConvertRooms(dtos: seq<ChatRoomDTO>, parse: string -> Option<int>): (r: seq<ChatRoom>)
    ensures var ks := Kept(|dtos|, RoomParses(dtos, parse));
      |r| == |ks| && forall k :: 0 <= k < |r| ==> Some(r[k]) == ConvertToChatRoom(dtos[ks[k]], parse)
  {
    var f := RoomAt(dtos, parse);
    assert forall i :: 0 <= i < |dtos| ==> f(i) == ConvertToChatRoom(dtos[i], parse);
    KeptAgree(|dtos|, Converts(f), RoomParses(dtos, parse));
    CompactMap(|dtos|, f)
  }

  /** No more rooms than records, and exactly the conversions of the
      records that convert. */
  lemma ConvertRoomsMembers(dtos: seq<ChatRoomDTO>, parse: string -> Option<int>)
    ensures |ConvertRooms(dtos, parse)| <= |dtos|
    ensures forall c :: c in ConvertRooms(dtos, parse) <==>
      exists i :: 0 <= i < |dtos| && ConvertToChatRoom(dtos[i], parse) == Some(c)
  {
    var f := RoomAt(dtos, parse);
    CompactMapMembers(|dtos|, f);
    assert forall i :: 0 <= i < |dtos| ==> f(i) == ConvertToChatRoom(dtos[i], parse);
  }

  /** The conversion of the message at position `i`. */
  function MessageAt(dtos: seq<ChatMessageDTO>, parse: string -> Option<int>, senders: nat -> int)
    : nat -> Option<MessaggioChat>
  {
    (i: nat) => if i < |dtos| then ConvertToMessaggioChat(dtos[i], parse, senders(i)) else None
  }

  /** The message at `i` has a sending date that parses. */
  function MessageParses(dtos: seq<ChatMessageDTO>, parse: string -> Option<int>): nat -> bool {
    (i: nat) => i < |dtos| && parse(dtos[i].dataInvio).Some?
  }

  /** `compactMap` of the message conversion: one message per record whose
      sending date parses, in the records' order. The record at position
      `i` gets the placeholder sender `senders(i)`, standing for the fresh
      `UUID()` the source draws for each message. */
  function ConvertMessages(dtos: seq<ChatMessageDTO>, parse: string -> Option<int>, senders: nat -> int)
    : (r: seq<MessaggioChat>)
    ensures var ks := Kept(|dtos|, MessageParses(dtos, parse));
      |r| == |ks| && forall k :: 0 <= k < |r| ==> Some(r[k]) == ConvertToMessaggioChat(dtos[ks[k]], parse, senders(ks[k]))
  {
    var f := MessageAt(dtos, parse, senders);
    assert forall i :: 0 <= i < |dtos| ==> f(i) == ConvertToMessaggioChat(dtos[i], parse, senders(i));
    KeptAgree(|dtos|, Converts(f), MessageParses(dtos, parse));
    CompactMap(|dtos|, f)
  }

  /** No more messages than records, and exactly the conversions of the
      records that convert. */
  lemma ConvertMessagesMembers(dtos: seq<ChatMessageDTO>, parse: string -> Option<int>, senders: nat -> int)
    ensures |ConvertMessages(dtos, parse, senders)| <= |dtos|
    ensures forall m :: m in ConvertMessages(dtos, parse, senders) <==>
      exists i :: 0 <= i < |dtos| && ConvertToMessaggioChat(dtos[i], parse, senders(i)) == Some(m)
  {
    var f := MessageAt(dtos, parse, senders);
    CompactMapMembers(|dtos|, f);
    assert forall i :: 0 <= i < |dtos| ==> f(i) == ConvertToMessaggioChat(dtos[i], parse, senders(i));
  }

  /** The cache after a successful fetch of one chat: that chat's old
      messages dropped, the fetched ones appended. */
  function ReplaceChat(messaggi: seq<MessaggioChat>, chatId: int, fetched: seq<MessaggioChat>): seq<MessaggioChat> {
    RemoveAll(messaggi, InChat(chatId)) + fetched
  }

  /** Another chat's cached messages are kept as they were, plus any of
      its messages the fetch happened to return. */
  lemma ReplaceChatKeepsOthers(messaggi: seq<MessaggioChat>, chatId: int, fetched: seq<MessaggioChat>, other: int)
    requires other != chatId
    ensures Filter(ReplaceChat(messaggi, chatId, fetched), InChat(other))
      == Filter(messaggi, InChat(other)) + Filter(fetched, InChat(other))
  {
    FilterConcat(RemoveAll(messaggi, InChat(chatId)), fetched, InChat(other));
    FilterOfRemoveAll(messaggi, InChat(chatId), InChat(other));
  }

  /** The fetched chat's cached messages are exactly the fetched ones of
      that chat. */
  lemma ReplaceChatReplaces(messaggi: seq<MessaggioChat>, chatId: int, fetched: seq<MessaggioChat>)
    ensures Filter(ReplaceChat(messaggi, chatId, fetched), InChat(chatId)) == Filter(fetched, InChat(chatId))
  {
    FilterConcat(RemoveAll(messaggi, InChat(chatId)), fetched, InChat(chatId));
    FilterOfRemoveAllSame(messaggi, InChat(chatId));
  }

  class ChatService {
    var chatRooms: seq<ChatRoom>
    var messaggi: seq<MessaggioChat>
    var useMockData: bool

    constructor (now: int, senders: (int, int, int))
      ensures chatRooms == MockRooms(now) && messaggi == MockMessages(now, senders) && !useMockData
    {
      chatRooms := MockRooms(now);
      messaggi := MockMessages(now, senders);
      useMockData := false;
    }

    /** `fetchChatRooms`: the server's rooms replace the list and live mode
        is on; on failure the mock rooms stay and mock mode is on. */
    method FetchChatRooms(response: Option<seq<ChatRoomDTO>>, parse: string -> Option<int>)
      modifies this
      ensures response.Some? ==> chatRooms == ConvertRooms(response.value, parse) && !useMockData
      ensures response.None? ==> chatRooms == old(chatRooms) && useMockData
      ensures messaggi == old(messaggi)
    {
      match response
      case Some(dtos) =>
        chatRooms := ConvertRooms(dtos, parse);
        useMockData := false;
      case None =>
        useMockData := true;
    }

    /** `fetchMessaggi`: the local messages of the chat in mock mode or when
        the server fails; otherwise the fetched ones, which also replace
        the chat's cached messages. */
    method FetchMessaggi(chatId: int, response: Option<seq<ChatMessageDTO>>, parse: string -> Option<int>, senders: nat -> int)
      returns (r: seq<MessaggioChat>)
      modifies this
      ensures useMockData || response.None? ==> r == MessagesOf(old(messaggi), chatId) && messaggi == old(messaggi)
      ensures !useMockData && response.Some? ==>
        var fetched := ConvertMessages(response.value, parse, senders);
        messaggi == ReplaceChat(old(messaggi), chatId, fetched) && r == SortBy(fetched, TimestampLess)
      ensures chatRooms == old(chatRooms) && useMockData == old(useMockData)
    {
      if useMockData {
        return MessagesOf(messaggi, chatId);
      }
      match response
      case Some(dtos) =>
        var messages := ConvertMessages(dtos, parse, senders);
        messaggi := RemoveAll(messaggi, InChat(chatId));
        messaggi := messaggi + messages;
        r := SortBy(messages, TimestampLess);
      case None =>
        r := MessagesOf(messaggi, chatId);
    }

    function GetUnreadCount(brotherId: int): int
      reads this
    {
      UnreadSum(chatRooms)
    }

    method CreateChatRoom(chatRoom: ChatRoom)
      modifies this
      ensures chatRooms == old(chatRooms) + [chatRoom] && messaggi == old(messaggi) && useMockData == old(useMockData)
    {
      chatRooms := chatRooms + [chatRoom];
    }

    method UpdateChatRoom(chatRoom: ChatRoom)
      modifies this
      ensures chatRooms == ReplaceFirst(old(chatRooms), HasRoomId(chatRoom.id), chatRoom)
      ensures messaggi == old(messaggi) && useMockData == old(useMockData)
    {
      var index := FirstIndex(chatRooms, HasRoomId(chatRoom.id));
      if index.Some? {
        chatRooms := chatRooms[index.value := chatRoom];
      }
    }

    /** `inviaMessaggio`. Mock mode: the new message appended and the
        chat's room stamped. Live mode: after a successful send the chat is
        fetched again (`refreshed`); after a failed one the new message is
        appended locally and no room changes. */
    method InviaMessaggio(chatId: int, mittente: int, testo: string, now: int, sent: bool,
                          refreshed: Option<seq<ChatMessageDTO>>, parse: string -> Option<int>, placeholders: nat -> int)
      modifies this
      ensures useMockData == old(useMockData)
      ensures old(useMockData) ==>
        messaggi == old(messaggi) + [NewMessage(old(messaggi), chatId, mittente, testo, now)]
        && chatRooms == TouchRoom(old(chatRooms), chatId, testo, now)
      ensures !old(useMockData) && !sent ==>
        messaggi == old(messaggi) + [NewMessage(old(messaggi), chatId, mittente, testo, now)]
        && chatRooms == old(chatRooms)
      ensures !old(useMockData) && sent && refreshed.None? ==>
        messaggi == old(messaggi) && chatRooms == old(chatRooms)
      ensures !old(useMockData) && sent && refreshed.Some? ==>
        messaggi == ReplaceChat(old(messaggi), chatId, ConvertMessages(refreshed.value, parse, placeholders))
        && chatRooms == old(chatRooms)
    {
      if useMockData {
        var newId := NextId(MessageIds(messaggi));
        var messaggio := MessaggioChat(newId, chatId, mittente, testo, now, Inviato);
        messaggi := messaggi + [messaggio];
        var index := FirstIndex(chatRooms, HasRoomId(chatId));
        if index.Some? {
          chatRooms := chatRooms[index.value := chatRooms[index.value].(ultimoMessaggio := Some(testo))];
          chatRooms := chatRooms[index.value := chatRooms[index.value].(ultimoAggiornamento := Some(now))];
        }
      } else if sent {
        var _ := FetchMessaggi(chatId, refreshed, parse, placeholders);
      } else {
        var newId := NextId(MessageIds(messaggi));
        var messaggio := MessaggioChat(newId, chatId, mittente, testo, now, Inviato);
        messaggi := messaggi + [messaggio];
      }
    }

    method SegnaComeLetto(messaggioId: int)
      modifies this
      ensures messaggi == MarkMessageRead(old(messaggi), messaggioId)
      ensures chatRooms == old(chatRooms) && useMockData == old(useMockData)
    {
      var index := FirstIndex(messaggi, HasMessageId(messaggioId));
      if index.Some? {
        messaggi := messaggi[index.value := messaggi[index.value].(stato := Letto)];
      }
    }

    method SegnaTuttiComeLetti(chatId: int)
      modifies this
      ensures messaggi == MarkChatRead(old(messaggi), chatId)
      ensures chatRooms == ResetUnread(old(chatRooms), chatId) && useMockData == old(useMockData)
    {
      for i := 0 to |messaggi|
        invariant |messaggi| == |old(messaggi)| && chatRooms == old(chatRooms) && useMockData == old(useMockData)
        invariant forall j :: 0 <= j < i ==> messaggi[j] == MarkChatRead(old(messaggi), chatId)[j]
        invariant forall j :: i <= j < |messaggi| ==> messaggi[j] == old(messaggi)[j]
      {
        if messaggi[i].idChat == chatId && messaggi[i].stato != Letto {
          messaggi := messaggi[i := messaggi[i].(stato := Letto)];
        }
      }
      var index := FirstIndex(chatRooms, HasRoomId(chatId));
      if index.Some? {
        chatRooms := chatRooms[index.value := chatRooms[index.value].(nonLetti := 0)];
      }
    }
  }
}
