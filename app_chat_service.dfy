/** The in-memory chat of the SwiftUI package: rooms and messages changed
    in place by sending and reading. */
module AppChat {
  import opened Wrappers
  import opened Seqs
  import opened Chat

  class ChatService {
    var chatRooms: seq<ChatRoom>
    var messaggi: seq<MessaggioChat>

    /** `loadMockData`; `senders` stands for the three placeholder UUIDs. */
    constructor (now: int, senders: (int, int, int))
      ensures chatRooms == MockRooms(now) && messaggi == MockMessages(now, senders)
      ensures UnreadSum(chatRooms) == 2
    {
      chatRooms := MockRooms(now);
      messaggi := MockMessages(now, senders);
      new;
      var r := chatRooms;
      assert r[..1][..0] == [];
      assert UnreadSum(r[..1]) == 2;
    }

    function FetchMessaggi(chatId: int): seq<MessaggioChat>
      reads this
    {
      MessagesOf(messaggi, chatId)
    }

    /** The brother's id is not used. */
    function GetUnreadCount(brotherId: int): int
      reads this
    {
      UnreadSum(chatRooms)
    }

    method CreateChatRoom(chatRoom: ChatRoom)
      modifies this
      ensures chatRooms == old(chatRooms) + [chatRoom] && messaggi == old(messaggi)
    {
      chatRooms := chatRooms + [chatRoom];
    }

    method UpdateChatRoom(chatRoom: ChatRoom)
      modifies this
      ensures chatRooms == ReplaceFirst(old(chatRooms), HasRoomId(chatRoom.id), chatRoom) && messaggi == old(messaggi)
    {
      var index := FirstIndex(chatRooms, HasRoomId(chatRoom.id));
      if index.Some? {
        chatRooms := chatRooms[index.value := chatRoom];
      }
    }

    /** `inviaMessaggio`: one new message appended, and the first room of
        the chat shows it. */
    method InviaMessaggio(chatId: int, mittente: int, testo: string, now: int)
      modifies this
      ensures messaggi == old(messaggi) + [NewMessage(old(messaggi), chatId, mittente, testo, now)]
      ensures chatRooms == TouchRoom(old(chatRooms), chatId, testo, now)
    {
      var newId := NextId(MessageIds(messaggi));
      var messaggio := MessaggioChat(newId, chatId, mittente, testo, now, Inviato);
      messaggi := messaggi + [messaggio];
      var index := FirstIndex(chatRooms, HasRoomId(chatId));
      if index.Some? {
        chatRooms := chatRooms[index.value := chatRooms[index.value].(ultimoMessaggio := Some(testo))];
        chatRooms := chatRooms[index.value := chatRooms[index.value].(ultimoAggiornamento := Some(now))];
      }
    }

    method SegnaComeLetto(messaggioId: int)
      modifies this
      ensures messaggi == MarkMessageRead(old(messaggi), messaggioId) && chatRooms == old(chatRooms)
    {
      var index := FirstIndex(messaggi, HasMessageId(messaggioId));
      if index.Some? {
        messaggi := messaggi[index.value := messaggi[index.value].(stato := Letto)];
      }
    }

    /** `segnaTuttiComeLetti`: the chat's messages read, the others
        untouched, and the chat's room at zero unread. */
    method SegnaTuttiComeLetti(chatId: int)
      modifies this
      ensures messaggi == MarkChatRead(old(messaggi), chatId)
      ensures chatRooms == ResetUnread(old(chatRooms), chatId)
    {
      for i := 0 to |messaggi|
        invariant |messaggi| == |old(messaggi)| && chatRooms == old(chatRooms)
        invariant forall j :: 0 <= j < i ==> messaggi[j] == MarkChatRead(old(messaggi), chatId)[j]
        invariant forall j :: i <= j < |messaggi| ==> messaggi[j] == old(messaggi)[j]
      {
        if messaggi[i].idChat == chatId && messaggi[i].stato != Letto {
          messaggi := messaggi[i := messaggi[i].(stato := Letto)];
        }
      }
      var index := FirstIndex(chatRooms, HasRoomId(chatId));
      if index.Some? {
        chatRooms := chatRooms[index.value := chatRooms[index.value].(nonLetti := 0)];
      }
    }
  }
}
