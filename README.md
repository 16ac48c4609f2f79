# Kilwinning core, modelled in Dafny

Kilwinning is the app of a masonic lodge: its members (brothers), its meetings (tornate), attendance, the lodge library and its loans, chat, notifications and recorded talks. This project models the logic at its core and proves what that logic promises:

- **The Xcode project generator** (`generate_xcode_project.py`): deterministic 24-character ids, one file reference and one build file per discovered Swift file, the six category groups, the build phases, and the `project.pbxproj` text, which is built by appending strings in loops.
- **The library services**: search, filter, the loan request and return state machine and its guards, in the mock store and in the service with live and mock branches. Also the local half of `BibliotecaService`: favourites, removals, the query parameters and the DTO status mappings.
- **The in-memory stores**, each a class whose `seq` fields the methods update:
  - notifications, with their unread counter;
  - chat rooms and messages;
  - recorded talks;
  - the tornate repositories;
  - the two presence upsert stores and `DataService`.
- **Presence bookkeeping**: the longest run of presences, the streak counted back from the latest meeting, filters by initiation date and by year, statistics, and the small classification tables of `PresenceCalculator`.
- **The model rules**:
  - defaults of the initialisers, vote clamping, loan due-date flags, relative-time buckets, name and role formatting;
  - the two authentication services;
  - the `.env` loader of the PHP API and the `BIB0001`-style archive codes.

Each Swift service or repository that mutates its arrays is a Dafny `class` with `seq` fields. Its methods state their whole new state in terms of functions on the old one. Lemmas then prove what the source promises about those functions: order kept, exactly one record added, the id one past the largest, the counter equal to the count, a round trip, and so on.

Shared pieces:

- `wrappers.dfy`: `Option` and an `Outcome` for thrown errors.
- `text.dfy`: ASCII case mapping, trimming, substring search, decimal text.
- `seqs.dfy`: filter, first index, replace-first, remove-all, next id and a sorting function.

Ids are integers wherever a Swift tree uses a UUID, and instants are whole seconds. Every network call is a parameter that says whether the call succeeded and what it returned. The same holds for the clock, the calendar, date formatting and MD5.

## Model

| member | source | states |
|---|---|---|
| XcodeProject.UuidShape | generate_xcode_project.py:10-12 | an id is the digest cut to 24 characters and upper-cased: never longer than 24, and exactly 24 upper-case hexadecimal digits for a hexadecimal digest |
| XcodeProject.SwiftFilesSorted | generate_xcode_project.py:14-20 | the discovered paths come out in path order and are exactly the paths found (a permutation) |
| XcodeProject.SourceBuildFiles | generate_xcode_project.py:68-70 | one build file per path, in path order |
| XcodeProject.SourceFileRefs | generate_xcode_project.py:87-88 | one file reference per path, in path order |
| XcodeProject.CategoryRefs | generate_xcode_project.py:110-115 | the main group starts with one child per category, six in all |
| XcodeProject.CategoryFiles | generate_xcode_project.py:137-219 | a category group holds the found paths under the category's directory, and all of them |
| XcodeProject.GroupChildren | generate_xcode_project.py:137-219 | one child per file of the category, named by its base name, in order |
| XcodeProject.CategoryGroups | generate_xcode_project.py:137-219 | the six category groups, in the fixed order Core, Models, Views, Services, Repositories, Utilities |
| XcodeProject.SourceEntries | generate_xcode_project.py:301-302 | the Sources phase lists one "in Sources" entry per path, in order |
| XcodeProject.Describe | generate_xcode_project.py:103-123 | building the project fails exactly when the app entry `KilwinningApp.swift` is not among the discovered paths (the lookup of its file reference in the main group) |
| XcodeProject.SourceBuildFilesMatch | generate_xcode_project.py:64-76 | the build-file section has the sources' build files, each pointing at the file's reference, followed by the two resource build files |
| XcodeProject.SourceFileRefsDefined | generate_xcode_project.py:78-90 | every discovered path has a file reference in the file-reference section |
| XcodeProject.FixedFileRefsDefined | generate_xcode_project.py:82-85 | the product, `Info.plist`, the asset catalog and `Config.plist` have file references |
| XcodeProject.BuildFilesResolve | generate_xcode_project.py:64-90 | every build file, of a source or of a resource, refers to a file reference the file-reference section defines |
| XcodeProject.SourcesPhaseLists | generate_xcode_project.py:292-307 | the Sources phase lists exactly one build file per path, in path order, each defined in the build-file section |
| XcodeProject.CategoryFilesExact | generate_xcode_project.py:137-219 | a path is in a category group if and only if it is found and lies under the category's directory; path order is kept |
| XcodeProject.GroupSectionLayout | generate_xcode_project.py:103-221 | the group section holds the main group, the products group and the six category groups, in that order |
| XcodeProject.CategoryGroupChildren | generate_xcode_project.py:137-219 | each category group has its fixed id and path and one child per file of the category, each resolved in the file-reference section |
| XcodeProject.MainGroupCategories | generate_xcode_project.py:107-115 | the main group has eleven children, the six category groups first, in their fixed order |
| XcodeProject.MainGroupFiles | generate_xcode_project.py:116-123 | after the categories the main group lists the app entry, `Info.plist`, the assets, `Config.plist` and the products group |
| XcodeProject.MainGroupFilesDefined | generate_xcode_project.py:82-88 | the files the main group names all have file references when the app entry is among the paths |
| XcodeProject.ResourcesPhaseLists | generate_xcode_project.py:278-290 | the Resources phase lists the asset catalog and `Config.plist` build files, both defined in the build-file section |
| XcodeProject.ConfigListsAndRoot | generate_xcode_project.py:245-276 | Debug and Release configurations, two configuration lists each naming both with Release as default, and the root object is the project object |
| XcodeProject.BuildIdTables | generate_xcode_project.py:22-28 | the loop gives every path exactly one file-reference id and one build-file id, derived from the path |
| XcodeProject.BuildFileSectionText | generate_xcode_project.py:64-76 | the loop prints exactly the text of the build-file section the model describes |
| XcodeProject.FileReferenceSectionText | generate_xcode_project.py:78-90 | the loop prints exactly the text of the file-reference section |
| XcodeProject.CategoryGroupText | generate_xcode_project.py:137-219 | the loop prints exactly the text of one category group |
| XcodeProject.GroupSectionText | generate_xcode_project.py:103-221 | prints exactly the text of the group section |
| XcodeProject.SourcesSectionText | generate_xcode_project.py:292-307 | the loop prints exactly the text of the Sources phase section |
| XcodeProject.FixedSectionText | generate_xcode_project.py:223-290 | the sections that do not depend on the discovered files are printed as described |
| XcodeProject.Generate | generate_xcode_project.py:14-497 | the generator's output is the serialisation of the described project, or the missing-app-entry error |
| Library.LoanIds | KilwinningApp/Sources/KilwinningApp/Services/LibraryService.swift:89 | the ids of the loans, one per loan, in order |
| Library.Search | KilwinningApp/Sources/KilwinningApp/Services/LibraryService.swift:25-34 | an empty query returns every book; otherwise a book is returned if and only if its lower-cased title, author or category contains the lower-cased query |
| Library.SearchKeepsOrder | KilwinningApp/Sources/KilwinningApp/Services/LibraryService.swift:29-33 | the search keeps the books' order (its result is a subsequence) |
| Library.FilterByStato | KilwinningApp/Sources/KilwinningApp/Services/LibraryService.swift:37-40 | no state returns every book; otherwise exactly the books in that state |
| Library.LoansOf | KilwinningApp/Sources/KilwinningApp/Services/LibraryService.swift:43-45 | exactly the loans of the brother |
| Library.ActiveLoansOf | KilwinningApp/Sources/KilwinningApp/Services/LibraryService.swift:48-50 | exactly the brother's active loans |
| Library.AddSortedSpec | KilwinningApp/Sources/KilwinningApp/Services/LibraryService.swift:55-59 | adding a book keeps every book, adds exactly the new one (a permutation of the old list plus the book) and leaves the list in title order |
| Library.LoanGuard | KilwinningApp/Sources/KilwinningApp/Services/LibraryService.swift:80-86 | the first book with the id, if it is available; "libro non trovato" if and only if no book has the id; "libro non disponibile" if and only if the first such book is not available |
| Library.ReturnGuard | KilwinningApp/Sources/KilwinningApp/Services/LibraryService.swift:108-115 | the first loan with the id and the first book it refers to; "prestito non trovato" if and only if no loan has the id, otherwise "libro non trovato" when the book is missing |
| Library.NewLoan | KilwinningApp/Sources/KilwinningApp/Services/LibraryService.swift:89-97 | the new loan's id is one more than the largest id held (1 for the first loan), so no loan has it; it is for the given book and brother, starts now, is active, and has no end or due date |
| Library.SetStato | KilwinningApp/Sources/KilwinningApp/Services/LibraryService.swift:102 | only the chosen book's state changes |
| Library.CloseLoan | KilwinningApp/Sources/KilwinningApp/Services/LibraryService.swift:118-119 | only the chosen loan changes: it is closed ("concluso") now |
| AppLibrary.RequestLoanErrors | KilwinningApp/Sources/KilwinningApp/Services/LibraryService.swift:78-86 | the request fails with "libro non trovato" if and only if no book has the id, and with "libro non disponibile" if and only if the first book with the id is not available |
| AppLibrary.RequestLoanGranted | KilwinningApp/Sources/KilwinningApp/Services/LibraryService.swift:88-103 | a granted request appends exactly one active loan with a fresh id (the largest id plus one), for the brother and book, started now; the book was available and is now lent; no other book or loan changes |
| AppLibrary.ReturnBookSpec | KilwinningApp/Sources/KilwinningApp/Services/LibraryService.swift:106-123 | a return fails with "prestito non trovato" if and only if no loan has the id; on success the loan is closed now, its book available, and nothing else changes |
| AppLibrary.LibraryService.constructor | KilwinningApp/Sources/KilwinningApp/Services/LibraryService.swift:127-170 | the sample data: three books, the third lent, and one active loan of it |
| AppLibrary.LibraryService.AddLibro | KilwinningApp/Sources/KilwinningApp/Services/LibraryService.swift:55-59 | the books become the old books plus the new one, sorted by title; the loans are unchanged |
| AppLibrary.LibraryService.UpdateLibro | KilwinningApp/Sources/KilwinningApp/Services/LibraryService.swift:62-67 | the first book with the same id is replaced; nothing changes when there is none |
| AppLibrary.LibraryService.DeleteLibro | KilwinningApp/Sources/KilwinningApp/Services/LibraryService.swift:70-73 | every book with the id is removed and the loans are unchanged |
| AppLibrary.LibraryService.RichiediPrestito | KilwinningApp/Sources/KilwinningApp/Services/LibraryService.swift:78-103 | on an error nothing changes and the error is returned; otherwise the lists become those of the granted request |
| AppLibrary.LibraryService.RestituisciLibro | KilwinningApp/Sources/KilwinningApp/Services/LibraryService.swift:106-123 | on an error nothing changes and the error is returned; otherwise the loan is closed and its book available |
| LiveLibrary.ConvertToLibro | Kilwinning/Services/LibraryService.swift:215-228 | a server book is lent if and only if its state, lower-cased, contains "prestito", and is never reserved; every other field is copied |
| LiveLibrary.ConvertLent | Kilwinning/Services/LibraryService.swift:215-216 | the server's "In prestito" reads back as a lent book |
| LiveLibrary.ConvertAvailable | Kilwinning/Services/LibraryService.swift:215-216 | the server's "Disponibile" reads back as an available book |
| LiveLibrary.RequestGuardsFirst | Kilwinning/Services/LibraryService.swift:92-116 | the two guards decide before either mode, whatever the server says; a network error happens if and only if the guards pass in live mode and the server refuses |
| LiveLibrary.RequestGranted | Kilwinning/Services/LibraryService.swift:101-131 | a granted request lends the book, which was available, and changes no other book; in live mode no loan is recorded; in mock mode one active loan with a fresh id is appended |
| LiveLibrary.ReturnModesAgree | Kilwinning/Services/LibraryService.swift:135-164 | live mode with the server accepting and mock mode give the same result; live mode with the server refusing fails |
| LiveLibrary.LibraryService.constructor | Kilwinning/Services/LibraryService.swift:16-21 | starts in live mode with the sample data: three books, the third lent, and its loan |
| LiveLibrary.LibraryService.FetchLibri | Kilwinning/Services/LibraryService.swift:26-36 | a successful fetch replaces the books by the converted server books and turns live mode on; a failed one keeps the books and turns mock mode on |
| LiveLibrary.LibraryService.SearchLibri | Kilwinning/Services/LibraryService.swift:39-48 | an empty query returns every book; otherwise exactly the books whose title, author or category contains the lower-cased query |
| LiveLibrary.LibraryService.FilterLibri | Kilwinning/Services/LibraryService.swift:51-54 | no state returns every book; otherwise exactly the books in that state |
| LiveLibrary.LibraryService.AddLibro | Kilwinning/Services/LibraryService.swift:69-73 | the books become the old books plus the new one, sorted by title |
| LiveLibrary.LibraryService.UpdateLibro | Kilwinning/Services/LibraryService.swift:76-81 | the first book with the same id is replaced; nothing else changes |
| LiveLibrary.LibraryService.DeleteLibro | Kilwinning/Services/LibraryService.swift:84-87 | every book with the id is removed |
| LiveLibrary.LibraryService.RichiediPrestito | Kilwinning/Services/LibraryService.swift:92-132 | on an error, including a refused server call, nothing changes and the error is returned; otherwise the lists become those of the request in the current mode |
| LiveLibrary.LibraryService.RestituisciLibro | Kilwinning/Services/LibraryService.swift:135-164 | on an error nothing changes; otherwise the loan is closed now and its book available |
| Biblioteca.FetchParams | Kilwinning/Services/BibliotecaService.swift:44-57 | no query is sent if and only if no category, no state and no non-empty search is given; otherwise exactly the given keys, with the category, the state's raw value and the search |
| Biblioteca.ConvertAll | Kilwinning/Services/BibliotecaService.swift:60 | one converted book per book answered, in order |
| Biblioteca.ParseLibroStato | Kilwinning/Services/BibliotecaService.swift:452-461 | the lower-cased server state "in prestito" reads as lent and "prenotato" as reserved, and only those; anything else reads as available |
| Biblioteca.LibroStatoRoundTrip | Kilwinning/Models/Libro.swift:4-8 | every state's raw value reads back as the same state |
| Biblioteca.ConvertToLibro | Kilwinning/Services/BibliotecaService.swift:450-481 | the mapped state, the favourite flag set exactly when the id is among the favourites, and the fields copied |
| Biblioteca.ParsePrestitoStato | Kilwinning/Services/BibliotecaService.swift:497-508 | "attivo", "concluso" and "scaduto" read as their states, and only those; anything else reads as requested |
| Biblioteca.PrestitoStatoRoundTrip | Kilwinning/Models/Prestito.swift:4-9 | every loan state's raw value reads back as the same state |
| Biblioteca.ConvertToPrestito | Kilwinning/Services/BibliotecaService.swift:495-522 | the mapped state, and the ids and dates copied |
| Biblioteca.ConvertPrestiti | Kilwinning/Services/BibliotecaService.swift:186 | one loan per answered loan, in order, each its conversion |
| Biblioteca.Toggle | Kilwinning/Services/BibliotecaService.swift:404-408 | the id's membership flips and no other id's changes |
| Biblioteca.ToggleTwice | Kilwinning/Services/BibliotecaService.swift:404-408 | toggling twice restores the favourites |
| Biblioteca.Favourites | Kilwinning/Services/BibliotecaService.swift:417-421 | exactly the books whose id is a favourite |
| Biblioteca.FavouritesKeepOrder | Kilwinning/Services/BibliotecaService.swift:417-421 | the favourites keep the books' order |
| Biblioteca.CategorieSorted | Kilwinning/Services/BibliotecaService.swift:143 | the categories answered, all of them (a permutation), by ascending order number |
| Biblioteca.FirstOr | Kilwinning/Services/BibliotecaService.swift:411-412 | the first book satisfying the condition, when there is one |
| Biblioteca.ToggleMarksBook | Kilwinning/Services/BibliotecaService.swift:410-413 | the first book with the id records its new membership and no other book changes |
| Biblioteca.BibliotecaService.constructor | Kilwinning/Services/BibliotecaService.swift:9-28 | empty lists and favourites, not loading, no error, no brother signed in |
| Biblioteca.BibliotecaService.SetCurrentFratello | Kilwinning/Services/BibliotecaService.swift:32-34 | the brother is set and nothing else changes |
| Biblioteca.BibliotecaService.FetchLibri | Kilwinning/Services/BibliotecaService.swift:39-67 | loading is off afterwards; an answer replaces the books by their conversion and clears the error; a failure keeps the books and records the error's message |
| Biblioteca.BibliotecaService.SearchLibri | Kilwinning/Services/BibliotecaService.swift:80-90 | an empty query returns every book; otherwise exactly the books whose title, author or category contains the lower-cased query |
| Biblioteca.BibliotecaService.EliminaLibro | Kilwinning/Services/BibliotecaService.swift:125-133 | once the server confirms, every book with the id is removed; a refused call changes nothing and fails |
| Biblioteca.BibliotecaService.FetchCategorie | Kilwinning/Services/BibliotecaService.swift:138-148 | an answer replaces the categories, sorted by order number; a failure keeps them and records the error |
| Biblioteca.BibliotecaService.EliminaCategoria | Kilwinning/Services/BibliotecaService.swift:160-166 | once the server confirms, every category with the id is removed; a refused call changes nothing |
| Biblioteca.BibliotecaService.EliminaLista | Kilwinning/Services/BibliotecaService.swift:365-372 | once the server confirms, every reading list with the id is removed; a refused call changes nothing |
| Biblioteca.BibliotecaService.FetchMieiPrestiti | Kilwinning/Services/BibliotecaService.swift:171-194 | without a signed-in brother nothing changes; otherwise loading is off afterwards, an answer replaces the loans by their conversion and clears the error, and a failure keeps the loans and records the error's message |
| Biblioteca.BibliotecaService.RichiediPrestito | Kilwinning/Services/BibliotecaService.swift:196-210 | without a signed-in brother the request fails as not authenticated before any call; otherwise it succeeds exactly when the server accepts; a failure changes nothing; a success refreshes the loans and then the books from the two answers that follow, as the two fetches would store them |
| Biblioteca.BibliotecaService.TogglePreferito | Kilwinning/Services/BibliotecaService.swift:396-414 | once the server confirms, the favourites are toggled and the first book with the id records the new membership; a refused call changes nothing |
| Notifications.MakeNotifica | Kilwinning/Models/Notification.swift:50-64 | the initialiser keeps every given field, the caller supplying the creation time |
| Notifications.InitDefaults | Kilwinning/Models/Notification.swift:55-56 | unless told otherwise a notification is unread and refers to nothing |
| Notifications.RelativeTimeBuckets | Kilwinning/Models/Notification.swift:32-48 | under a minute reads "Ora"; otherwise the whole number of minutes (1 to 59), hours (1 to 23) or days (at least 1) elapsed, truncated, with its unit |
| Notifications.NotificaIds | KilwinningApp/Sources/KilwinningApp/Services/NotificationService.swift:92 | the ids of the notifications, in order |
| Notifications.MarkFirstRead | KilwinningApp/Sources/KilwinningApp/Services/NotificationService.swift:66-68 | the first notification with the id becomes read and nothing else changes; without one nothing changes |
| Notifications.MarkFirstReadCount | KilwinningApp/Sources/KilwinningApp/Services/NotificationService.swift:64-70 | marking one read lowers the unread count by one exactly when that notification was unread |
| Notifications.NewNotifica | KilwinningApp/Sources/KilwinningApp/Services/NotificationService.swift:91-100 | the new notification's id is one no notification has (1 for the first), and it is unread and created now |
| Notifications.NotificationService.constructor | KilwinningApp/Sources/KilwinningApp/Services/NotificationService.swift:208-228 | the sample data: two notifications, a tornata and a book, one of them unread |
| Notifications.NotificationService.CalculateNonLette | KilwinningApp/Sources/KilwinningApp/Services/NotificationService.swift:202-204 | the counter becomes the number of unread notifications |
| Notifications.NotificationService.FetchNotificheNonLette | KilwinningApp/Sources/KilwinningApp/Services/NotificationService.swift:47-49 | exactly the unread notifications, in order |
| Notifications.NotificationService.UnreadListMatchesCounter | KilwinningApp/Sources/KilwinningApp/Services/NotificationService.swift:47-49 | the counter is the length of the unread list |
| Notifications.NotificationService.AddNotifica | KilwinningApp/Sources/KilwinningApp/Services/NotificationService.swift:54-61 | the notification goes first, the others keep their order, and the counter grows by one for an unread notification |
| Notifications.NotificationService.SegnaComeLetta | KilwinningApp/Sources/KilwinningApp/Services/NotificationService.swift:64-70 | the first notification with the id becomes read and the counter stays exact |
| Notifications.NotificationService.SegnaTutteComeLette | KilwinningApp/Sources/KilwinningApp/Services/NotificationService.swift:73-79 | every notification becomes read, in the same order, and the counter is zero |
| Notifications.NotificationService.EliminaNotifica | KilwinningApp/Sources/KilwinningApp/Services/NotificationService.swift:82-86 | every notification with the id is removed and the counter stays exact |
| Notifications.NotificationService.NotificaNuovaTornata | KilwinningApp/Sources/KilwinningApp/Services/NotificationService.swift:91-102 | a new unread tornata notification with a fresh id and the tornata and date as message goes first |
| Notifications.NotificationService.NotificaNuovaDiscussione | KilwinningApp/Sources/KilwinningApp/Services/NotificationService.swift:105-116 | a new audio-discussion notification with a fresh id goes first |
| Notifications.NotificationService.NotificaNuovaTavola | KilwinningApp/Sources/KilwinningApp/Services/NotificationService.swift:119-130 | a new tavola notification with a fresh id goes first |
| Notifications.NotificationService.NotificaNuovoLibro | KilwinningApp/Sources/KilwinningApp/Services/NotificationService.swift:133-144 | a new book notification with a fresh id goes first |
| Notifications.NotificationService.NotificaLibroRestituito | KilwinningApp/Sources/KilwinningApp/Services/NotificationService.swift:147-158 | a returned-book notification with a fresh id goes first |
| Notifications.NotificationService.NotificaNuovoMessaggio | KilwinningApp/Sources/KilwinningApp/Services/NotificationService.swift:161-172 | a new-message notification with a fresh id goes first |
| Chat.MessageIds | KilwinningApp/Sources/KilwinningApp/Services/ChatService.swift:58 | the ids of the messages, in order |
| Chat.MessagesOfSpec | KilwinningApp/Sources/KilwinningApp/Services/ChatService.swift:25-29 | a chat's messages are exactly its stored messages, each as often as stored (a permutation of the filter), by ascending time |
| Chat.UnreadSumNonNegative | KilwinningApp/Sources/KilwinningApp/Services/ChatService.swift:32-35 | the unread total is never negative and is at least every room's count |
| Chat.UnreadSumUpdate | KilwinningApp/Sources/KilwinningApp/Services/ChatService.swift:32-35 | changing one room changes the total by the difference of its counts |
| Chat.MarkMessageRead | KilwinningApp/Sources/KilwinningApp/Services/ChatService.swift:78-84 | the first message with the id becomes read and nothing else changes; without one nothing changes |
| Chat.MarkChatRead | KilwinningApp/Sources/KilwinningApp/Services/ChatService.swift:88-92 | every message of the chat becomes read and the other chats' messages are untouched |
| Chat.MarkChatReadIdempotent | KilwinningApp/Sources/KilwinningApp/Services/ChatService.swift:88-92 | reading a chat twice is reading it once, and no message of the chat stays unread |
| Chat.ResetUnread | KilwinningApp/Sources/KilwinningApp/Services/ChatService.swift:95-97 | only the chat's first room changes: its unread count becomes zero |
| Chat.ResetUnreadSum | KilwinningApp/Sources/KilwinningApp/Services/ChatService.swift:86-98 | reading a chat takes exactly its room's unread count off the total |
| Chat.TouchRoom | KilwinningApp/Sources/KilwinningApp/Services/ChatService.swift:71-74 | only the chat's first room changes: it shows the text as last message, at the time sent |
| Chat.NewMessage | KilwinningApp/Sources/KilwinningApp/Services/ChatService.swift:58-66 | the new message's id is one no message has (1 for the first), from the sender, sent now |
| AppChat.ChatService.constructor | KilwinningApp/Sources/KilwinningApp/Services/ChatService.swift:12-14 | the sample rooms and messages, with two unread in all |
| AppChat.ChatService.CreateChatRoom | KilwinningApp/Sources/KilwinningApp/Services/ChatService.swift:40-43 | the room is appended and the messages are unchanged |
| AppChat.ChatService.UpdateChatRoom | KilwinningApp/Sources/KilwinningApp/Services/ChatService.swift:46-51 | the first room with the same id is replaced; nothing else changes |
| AppChat.ChatService.InviaMessaggio | KilwinningApp/Sources/KilwinningApp/Services/ChatService.swift:56-75 | one new message with a fresh id is appended, and the chat's first room shows it |
| AppChat.ChatService.SegnaComeLetto | KilwinningApp/Sources/KilwinningApp/Services/ChatService.swift:78-84 | the first message with the id becomes read |
| AppChat.ChatService.SegnaTuttiComeLetti | KilwinningApp/Sources/KilwinningApp/Services/ChatService.swift:86-98 | the chat's messages become read, the others are untouched, and the chat's room has no unread messages |
| LiveChat.ConvertToChatRoom | Kilwinning/Services/ChatService.swift:206-228 | a room converts if and only if its creation date parses; it is a group room with nothing unread, an empty last message when none is given, updated at the last message's date when that parses and at the creation date otherwise |
| LiveChat.ConvertToMessaggioChat | Kilwinning/Services/ChatService.swift:231-253 | a message converts if and only if its date parses; it is read exactly when the server flag is 1, received otherwise, never merely sent |
| LiveChat.ConvertRooms | Kilwinning/Services/ChatService.swift:28 | one room per answered room whose date parses, in the answer's order, each the conversion of that answered room |
| LiveChat.ConvertRoomsMembers | Kilwinning/Services/ChatService.swift:28 | no more rooms than answered; a room is in the result exactly when some answered room converts to it |
| LiveChat.ConvertMessages | Kilwinning/Services/ChatService.swift:45 | one message per answered message whose date parses, in the answer's order, each the conversion of that answered message with the placeholder sender for its position |
| LiveChat.ConvertMessagesMembers | Kilwinning/Services/ChatService.swift:45 | no more messages than answered; a message is in the result exactly when some answered message converts to it |
| LiveChat.ReplaceChatKeepsOthers | Kilwinning/Services/ChatService.swift:48-49 | refreshing one chat keeps another chat's cached messages, plus any of its messages the answer contained |
| LiveChat.ReplaceChatReplaces | Kilwinning/Services/ChatService.swift:48-49 | after a refresh the chat's cached messages are exactly the fetched messages of that chat |
| LiveChat.ChatService.constructor | Kilwinning/Services/ChatService.swift:15-21 | starts in live mode with the sample rooms and messages |
| LiveChat.ChatService.FetchChatRooms | Kilwinning/Services/ChatService.swift:25-35 | an answer replaces the rooms with those that convert and turns live mode on; a failure keeps the rooms and turns mock mode on |
| LiveChat.ChatService.FetchMessaggi | Kilwinning/Services/ChatService.swift:38-56 | in mock mode or on a failed call, the chat's cached messages by time; otherwise the cache of the chat is replaced by the answer and the answer is returned by time |
| LiveChat.ChatService.CreateChatRoom | Kilwinning/Services/ChatService.swift:67-70 | the room is appended and the messages are unchanged |
| LiveChat.ChatService.UpdateChatRoom | Kilwinning/Services/ChatService.swift:73-79 | the first room with the same id is replaced |
| LiveChat.ChatService.InviaMessaggio | Kilwinning/Services/ChatService.swift:83-126 | in mock mode a new message is appended and the room updated; in live mode a failed send appends the message locally with no room change; a sent message refreshes the chat's cache |
| LiveChat.ChatService.SegnaComeLetto | Kilwinning/Services/ChatService.swift:129-134 | the first message with the id becomes read |
| LiveChat.ChatService.SegnaTuttiComeLetti | Kilwinning/Services/ChatService.swift:137-149 | the chat's messages become read and its room has no unread messages |
| Presences.MakePresence | Kilwinning/Models/Presence.swift:20-34 | the backend id defaults to the brother's id and the flag to "status is Presente"; everything else kept |
| Presences.InitDefaults | Kilwinning/Models/Presence.swift:20-34 | a record built from its two ids is unconfirmed, absent by its flag, and carries the brother's id twice |
| Presences.MakePresenceConsistent | Kilwinning/Models/Presence.swift:31 | a record built without an explicit flag has its flag in step with its status |
| Presences.StatusOf | Kilwinning/Repositories/MockPresenzeRepository.swift:49-53 | the status of the first record of the pair, or "Non Confermato" when there is none |
| Presences.PresenzeOf | Kilwinning/Repositories/MockPresenzeRepository.swift:20-25 | exactly the brother's records, in stored order |
| Presences.UpsertAsWrittenSpec | Kilwinning/Repositories/MockPresenzeRepository.swift:27-47 | after the upsert as written the pair answers the new status; an existing pair's first record gets the status and time and keeps its flag, and no other record changes; a new pair appends exactly one fresh record |
| Presences.UpsertAsWrittenOthers | Kilwinning/Repositories/MockPresenzeRepository.swift:27-47 | the upsert as written does not change the answer for any other pair |
| Presences.UpsertRepairsFlag | Kilwinning/Repositories/MockPresenzeRepository.swift:33-37 | the corrected upsert differs from the one as written only in flags it sets from the status, and gives every pair the same answer |
| Presences.UpsertConsistent | Kilwinning/Repositories/MockPresenzeRepository.swift:27-47 | the corrected upsert keeps every record's flag in step with its status |
| Presences.UpsertAsWrittenStaleFlag | Kilwinning/Repositories/MockPresenzeRepository.swift:33-37 | as written, marking a brother present then absent leaves a record whose flag still says present |
| Presences.MakeStatistics | Kilwinning/Models/Presence.swift:65-84 | each compatibility name defaults to its counterpart; the percentage is the given one, or computed from presences and total; the computation needs a non-zero total |
| Presences.StatisticsDefaults | Kilwinning/Models/Presence.swift:74-81 | with only the required counts given, both names of each count agree |
| KilwinningPresenze.MockPresenzeRepository.constructor | Kilwinning/Repositories/MockPresenzeRepository.swift:9-11 | the store starts empty |
| KilwinningPresenze.MockPresenzeRepository.UpdatePresence | Kilwinning/Repositories/MockPresenzeRepository.swift:27-47 | the store becomes the upsert as written of the old store, an existing record keeping its flag; the pair answers the new status; the store grows by one only for a new pair; every other pair answers as before |
| AppPresenze.MockPresenzeRepository.constructor | KilwinningApp/Sources/KilwinningApp/Repositories/MockPresenzeRepository.swift:9-11 | the store starts empty |
| AppPresenze.MockPresenzeRepository.UpdatePresence | KilwinningApp/Sources/KilwinningApp/Repositories/MockPresenzeRepository.swift:23-40 | the store becomes the upsert as written of the old store, an existing record keeping its flag; the pair answers the new status; the store grows by one only for a new pair |
| PresenceCalculator.TornataIds | Kilwinning/Utilities/PresenceCalculator.swift:10 | the meeting ids of the records, in order |
| PresenceCalculator.PresenceDict | Kilwinning/Utilities/PresenceCalculator.swift:10 | the lookup holds exactly the records' meeting ids, each mapped to its record; the initialiser needs the ids distinct |
| PresenceCalculator.LeadingPresentSpec | Kilwinning/Utilities/PresenceCalculator.swift:16-28 | the count is at most the number of meetings; every counted meeting has a record marked present, and the first one not counted does not |
| PresenceCalculator.LeadingPresentUnique | Kilwinning/Utilities/PresenceCalculator.swift:16-28 | any count with that property is the count |
| PresenceCalculator.CalculateConsecutive | Kilwinning/Utilities/PresenceCalculator.swift:8-29 | the loop over the meetings, newest first, returns the number of leading meetings with a present record, never more than the meetings |
| PresenceCalculator.FilterByInitiation | Kilwinning/Utilities/PresenceCalculator.swift:33-42 | no initiation date keeps every meeting; otherwise exactly the meetings on or after it, in order |
| PresenceCalculator.CalculateStatisticsAsWritten | Kilwinning/Utilities/PresenceCalculator.swift:45-74 | as written, there is a result if and only if some meeting follows the initiation |
| PresenceCalculator.StatisticsAsWrittenTrapsWithoutMeetings | Kilwinning/Utilities/PresenceCalculator.swift:65-73 | as written, an empty calendar has no result: the initialiser divides by a zero total |
| PresenceCalculator.CalculateStatisticsSpec | Kilwinning/Utilities/PresenceCalculator.swift:45-74 | the totals count the valid meetings, the presences count present records, absences are the difference, the percentage is zero without meetings, and the record equals the leading streak; whenever the code as written has a result it is this one |
| PresenceCalculator.FilterPresencesByYear | Kilwinning/Utilities/PresenceCalculator.swift:77-101 | "tutti" or a non-number keeps everything; otherwise exactly the meetings of that year and the records of those meetings, in order |
| PresenceCalculator.DedupAdjacent | Kilwinning/Utilities/PresenceCalculator.swift:110 | repeats removed, every year kept |
| PresenceCalculator.DedupAdjacentDecreasing | Kilwinning/Utilities/PresenceCalculator.swift:110 | a non-increasing list without adjacent repeats is strictly decreasing |
| PresenceCalculator.YearsDescending | Kilwinning/Utilities/PresenceCalculator.swift:104-111 | exactly the years of the meetings, strictly decreasing, so each once |
| PresenceCalculator.GetAvailableYears | Kilwinning/Utilities/PresenceCalculator.swift:104-111 | the distinct years written out, newest first |
| PresenceCalculator.IsAdminExact | Kilwinning/Utilities/PresenceCalculator.swift:115-118 | exactly the two names are administrators; the comparison is exact in case and spacing |
| PresenceCalculator.GetDegreeIcon | Kilwinning/Utilities/PresenceCalculator.swift:121-132 | one of the four icons |
| PresenceCalculator.DegreeIconCases | Kilwinning/Utilities/PresenceCalculator.swift:121-132 | the icon ignores letter case, and the default icon is given exactly to the texts that are none of the six degree names |
| PresenceCalculator.GetPercentageColor | Kilwinning/Utilities/PresenceCalculator.swift:135-144 | green exactly for 90 to 100, orange exactly for 70 to 89, red for everything else |
| PresenceCalculator.GetStatoBadgeColor | Kilwinning/Utilities/PresenceCalculator.swift:147-158 | one of the four colours |
| PresenceCalculator.StatoBadgeColorCases | Kilwinning/Utilities/PresenceCalculator.swift:147-158 | the colour ignores letter case, and gray is given exactly to the states that are none of the three names |
| AppData.StreakStep | KilwinningApp/Sources/KilwinningApp/Services/DataService.swift:88-96 | one more answer extends the counter on a presence, resets it on an absence and keeps it on an unconfirmed answer; the maximum follows the counter |
| AppData.StreakIsSuffix | KilwinningApp/Sources/KilwinningApp/Services/DataService.swift:88-96 | the counter is the number of presences of a stretch that reaches the end and holds no absence |
| AppData.StreakBound | KilwinningApp/Sources/KilwinningApp/Services/DataService.swift:88-96 | no stretch reaching the end without an absence has more presences than the counter |
| AppData.LongestCoversPrefixes | KilwinningApp/Sources/KilwinningApp/Services/DataService.swift:88-96 | the maximum is at least the counter after any prefix of the answers |
| AppData.LongestAttained | KilwinningApp/Sources/KilwinningApp/Services/DataService.swift:88-96 | some stretch without an absence has exactly the maximum's presences |
| AppData.LongestStreakSpec | KilwinningApp/Sources/KilwinningApp/Services/DataService.swift:83-99 | the result is the largest number of presences of any stretch of meetings without an absence, it is attained, and it is at most the number of meetings |
| AppData.Statuses | KilwinningApp/Sources/KilwinningApp/Services/DataService.swift:88-89 | the brother's answer for each meeting, in order |
| AppData.YearPresences | KilwinningApp/Sources/KilwinningApp/Services/DataService.swift:62-65 | exactly the brother's records on the year's meetings |
| AppData.DataService.constructor | KilwinningApp/Sources/KilwinningApp/Services/DataService.swift:125-171 | the three sample meetings, the last a ceremony, all at home without dinner; no presences |
| AppData.DataService.CreateTornata | KilwinningApp/Sources/KilwinningApp/Services/DataService.swift:25-28 | the meetings become the old ones plus the new one, newest first |
| AppData.DataService.UpdateTornata | KilwinningApp/Sources/KilwinningApp/Services/DataService.swift:30-34 | the first meeting with the same id is replaced; nothing else changes |
| AppData.DataService.DeleteTornata | KilwinningApp/Sources/KilwinningApp/Services/DataService.swift:36-38 | every meeting with the id is removed |
| AppData.DataService.UpdatePresence | KilwinningApp/Sources/KilwinningApp/Services/DataService.swift:42-52 | the records become the upsert as written of the old ones, an existing record keeping its flag; the pair answers the new status; meetings and papers are unchanged |
| AppData.DataService.CalculateConsecutivePresences | KilwinningApp/Sources/KilwinningApp/Services/DataService.swift:83-99 | the loop over the meetings, oldest first, returns the longest run of the brother's presences not broken by an absence, at most the number of meetings |
| AppData.DataService.CalculateStatistics | KilwinningApp/Sources/KilwinningApp/Services/DataService.swift:58-81 | the year's meetings are counted, the brother's present and absent answers on them counted, and the record is the longest run over every year |
| AppData.DataService.CreateTavola | KilwinningApp/Sources/KilwinningApp/Services/DataService.swift:107-109 | the paper is appended and nothing else changes |
| AppData.DataService.UpdateTavola | KilwinningApp/Sources/KilwinningApp/Services/DataService.swift:111-115 | the first paper with the same id is replaced |
| Tornate.MakeTornata | Kilwinning/Models/Tornata.swift:45-61 | the initialiser keeps every given field, at home, without dinner and without notes unless told otherwise |
| Tornate.AddByDateSpec | Kilwinning/Repositories/MockTornateRepository.swift:28-34 | adding a meeting keeps every meeting, adds exactly the new one (a permutation of the old list plus the meeting) and leaves the newest first |
| Tornate.MakeTavola | KilwinningApp/Sources/KilwinningApp/Models/Tavola.swift:28-42 | a paper is in preparation, without date and without text unless told otherwise |
| Tornate.TavoleOf | KilwinningApp/Sources/KilwinningApp/Services/DataService.swift:103-105 | exactly the brother's papers, in stored order |
| MockTornate.MockTornateRepository.constructor | Kilwinning/Repositories/MockTornateRepository.swift:9-11 | the three sample meetings, the last a ceremony, all at home |
| MockTornate.MockTornateRepository.FetchTornata | Kilwinning/Repositories/MockTornateRepository.swift:21-26 | the first meeting with the id, and none exactly when no meeting has it |
| MockTornate.MockTornateRepository.CreateTornata | Kilwinning/Repositories/MockTornateRepository.swift:28-34 | the meetings become the old ones plus the new one, newest first |
| MockTornate.MockTornateRepository.UpdateTornata | Kilwinning/Repositories/MockTornateRepository.swift:36-43 | the first meeting with the same id is replaced; nothing changes when there is none |
| MockTornate.MockTornateRepository.DeleteTornata | Kilwinning/Repositories/MockTornateRepository.swift:45-50 | every meeting with the id is removed |
| RemoteTornate.TipoFrom | KilwinningApp/Sources/KilwinningApp/Repositories/RemoteTornateRepository.swift:52-60 | a ceremony exactly when the lower-cased type is "cerimonia"; anything else is an ordinary meeting |
| RemoteTornate.TipoRoundTrip | Kilwinning/Models/Tornata.swift:4-7 | both raw values of the type read back as themselves, in any letter case |
| RemoteTornate.LocationFrom | KilwinningApp/Sources/KilwinningApp/Repositories/RemoteTornateRepository.swift:62-68 | at home exactly when the lower-cased place contains "tolfa" or "tofa" |
| RemoteTornate.LocationHome | Kilwinning/Models/Tornata.swift:10-13 | the home place's own name reads back as home |
| RemoteTornate.LocationVisit | Kilwinning/Models/Tornata.swift:10-13 | the visiting place's own name reads back as a visit |
| RemoteTornate.ConvertToTornata | KilwinningApp/Sources/KilwinningApp/Repositories/RemoteTornateRepository.swift:43-79 | a row converts if and only if its date parses; the title, date, mapped type and place, presenter (empty when absent), dinner exactly when the flag is 1, and notes; a fresh id |
| RemoteTornate.ConvertAll | KilwinningApp/Sources/KilwinningApp/Repositories/RemoteTornateRepository.swift:16 | one meeting per row whose date parses, in the answer's order, each the conversion of that row with the identifier for its position |
| RemoteTornate.ConvertAllMembers | KilwinningApp/Sources/KilwinningApp/Repositories/RemoteTornateRepository.swift:16 | no more meetings than rows; a meeting is in the result exactly when some row converts to it |
| RemoteTornate.FetchTornate | KilwinningApp/Sources/KilwinningApp/Repositories/RemoteTornateRepository.swift:14-17 | a failed call is passed on; otherwise the converted rows |
| RemoteTornate.FetchTornata | KilwinningApp/Sources/KilwinningApp/Repositories/RemoteTornateRepository.swift:19-24 | fails exactly when the fetch fails; a meeting found has the id asked for |
| RemoteTornate.FetchTornataFreshIds | KilwinningApp/Sources/KilwinningApp/Repositories/RemoteTornateRepository.swift:19-24 | since every converted meeting gets a fresh id, a lookup by an id the server sent finds nothing |
| RemoteTornate.WritesNotImplemented | KilwinningApp/Sources/KilwinningApp/Repositories/RemoteTornateRepository.swift:26-39 | creating, updating and deleting all fail with HTTP status 501 |
| AppAudio.MakeDiscussione | Kilwinning/Models/AudioDiscussione.swift:21-35 | a talk has no duration and is uploaded now unless told otherwise; every other field is kept |
| AppAudio.AddByUploadSpec | KilwinningApp/Sources/KilwinningApp/Services/AudioService.swift:33-37 | adding a talk keeps every talk, adds exactly the new one (a permutation of the old list plus the talk) and leaves the newest upload first |
| AppAudio.DiscussioniOf | KilwinningApp/Sources/KilwinningApp/Services/AudioService.swift:18-22 | exactly the meeting's talks, in stored order |
| AppAudio.AudioService.constructor | KilwinningApp/Sources/KilwinningApp/Services/AudioService.swift:55-58 | the list starts empty |
| AppAudio.AudioService.AddDiscussione | KilwinningApp/Sources/KilwinningApp/Services/AudioService.swift:33-37 | the talks become the old ones plus the new one, newest upload first |
| AppAudio.AudioService.UpdateDiscussione | KilwinningApp/Sources/KilwinningApp/Services/AudioService.swift:40-45 | the first talk with the same id is replaced; nothing changes when there is none |
| AppAudio.AudioService.DeleteDiscussione | KilwinningApp/Sources/KilwinningApp/Services/AudioService.swift:48-51 | every talk with the id is removed |
| Brothers.Brother.FullName | Kilwinning/Models/Brother.swift:42-44 | the first name, one space, the last name |
| Brothers.Brother.DisplayRole | Kilwinning/Models/Brother.swift:46-51 | the office, or the degree when there is none, then a dash and the full name |
| Brothers.MakeBrother | Kilwinning/Models/Brother.swift:53-81 | the display name defaults to the full name, the degree text to the degree's raw value, and the registration date to now; everything else kept |
| Brothers.DefaultsDisplayDegree | Kilwinning/Models/Brother.swift:46-81 | a brother built from names and degree alone holds no office and is no administrator, so the degree heads the display name |
| Recensioni.ClampVoto | Kilwinning/Models/Recensione.swift:49 | the vote is clamped to 1..5: kept inside, 1 below, 5 above |
| Recensioni.MakeRecensione | Kilwinning/Models/Recensione.swift:37-53 | the vote clamped, created now unless told otherwise, every other field kept |
| Recensioni.ClampIdempotent | Kilwinning/Models/Recensione.swift:49 | clamping twice is clamping once |
| Recensioni.StelleText | Kilwinning/Models/Recensione.swift:33-35 | as many stars as the vote |
| Recensioni.StarsOfNewReview | Kilwinning/Models/Recensione.swift:33-53 | a review built by the initialiser shows between one and five stars, as many as its clamped vote |
| PrestitoModel.MakePrestito | Kilwinning/Models/Prestito.swift:97-117 | a loan is requested, without dates, unless told otherwise |
| PrestitoModel.InitDefaults | Kilwinning/Models/Prestito.swift:97-117 | a loan built from its ids alone is requested and has no dates |
| PrestitoModel.GiorniRimanenti | Kilwinning/Models/Prestito.swift:81-85 | the days left exist exactly for an active loan with a due date, and are the days from now to it |
| PrestitoModel.FlagsSpec | Kilwinning/Models/Prestito.swift:87-95 | "in scadenza" exactly when an active loan is due within 0 to 3 days, "scaduto" exactly when it is overdue; never both |
| PrestitoModel.NoDaysNoFlags | Kilwinning/Models/Prestito.swift:87-95 | without a days-left count neither warning is raised |
| PrestitoModel.FormattedDataInizio | Kilwinning/Models/Prestito.swift:57-63 | a fixed "not yet started" text without a start date, the formatted date otherwise |
| PrestitoModel.FormattedDataFine | Kilwinning/Models/Prestito.swift:65-71 | no text exactly when the loan has not ended |
| PrestitoModel.FormattedDataScadenza | Kilwinning/Models/Prestito.swift:73-79 | no text exactly when there is no due date |
| KilwinningAuth.LoginBrotherSpec | Kilwinning/Services/AuthenticationService.swift:31-77 | exactly two accounts sign in: "prova"/"prova123" as a master mason without admin rights and "admin"/"admin123" as the admin Venerable Master; every other pair is refused |
| KilwinningAuth.LoginCaseRules | Kilwinning/Services/AuthenticationService.swift:34-48 | the user name is compared after lowercasing, the password exactly |
| KilwinningAuth.AuthenticationService.constructor | Kilwinning/Services/AuthenticationService.swift:16-19 | a saved brother is signed in again; nobody is signed in without one; loading is off and there is no message |
| KilwinningAuth.AuthenticationService.Login | Kilwinning/Services/AuthenticationService.swift:22-80 | login succeeds exactly for the two accounts and signs that brother in; a failure is invalidCredentials, leaves loading on and the previous session as it was |
| KilwinningAuth.AuthenticationService.CreateUser | Kilwinning/Services/AuthenticationService.swift:83-107 | refused with unauthorized exactly when the signed-in user is not an admin, and then nothing changes; otherwise loading ends with no message; the session never changes |
| KilwinningAuth.AuthenticationService.Logout | Kilwinning/Services/AuthenticationService.swift:110-114 | nobody is signed in afterwards; loading and message are untouched |
| AppAuth.RegisteredBrother | KilwinningApp/Sources/KilwinningApp/Services/AuthenticationService.swift:58-63 | a registered user is an apprentice with no office and no admin rights, with the given names and e-mail |
| AppAuth.DemoCredentialsCase | KilwinningApp/Sources/KilwinningApp/Services/AuthenticationService.swift:30 | the demo e-mail is compared after lowercasing, the password exactly |
| AppAuth.AuthenticationService.constructor | KilwinningApp/Sources/KilwinningApp/Services/AuthenticationService.swift:15-18 | a saved brother is signed in again; loading is off and there is no message |
| AppAuth.AuthenticationService.Login | KilwinningApp/Sources/KilwinningApp/Services/AuthenticationService.swift:21-47 | only the demo credentials sign in, as an admin brother with the given e-mail; a failure is invalidCredentials, leaves loading on and the previous session as it was |
| AppAuth.AuthenticationService.Register | KilwinningApp/Sources/KilwinningApp/Services/AuthenticationService.swift:50-70 | any data signs in the new apprentice; loading ends with no message |
| AppAuth.AuthenticationService.Logout | KilwinningApp/Sources/KilwinningApp/Services/AuthenticationService.swift:73-77 | nobody is signed in afterwards; loading and message are untouched |
| AppAuth.AuthenticationService.ResetPassword | KilwinningApp/Sources/KilwinningApp/Services/AuthenticationService.swift:80-90 | only loading and the message change; the session is kept |
| EnvLoader.Unquote | api/load_env.php:45-48 | a value that starts and ends with the same quote (single or double) loses both; a lone quote becomes empty; any other value is kept |
| EnvLoader.UnquoteMismatched | api/load_env.php:45-48 | quotes that do not match are kept; matching single quotes are stripped |
| EnvLoader.FirstEquals | api/load_env.php:33-34 | a line has a separator exactly when it holds `=`, and the split is at the first `=` |
| EnvLoader.ParseLineSpec | api/load_env.php:26-48 | a line sets a variable exactly when it is no comment, holds `=`, and the trimmed text before its first `=` is a valid key; then the key is that text and the value is the trimmed, unquoted rest, further `=` included |
| EnvLoader.ValidKeyTrimmed | api/load_env.php:35-42 | a key that passes the key pattern has no surrounding blanks |
| EnvLoader.KeyLineShape | api/load_env.php:28-34 | a line that starts with a valid key is no comment and splits right after the key |
| EnvLoader.EntryRoundTrip | api/load_env.php:33-48 | a line written as key, `=`, value reads back as that key and the trimmed, unquoted value |
| EnvLoader.Parsed | api/load_env.php:26-34 | one entry per line, in file order |
| EnvLoader.UnsetEntryKept | api/load_env.php:26-55 | a key no entry sets keeps its earlier value, or stays absent |
| EnvLoader.LastEntryWins | api/load_env.php:51-53 | the last entry that sets a key gives its value |
| EnvLoader.UnsetKeyKept | api/load_env.php:26-55 | a key no line of the file sets keeps its earlier value, or stays absent |
| EnvLoader.LastLineWins | api/load_env.php:26-55 | when a key repeats, the value of the last line that sets it is the one left |
| EnvLoader.EntryKeys | api/load_env.php:39-53 | no key is removed, and every key added passed the key check |
| EnvLoader.ApplyLinesKeys | api/load_env.php:26-55 | loading never removes a variable, and every variable it adds has a valid name |
| EnvLoader.SiblingDirectoryPasses | api/load_env.php:11-15 | the prefix test lets "/srv/api-old/.env" through for the directory "/srv/api"; the corrected check refuses it |
| EnvLoader.PathAllowedWithin | api/load_env.php:11-18 | every path the corrected check allows is allowed as written too, and lies inside the directory (the next character is `/`) rather than beside it |
| EnvLoader.Environment.constructor | api/load_env.php:51-53 | the environment starts as the given variables |
| EnvLoader.Environment.LoadEnv | api/load_env.php:9-58 | the result is true exactly when the file's real path starts with the directory's path, as written (so a sibling directory such as `/srv/api-old` passes), and the file exists; then the variables become the old ones with every line applied in order; otherwise nothing changes |
| ArchiveCodes.LeadingDigits | api/biblioteca/libri.php:140 | the longest digit run the text starts with, which is what the unsigned cast reads |
| ArchiveCodes.Numbers | api/biblioteca/libri.php:140 | exactly the numbers of the stored codes that start with "BIB" |
| ArchiveCodes.NextNumber | api/biblioteca/libri.php:140-142 | at least 1; above every stored "BIB" number; 1 when no code starts with "BIB"; otherwise one past a stored number |
| ArchiveCodes.ArchiveCode | api/biblioteca/libri.php:143 | the code starts with "BIB" and continues with the number padded with zeros to four digits |
| ArchiveCodes.NatToStringLength | api/biblioteca/libri.php:143 | a number has at most k digits exactly when it is below 10^k |
| ArchiveCodes.ArchiveCodeLength | api/biblioteca/libri.php:143 | the codes of 1 to 9999 have seven characters; larger numbers are written in full, never cut |
| ArchiveCodes.DigitsValueLeadingZeros | api/biblioteca/libri.php:140 | leading zeros do not change the number the cast reads |
| ArchiveCodes.ArchiveCodeRoundTrip | api/biblioteca/libri.php:140-143 | the number read back from a generated code is the number it was made from |
| ArchiveCodes.NewCodeIsFresh | api/biblioteca/libri.php:140-143 | the generated code is never one already stored |
| ArchiveCodes.InsertBook | api/biblioteca/libri.php:139-147 | a new book is available, keeps its given fields and gets a "BIB" code no stored book has, numbered above every stored one |

## Left out

- **Concurrency:** `async`/`await`, `Task.sleep`, `@MainActor` and the `NSLock` of the presence repository are left out. Each operation is one sequential method.
- **The network and the server:**
  - Every HTTP call is a parameter: its success, or the records it returned.
  - The PHP endpoints, SQL and PDO are left out, apart from the archive-code lines of `api/biblioteca/libri.php`.
- **Persistence:** `UserDefaults` and Keychain session storage are left out. A saved session is a constructor parameter, and saving or clearing it is not modelled.
- **Local notifications:** `UNUserNotificationCenter` (`requestAuthorization`, `mostraNotificaLocale`) is left out.
- **Floating point:** the attendance rate, percentages and `formattedAttendanceRate` are left out.
  - A percentage is an integer parameter, or a function parameter `percent` that stands for the float computation.
  - Only the integer colour thresholds of `getPercentageColor` are modelled.
- **Calendar and formatting:**
  - Dates are integer seconds. The year of a date (`yearOf`), the days between two dates (`daysBetween`), ISO 8601 parsing (`parse`) and date formatting (`format`) are function parameters.
  - Their results are not modelled.
- **Generated values:** `UUID()`, `Date()` and every generated id are parameters (`id`, `now`, `ids`, `newUuid`). The Kilwinning tree's `Brother` is built without an `id`; the model supplies one.
- **Text:** `lowercased()` is ASCII only, with no Unicode case folding or normalisation.
- **Sorting:** Swift's `sort(by:)` and `sorted(by:)` do not promise stability. The model sorts with a stable insertion sort, so elements that compare equal keep their order. Results that depend on the order of ties (such as the consecutive-attendance counts over meetings on the same date) are those of the stable order; an unstable sort may order such ties differently.
- **MD5:** `generate_uuid` uses MD5 (RFC 1321), which is a function parameter `md5` returning 32 lowercase hex digits. The digest and its collisions are not modelled.
- **Generator I/O:** the filesystem walk (`rglob`), `mkdir`, `write` and the prints of `generate_xcode_project.py` are left out. The discovered paths are the input.
  - The build-settings blocks (lines 313-469) are constant text.
  - The generator's path order is the order of Python's `Path` comparison, lexicographic over `/`-separated segments.
- **The `.env` side effects:** `realpath`, `file_exists` and `file()` are parameters of `EnvLoader.Environment.LoadEnv`. `putenv`, `$_ENV` and `$_SERVER` are one map, and `error_log` is left out.
  - PHP 8 `substr` semantics are assumed: a value that is one lone quote becomes empty.
- **Archive codes:**
  - MySQL's `LIKE 'BIB%'` is taken as a case-sensitive prefix test.
  - `CAST(... AS UNSIGNED)` is taken as the run of leading digits, without leading blanks, warnings or 64-bit overflow.
  - Only the insert branch of `api/biblioteca/libri.php` is modelled.
- **BibliotecaService server operations:** the operations that only forward a request and store the reply are not modelled. They are:
  - `fetchLibroDetail`, `aggiungiLibro`, `modificaLibro`, `aggiungiCategoria`;
  - `approvaPrestito`, `restituisciLibro`, `fetchTuttiPrestiti`, `fetchPrestitiScaduti`;
  - the review calls, `fetchListeLLettura`, `creaLista`, `aggiungiLibroALista`, `rimuoviLibroDaLista`, `fetchPreferiti`, the statistics calls and `convertToLibroDetail`/`convertToRecensione`.
- **Copied fields:** fields the services only copy through (descriptions, URLs, ISBN and the like) are left out of the records.
- **Kilwinning login:** the third branch of `login` (`Kilwinning/Services/AuthenticationService.swift:62-74`) tests the demo credentials of `AppConstants`. Those are the same "prova"/"prova123" pair as the first branch, so the branch is modelled but can never be reached.
- **DataService mock papers:** `loadMockData` builds two papers with `pdfURL:` and `idTornata:` arguments that the `Tavola` initialiser of this tree does not take. The modelled constructor starts with no papers.
- Recensioni.StelleText: requires a non-negative vote. `String(repeating:count:)` traps on a negative count, and the model has no trap to return, so a negative vote is outside its domain.
- **KilwinningApp presences:** the `Presence` type of the KilwinningApp tree is not part of this model. Its stores (`AppPresenze`, `AppData`) are given the Kilwinning tree's record, with its `presente` flag; that tree's own code reads only the status, so the stale flag is claimed as a finding for the Kilwinning tree only.
- LiveChat.ConvertToMessaggioChat: the source gives each converted message a fresh random `UUID()` as its sender, not the server's sender. The model takes that value as a parameter; `LiveChat.ConvertMessages` gives the record at position `i` the placeholder `senders(i)`, so nothing ties the senders of one batch together. Their randomness and distinctness are not modelled.
- PresenceCalculator.PresenceDict: requires the meeting ids of the presences to be distinct. `Dictionary(uniqueKeysWithValues:)` traps on a repeated key, and no caller guarantees distinct ids, since `calculateStatistics` does not filter by brother. The trap is outside the model's domain, and the members that build the dictionary inherit the requirement: `PresenceCalculator.CalculateConsecutive`, `PresenceCalculator.CalculateStatisticsAsWritten`, `PresenceCalculator.StatisticsAsWrittenTrapsWithoutMeetings`, `PresenceCalculator.CalculateStatistics` and `PresenceCalculator.CalculateStatisticsSpec`.
- **Integer width:** ids, counters and sums are unbounded integers. Swift's `Int` traps on overflow, for example in `(max ?? 0) + 1` in the id generators (`Seqs.NextId`, `Library.NewLoan`, `Notifications.NewNotifica`, `Chat.NewMessage`) and in the unread-count sums; that trap is not modelled.
- PresenceCalculator.CalculateStatistics: its `fratelloId` argument is unused, as in the source. The presences are not filtered by brother.
- **Test files:** the repository's test files are read as evidence of intended behaviour only.
- **Out-of-scope code:** the SwiftUI views, the HTTP clients and the Node backend are not part of this model.

## Findings

| source | as written | input that shows it | evidently intended | confidence | as-written member | corrected member |
|---|---|---|---|---|---|---|
| Kilwinning/Repositories/MockPresenzeRepository.swift:33-37 | updating an existing record sets its status and time, but its `presente` flag keeps its old value | mark brother 1 present at meeting 1, then absent: the record says `Assente` yet its flag still says present | the flag follows the status, as `Presence.init` makes it | not executed | Presences.UpsertAsWritten, Presences.UpsertAsWrittenStaleFlag | Presences.Upsert, Presences.UpsertConsistent, Presences.UpsertRepairsFlag |
| Kilwinning/Utilities/PresenceCalculator.swift:65-73 with Kilwinning/Models/Presence.swift:79 | the guarded percentage is computed but not passed to `PresenceStatistics`. The initialiser then converts `presences / totalTornate * 100` to `Int`, which traps when there are no valid meetings | statistics for a brother with no valid tornate (`totalTornate` = 0) | the guarded percentage (0 without meetings) is stored | not executed | PresenceCalculator.CalculateStatisticsAsWritten, PresenceCalculator.StatisticsAsWrittenTrapsWithoutMeetings | PresenceCalculator.CalculateStatistics, PresenceCalculator.CalculateStatisticsSpec |
| api/load_env.php:15 | the file must lie within the API directory, but the test is only that its real path starts with the directory's path | "/srv/api-old/.env" passes for the directory "/srv/api" | the path is the directory itself or continues with `/` after it | not executed | EnvLoader.PathAllowedAsWritten, EnvLoader.SiblingDirectoryPasses | EnvLoader.PathAllowed, EnvLoader.PathAllowedWithin |
