# CampusConnect view-model rules in Dafny

CampusConnect is an Android campus app. Its screens sit on view models that
read and write a Firestore document store. This project models the rules
those view models hold and proves properties of them:

- the cafeteria cart and the order built from it (`CafeteriaViewModel`);
- the flashcard reply parser and its screen states (`AiFlashcardViewModel`);
- the shared-notes board: subject filter, subject names, file extensions,
  upvotes and subject clean-up (`NoteSharingViewModel`);
- skill requests and help offers (`PeerSkillViewModel`);
- lost-and-found moderation (`LostAndFoundAdminViewModel`);
- the staff order board (`CafeteriaStaffViewModel`);
- sign-in and registration (`AuthViewModel`);
- the role router (`Router`).

Each view model is a class. Its screen state is a set of fields, and each
store collection it writes is a `map` from document id to record. Every
method is one synchronous stretch of the original code. A listener's
snapshot, the outcome of a store call, the signed-in account, what the
content resolver reports for a file's display name, generated ids and the
current time arrive as parameters. Pure functions specify
what the methods compute, and lemmas state the properties.

Files:

- `kotlin.dfy`: the pieces of the Kotlin library in use: `isBlank`,
  `trim`, ASCII `uppercase`, `lastIndexOf`, `filter`, `sortedByDescending`
  and `Int.toString`.
- `firestore.dfy`: listener events, `arrayUnion`, `arrayRemove` and the
  `orderBy` order.
- `data.dfy`: the stored records.
- One file per view model: `cafeteria.dfy`, `flashcards.dfy`,
  `notesharing.dfy`, `peerskill.dfy`, `lostfound_admin.dfy`,
  `cafeteria_staff.dfy` and `auth.dfy`.
- `navigation.dfy`: the router.

The flashcard parser models `Regex("""\d+\.\s*Q:\s*(.*?)\s*A:\s*(.*)""").findAll`
by its `java.util.regex` meaning. `\s` is one of the six ASCII spaces, and
`.` is any character except a line terminator. At each position the parser
takes the match that backtracking finds first. The search resumes at the
end of a match. The proofs show that the reported matches are exactly the
leftmost non-overlapping matches, and that the answer group runs to the end
of its line.

Some behaviours of the code are worth knowing:

- Two upvote toggles by a user who had voted need not give back the same
  post. Unless the user was the last voter, their id moves to the end of
  `upvotedBy`. The count and the set of voters are always restored, and
  a last voter or a non-voter gets the identical post back
  (`NoteSharing.ToggleTwice`, `NoteSharing.ToggleTwiceLastVoter`,
  `NoteSharing.ToggleTwiceReorders`).
- The upvote update is chosen from the caller's copy of the post. A stale
  copy breaks the balance between the count and the voter list
  (`NoteSharing.StaleToggleLosesBalance`).
- `arrayUnion` compares offers as whole values, so the same helper can be
  listed twice with two different names (`PeerSkill.SameHelperOffersTwice`).
- The moderation view lists `open`, `verified` and `claim_pending` items.
  Reports filed through `ReportItemViewModel` are written as `open`, so
  they land in the pending-review list. `PENDING_REVIEW`, written by
  `LostAndFoundViewModel` and the default of `LostFoundItem.status`,
  appears in no list, nor do `resolved` and `rejected`
  (`LostFoundAdmin.UnlistedItems`).
- The moderation view writes a `claimedBy` field. That field is not
  declared in `data/LostFoundItem.kt`, and the model adds it to the item
  record.

## Model

| member | source | states |
|---|---|---|
| Kotlin.Trim | app/src/main/java/com/example/campusconnect/ui/features/aiflashcard/AIFlashcardViewModel.kt:88-89 | `trim()` gives the empty string exactly on a blank input, and otherwise a string that neither starts nor ends with whitespace |
| Kotlin.TrimIsSlice | app/src/main/java/com/example/campusconnect/ui/features/aiflashcard/AIFlashcardViewModel.kt:88-89 | the trimmed text is a slice of the input with only whitespace cut off on either side |
| Kotlin.TrimIdempotent | app/src/main/java/com/example/campusconnect/ui/features/note_sharing/NoteSharingViewModel.kt:93 | trimming twice is trimming once |
| Kotlin.LastIndexOf | app/src/main/java/com/example/campusconnect/ui/features/note_sharing/NoteSharingViewModel.kt:178 | `lastIndexOf('.')` is -1 exactly when there is no dot, and otherwise the index of a dot with no dot after it |
| Kotlin.Filter | app/src/main/java/com/example/campusconnect/ui/features/note_sharing/NoteSharingViewModel.kt:69 | `filter` returns no more elements than it is given, each satisfying the predicate |
| Kotlin.FilterCounts | app/src/main/java/com/example/campusconnect/ui/features/note_sharing/NoteSharingViewModel.kt:69 | `filter` keeps each element satisfying the predicate as often as it occurs and drops every other one |
| Kotlin.FilterMembers | app/src/main/java/com/example/campusconnect/ui/features/note_sharing/NoteSharingViewModel.kt:69 | an element survives `filter` exactly when it is present and satisfies the predicate |
| Kotlin.FilterAppend | app/src/main/java/com/example/campusconnect/ui/features/note_sharing/NoteSharingViewModel.kt:69 | `filter` keeps the relative order: it distributes over concatenation |
| Kotlin.SortedByDescending | app/src/main/java/com/example/campusconnect/ui/features/lostandfound_admin/LostAndFoundAdminViewModel.kt:52-54 | `sortedByDescending` returns a permutation of its input with non-increasing keys |
| Kotlin.NatToStringValue | app/src/main/java/com/example/campusconnect/ui/features/digitalqueue/CafeteriaViewModel.kt:79 | the decimal text of a count denotes that count |
| Firestore.ArrayUnion | app/src/main/java/com/example/campusconnect/ui/features/peerskill/PeerSkillViewModel.kt:120 | `arrayUnion(x)` leaves the array unchanged when `x` is present and otherwise appends it; earlier elements keep their order |
| Firestore.ArrayRemove | app/src/main/java/com/example/campusconnect/ui/features/note_sharing/NoteSharingViewModel.kt:194 | `arrayRemove(x)` leaves no `x` and keeps every other element as often as before |
| Firestore.ArrayUnionIdempotent | app/src/main/java/com/example/campusconnect/ui/features/peerskill/PeerSkillViewModel.kt:120 | a second identical `arrayUnion` changes nothing |
| Firestore.ArrayUnionNoDuplicates | app/src/main/java/com/example/campusconnect/ui/features/note_sharing/NoteSharingViewModel.kt:196 | `arrayUnion` never introduces a duplicate |
| Firestore.ArrayRemoveOne | app/src/main/java/com/example/campusconnect/ui/features/note_sharing/NoteSharingViewModel.kt:194 | on a duplicate-free array, removing a present element shortens it by exactly one and keeps it duplicate-free |
| Firestore.ArrayRemoveAbsent | app/src/main/java/com/example/campusconnect/ui/features/note_sharing/NoteSharingViewModel.kt:194 | removing an absent element changes nothing |
| Firestore.TimeKey | app/src/main/java/com/example/campusconnect/ui/features/lostandfound_admin/LostAndFoundAdminViewModel.kt:52 | a null timestamp sorts below every timestamp |
| Firestore.OrderAscending | app/src/main/java/com/example/campusconnect/ui/features/cafeteria_staff/CafeteriaStaffViewModel.kt:90 | `orderBy(ASCENDING)` returns a permutation of the documents with non-decreasing keys |
| Firestore.OrderDescending | app/src/main/java/com/example/campusconnect/ui/features/note_sharing/NoteSharingViewModel.kt:48 | `orderBy(DESCENDING)` returns a permutation of the documents with non-increasing keys |
| Cafeteria.Count | app/src/main/java/com/example/campusconnect/ui/features/digitalqueue/CafeteriaViewModel.kt:46 | the count of a dish (`cart[item] ?: 0`) is 0 without an entry and at least 1 with one in a valid cart |
| Cafeteria.AddedCounts | app/src/main/java/com/example/campusconnect/ui/features/digitalqueue/CafeteriaViewModel.kt:43-49 | adding a dish raises its count by one and leaves every other count |
| Cafeteria.AddedKeys | app/src/main/java/com/example/campusconnect/ui/features/digitalqueue/CafeteriaViewModel.kt:43-49 | an existing key keeps its place and a new one goes last |
| Cafeteria.AddedValid | app/src/main/java/com/example/campusconnect/ui/features/digitalqueue/CafeteriaViewModel.kt:43-49 | adding keeps every dish once with a count of at least 1 |
| Cafeteria.Removed | app/src/main/java/com/example/campusconnect/ui/features/digitalqueue/CafeteriaViewModel.kt:51-62 | removing leaves every other count, adds no key, and changes nothing for an absent dish |
| Cafeteria.RemovedValid | app/src/main/java/com/example/campusconnect/ui/features/digitalqueue/CafeteriaViewModel.kt:51-62 | removing keeps the cart valid; a count above 1 goes down by one, otherwise the key is gone |
| Cafeteria.AddThenRemove | app/src/main/java/com/example/campusconnect/ui/features/digitalqueue/CafeteriaViewModel.kt:43-62 | adding a dish and then removing it gives back the original cart, entry order included |
| Cafeteria.OrderLines | app/src/main/java/com/example/campusconnect/ui/features/digitalqueue/CafeteriaViewModel.kt:79 | one order line per cart key, in key order |
| Cafeteria.ItemLineShape | app/src/main/java/com/example/campusconnect/ui/features/digitalqueue/CafeteriaViewModel.kt:79 | each line is the dish name, `" x"`, and the count in decimal |
| Cafeteria.TotalAdded | app/src/main/java/com/example/campusconnect/ui/features/digitalqueue/CafeteriaViewModel.kt:80 | one more of a dish raises the total by its price |
| Cafeteria.NewOrder | app/src/main/java/com/example/campusconnect/ui/features/digitalqueue/CafeteriaViewModel.kt:74-83 | the order carries status `PLACED`, the user's uid, `specializedId` as user name, the cart's lines and a timestamp |
| Cafeteria.CafeteriaViewModel.OnMenuLoaded | app/src/main/java/com/example/campusconnect/ui/features/digitalqueue/CafeteriaViewModel.kt:33-40 | the menu read fills the menu on success; loading ends either way |
| Cafeteria.CafeteriaViewModel.AddToCart | app/src/main/java/com/example/campusconnect/ui/features/digitalqueue/CafeteriaViewModel.kt:43-49 | the cart becomes the added cart and stays valid |
| Cafeteria.CafeteriaViewModel.RemoveFromCart | app/src/main/java/com/example/campusconnect/ui/features/digitalqueue/CafeteriaViewModel.kt:51-62 | the cart becomes the reduced cart, stays valid, loses the key when the last one is removed |
| Cafeteria.CafeteriaViewModel.PlaceOrder | app/src/main/java/com/example/campusconnect/ui/features/digitalqueue/CafeteriaViewModel.kt:64-90 | an empty cart changes nothing; success stores the order and starts a fresh state with the same menu and the flag true; failure keeps the cart and sets the flag false |
| Cafeteria.CafeteriaViewModel.ResetOrderSuccessStatus | app/src/main/java/com/example/campusconnect/ui/features/digitalqueue/CafeteriaViewModel.kt:92-94 | the flag becomes null |
| Flashcards.RunEndSpec | app/src/main/java/com/example/campusconnect/ui/features/aiflashcard/AIFlashcardViewModel.kt:84 | a greedy `\s*` or `.*` run ends at the first position that does not continue it |
| Flashcards.FirstAnswerMarkerSpec | app/src/main/java/com/example/campusconnect/ui/features/aiflashcard/AIFlashcardViewModel.kt:84 | the lazy `(.*?)` stops at the first position on the line from which `\s*A:` follows |
| Flashcards.QuestionMarkerSound | app/src/main/java/com/example/campusconnect/ui/features/aiflashcard/AIFlashcardViewModel.kt:84 | the `Q:` found at a position ends a match of `\d+\.\s*Q:` there |
| Flashcards.MatchEndingSound | app/src/main/java/com/example/campusconnect/ui/features/aiflashcard/AIFlashcardViewModel.kt:84 | once group 1 ends where `\s*A:` follows, the rest of the match is a match of `\s*(.*?)\s*A:\s*(.*)` |
| Flashcards.MatchAtSound | app/src/main/java/com/example/campusconnect/ui/features/aiflashcard/AIFlashcardViewModel.kt:84 | a match reported at a position is a match of the regular expression there |
| Flashcards.AnswerMarkerFound | app/src/main/java/com/example/campusconnect/ui/features/aiflashcard/AIFlashcardViewModel.kt:84 | where a match exists, the lazy group finds an end no later than that match's |
| Flashcards.MatchAtFirst | app/src/main/java/com/example/campusconnect/ui/features/aiflashcard/AIFlashcardViewModel.kt:84 | wherever the regular expression can match, a match is reported there, the one backtracking picks first |
| Flashcards.FindAll | app/src/main/java/com/example/campusconnect/ui/features/aiflashcard/AIFlashcardViewModel.kt:85 | every reported match is well-formed and starts at or after the search start |
| Flashcards.FindAllChained | app/src/main/java/com/example/campusconnect/ui/features/aiflashcard/AIFlashcardViewModel.kt:85 | each reported match ends before the next one starts |
| Flashcards.FindAllOrdered | app/src/main/java/com/example/campusconnect/ui/features/aiflashcard/AIFlashcardViewModel.kt:85 | matches come out in text order and do not overlap |
| Flashcards.FindAllSound | app/src/main/java/com/example/campusconnect/ui/features/aiflashcard/AIFlashcardViewModel.kt:85 | every reported match is a match of the regular expression |
| Flashcards.FindAllReaches | app/src/main/java/com/example/campusconnect/ui/features/aiflashcard/AIFlashcardViewModel.kt:85 | a start position no reported match covers is tried, and its match is reported |
| Flashcards.FindAllComplete | app/src/main/java/com/example/campusconnect/ui/features/aiflashcard/AIFlashcardViewModel.kt:85 | no position where the regular expression matches is skipped unless a reported match covers it |
| Flashcards.FindAllIsMatchAt | app/src/main/java/com/example/campusconnect/ui/features/aiflashcard/AIFlashcardViewModel.kt:85 | each reported match is the one the regular expression gives at its start |
| Flashcards.CardsOf | app/src/main/java/com/example/campusconnect/ui/features/aiflashcard/AIFlashcardViewModel.kt:87-93 | at most one card per match, and each kept card has a non-empty question and answer |
| Flashcards.CardsOfTrimmed | app/src/main/java/com/example/campusconnect/ui/features/aiflashcard/AIFlashcardViewModel.kt:88-89 | every card's question and answer are trimmed |
| Flashcards.CardsOfSuffix | app/src/main/java/com/example/campusconnect/ui/features/aiflashcard/AIFlashcardViewModel.kt:87-93 | cards follow the order of their matches: the cards from one match on are its kept card, then the cards of the later matches |
| Flashcards.NoMatchNoCards | app/src/main/java/com/example/campusconnect/ui/features/aiflashcard/AIFlashcardViewModel.kt:84-94 | text in which the regular expression matches nowhere gives no cards |
| Flashcards.CardsStep | app/src/main/java/com/example/campusconnect/ui/features/aiflashcard/AIFlashcardViewModel.kt:87-92 | one turn of the loop appends the match's card exactly when both trimmed groups are non-empty |
| Flashcards.ParseFlashcardResponse | app/src/main/java/com/example/campusconnect/ui/features/aiflashcard/AIFlashcardViewModel.kt:81-95 | the loop returns the reference parse: trimmed, non-empty cards, at most one per match, in match order |
| Flashcards.AnswerRunsToLineEnd | app/src/main/java/com/example/campusconnect/ui/features/aiflashcard/AIFlashcardViewModel.kt:84 | an answer group ends at the end of its line |
| Flashcards.TwoLines | app/src/main/java/com/example/campusconnect/ui/features/aiflashcard/AIFlashcardViewModel.kt:84-94 | two numbered cards on two lines give two cards |
| Flashcards.SameLine | app/src/main/java/com/example/campusconnect/ui/features/aiflashcard/AIFlashcardViewModel.kt:84 | a second numbered card on the same line ends up inside the first answer |
| Flashcards.PromptQuotesTopic | app/src/main/java/com/example/campusconnect/ui/features/aiflashcard/AIFlashcardViewModel.kt:54-61 | the prompt quotes the topic verbatim after its fixed opening, and the fixed instructions follow it |
| Flashcards.AiFlashcardViewModel.GenerateFlashcards | app/src/main/java/com/example/campusconnect/ui/features/aiflashcard/AIFlashcardViewModel.kt:45-51 | a blank topic gives `Error("Topic cannot be empty.")` and no request; otherwise Loading before the request |
| Flashcards.AiFlashcardViewModel.OnModelResponse | app/src/main/java/com/example/campusconnect/ui/features/aiflashcard/AIFlashcardViewModel.kt:63-76 | no cards give the "couldn't generate" error, otherwise Success with exactly the parsed cards; an exception gives "An error occurred: " and its message |
| Flashcards.AiFlashcardViewModel.ResetState | app/src/main/java/com/example/campusconnect/ui/features/aiflashcard/AIFlashcardViewModel.kt:98-100 | the state is Idle |
| NoteSharing.DisplayedSpec | app/src/main/java/com/example/campusconnect/ui/features/note_sharing/NoteSharingViewModel.kt:64-77 | with no subject every post is shown; with one, a post is shown exactly when it has that subject, as often as it is listed |
| NoteSharing.DisplayedKeepsOrder | app/src/main/java/com/example/campusconnect/ui/features/note_sharing/NoteSharingViewModel.kt:69 | the filter keeps the order of the posts |
| NoteSharing.FormatSubject | app/src/main/java/com/example/campusconnect/ui/features/note_sharing/NoteSharingViewModel.kt:93 | the stored form of a name is empty exactly for a blank name |
| NoteSharing.FormatSubjectIdempotent | app/src/main/java/com/example/campusconnect/ui/features/note_sharing/NoteSharingViewModel.kt:93 | normalising a normalised name changes nothing |
| NoteSharing.WithSubjectSpec | app/src/main/java/com/example/campusconnect/ui/features/note_sharing/NoteSharingViewModel.kt:91-99 | a blank name writes nothing; any other leaves a document under its normalised name, adds no other document and overwrites none |
| NoteSharing.WithSubjectIdempotent | app/src/main/java/com/example/campusconnect/ui/features/note_sharing/NoteSharingViewModel.kt:94-98 | creating a subject twice is creating it once |
| NoteSharing.ExtensionSpec | app/src/main/java/com/example/campusconnect/ui/features/note_sharing/NoteSharingViewModel.kt:178-181 | a name has an extension exactly when it has a dot after its first character; the extension is a dot and dot-free text that ends the name |
| NoteSharing.ExtensionOfDotFile | app/src/main/java/com/example/campusconnect/ui/features/note_sharing/NoteSharingViewModel.kt:178-181 | `".gitignore"` has no extension |
| NoteSharing.ExtensionOfTrailingDot | app/src/main/java/com/example/campusconnect/ui/features/note_sharing/NoteSharingViewModel.kt:178-181 | `"a."` has the extension `"."` |
| NoteSharing.ExtensionOfLastDot | app/src/main/java/com/example/campusconnect/ui/features/note_sharing/NoteSharingViewModel.kt:178-181 | the extension starts at the last dot |
| NoteSharing.Extension | app/src/main/java/com/example/campusconnect/ui/features/note_sharing/NoteSharingViewModel.kt:170-186 | the call throws exactly when the display name is null; a readable name gives its extension |
| NoteSharing.GetFileExtension | app/src/main/java/com/example/campusconnect/ui/features/note_sharing/NoteSharingViewModel.kt:170-186 | returns the extension of the display name, `""` when there is no cursor, no row or no name column, and an exception (None) for a null name |
| NoteSharing.ResourceType | app/src/main/java/com/example/campusconnect/ui/features/note_sharing/NoteSharingViewModel.kt:115 | the resource type is `image` exactly for a file type starting with `image`, otherwise `raw` |
| NoteSharing.Toggled | app/src/main/java/com/example/campusconnect/ui/features/note_sharing/NoteSharingViewModel.kt:193-197 | a voter's toggle lowers the count and removes the user, anyone else's raises it and adds the user; nothing else changes |
| NoteSharing.ToggleKeepsBalance | app/src/main/java/com/example/campusconnect/ui/features/note_sharing/NoteSharingViewModel.kt:193-197 | on an up-to-date copy the toggle flips the vote, keeps voters unique and keeps the count minus the number of voters |
| NoteSharing.ToggleTwice | app/src/main/java/com/example/campusconnect/ui/features/note_sharing/NoteSharingViewModel.kt:193-197 | two toggles restore the count and the voters; a non-voter gets the identical post back |
| NoteSharing.ToggleTwiceLastVoter | app/src/main/java/com/example/campusconnect/ui/features/note_sharing/NoteSharingViewModel.kt:193-197 | when the user is the last voter, two toggles give back the identical post |
| NoteSharing.ToggleTwiceReorders | app/src/main/java/com/example/campusconnect/ui/features/note_sharing/NoteSharingViewModel.kt:194-196 | a voter who toggles twice moves to the end of the voter list |
| NoteSharing.StaleToggleLosesBalance | app/src/main/java/com/example/campusconnect/ui/features/note_sharing/NoteSharingViewModel.kt:193-194 | a stale copy that still lists the vote lowers the count without removing a voter |
| NoteSharing.NewPost | app/src/main/java/com/example/campusconnect/ui/features/note_sharing/NoteSharingViewModel.kt:146-151 | the new post carries the author's fields, the normalised subject, no votes and a timestamp |
| NoteSharing.NewPostSubjectExists | app/src/main/java/com/example/campusconnect/ui/features/note_sharing/NoteSharingViewModel.kt:144-145 | the subject document created for a new post is the one its subject field names |
| NoteSharing.NoteSharingViewModel.ApplyFilter | app/src/main/java/com/example/campusconnect/ui/features/note_sharing/NoteSharingViewModel.kt:64-77 | the shown posts are the filtered posts and loading ends |
| NoteSharing.NoteSharingViewModel.OnPostsEvent | app/src/main/java/com/example/campusconnect/ui/features/note_sharing/NoteSharingViewModel.kt:44-61 | the posts are the snapshot newest first, or empty after a failure, and the shown list is refiltered |
| NoteSharing.NoteSharingViewModel.FilterBySubject | app/src/main/java/com/example/campusconnect/ui/features/note_sharing/NoteSharingViewModel.kt:79-82 | the selection is set and the shown list refiltered; nothing else changes |
| NoteSharing.NoteSharingViewModel.OnSubjectsEvent | app/src/main/java/com/example/campusconnect/ui/features/note_sharing/NoteSharingViewModel.kt:84-89 | the subjects are the snapshot's, or none without a snapshot |
| NoteSharing.NoteSharingViewModel.CreateSubjectIfNotExist | app/src/main/java/com/example/campusconnect/ui/features/note_sharing/NoteSharingViewModel.kt:91-99 | the subjects become the collection with the normalised subject added when absent |
| NoteSharing.NoteSharingViewModel.StartUpload | app/src/main/java/com/example/campusconnect/ui/features/note_sharing/NoteSharingViewModel.kt:112-121 | uploading starts, with the resource type and the public id `uuid + extension`; a null display name aborts the upload with no public id and uploading left set |
| NoteSharing.NoteSharingViewModel.OnUploadFailed | app/src/main/java/com/example/campusconnect/ui/features/note_sharing/NoteSharingViewModel.kt:163-167 | uploading ends and the result is false |
| NoteSharing.NoteSharingViewModel.OnUploadSucceeded | app/src/main/java/com/example/campusconnect/ui/features/note_sharing/NoteSharingViewModel.kt:139-161 | the subject is created, then the post stored; the result is true only when both succeed, and uploading ends |
| NoteSharing.NoteSharingViewModel.ToggleUpvote | app/src/main/java/com/example/campusconnect/ui/features/note_sharing/NoteSharingViewModel.kt:188-202 | blank ids change nothing; otherwise the stored post is toggled as the caller's copy decides |
| NoteSharing.NoteSharingViewModel.DeleteNoteAndCleanupSubject | app/src/main/java/com/example/campusconnect/ui/features/note_sharing/NoteSharingViewModel.kt:204-225 | the note is deleted and its subject document removed exactly when no remaining note has that subject; no other document changes |
| PeerSkill.OpenRequestsSpec | app/src/main/java/com/example/campusconnect/ui/features/peerskill/PeerSkillViewModel.kt:39-41 | the list holds exactly the OPEN requests, newest first, so a resolved one is never listed |
| PeerSkill.NewRequest | app/src/main/java/com/example/campusconnect/ui/features/peerskill/PeerSkillViewModel.kt:81-92 | a new request is OPEN, has no offers, and takes poster uid, name and SAP id from the profile |
| PeerSkill.NewRequestListed | app/src/main/java/com/example/campusconnect/ui/features/peerskill/PeerSkillViewModel.kt:39-41 | a freshly posted request is listed |
| PeerSkill.WithOffer | app/src/main/java/com/example/campusconnect/ui/features/peerskill/PeerSkillViewModel.kt:120 | an offer changes only the offers |
| PeerSkill.WithOfferSpec | app/src/main/java/com/example/campusconnect/ui/features/peerskill/PeerSkillViewModel.kt:113-120 | the helper's offer is present, offers stay unique, earlier offers keep their order in front |
| PeerSkill.WithOfferIdempotent | app/src/main/java/com/example/campusconnect/ui/features/peerskill/PeerSkillViewModel.kt:120 | offering twice with the same data is offering once |
| PeerSkill.SameHelperOffersTwice | app/src/main/java/com/example/campusconnect/ui/features/peerskill/PeerSkillViewModel.kt:113-120 | offers are compared as whole values, so a renamed helper is listed twice |
| PeerSkill.WithOfferNoSelfOffer | app/src/main/java/com/example/campusconnect/ui/features/peerskill/PeerSkillViewModel.kt:106-109 | an offer by someone other than the poster keeps the request free of the poster's offers |
| PeerSkill.PeerSkillViewModel.OnRequestsEvent | app/src/main/java/com/example/campusconnect/ui/features/peerskill/PeerSkillViewModel.kt:42-51 | an error keeps the list, a null snapshot empties it, a snapshot lists its open requests; loading ends |
| PeerSkill.PeerSkillViewModel.CreateSkillRequest | app/src/main/java/com/example/campusconnect/ui/features/peerskill/PeerSkillViewModel.kt:54-102 | no user or no profile fails without writing; otherwise the new request is stored when the write succeeds |
| PeerSkill.PeerSkillViewModel.OfferHelp | app/src/main/java/com/example/campusconnect/ui/features/peerskill/PeerSkillViewModel.kt:104-126 | an offer on one's own request changes nothing; otherwise the offer is added to the stored request |
| PeerSkill.PeerSkillViewModel.MarkAsResolved | app/src/main/java/com/example/campusconnect/ui/features/peerskill/PeerSkillViewModel.kt:128-143 | only the signed-in poster sets the stored status to RESOLVED; otherwise nothing changes |
| LostFoundAdmin.ByStatusMembers | app/src/main/java/com/example/campusconnect/ui/features/lostandfound_admin/LostAndFoundAdminViewModel.kt:52-54 | each list is a permutation of the items with its status |
| LostFoundAdmin.ByStatusOrder | app/src/main/java/com/example/campusconnect/ui/features/lostandfound_admin/LostAndFoundAdminViewModel.kt:52-54 | each list is newest first with null timestamps last |
| LostFoundAdmin.ListsDisjoint | app/src/main/java/com/example/campusconnect/ui/features/lostandfound_admin/LostAndFoundAdminViewModel.kt:52-54 | no item is in two lists, and an item of any other status is in none |
| LostFoundAdmin.UnlistedItems | app/src/main/java/com/example/campusconnect/ui/features/lostandfound_admin/LostAndFoundAdminViewModel.kt:52-54 | an item that is resolved, rejected or awaiting review is in none of the three lists |
| LostFoundAdmin.WithStatus | app/src/main/java/com/example/campusconnect/ui/features/lostandfound_admin/LostAndFoundAdminViewModel.kt:67 | a status update changes only the status |
| LostFoundAdmin.ClaimDenied | app/src/main/java/com/example/campusconnect/ui/features/lostandfound_admin/LostAndFoundAdminViewModel.kt:90-95 | a denied claim is verified with `claimedBy` cleared; nothing else changes |
| LostFoundAdmin.DeniedClaimListed | app/src/main/java/com/example/campusconnect/ui/features/lostandfound_admin/LostAndFoundAdminViewModel.kt:84-95 | a denied claim returns the item to the verified list |
| LostFoundAdmin.ResolvedUnlisted | app/src/main/java/com/example/campusconnect/ui/features/lostandfound_admin/LostAndFoundAdminViewModel.kt:79-81 | a resolved item leaves every list |
| LostFoundAdmin.LostAndFoundAdminViewModel.OnItemsEvent | app/src/main/java/com/example/campusconnect/ui/features/lostandfound_admin/LostAndFoundAdminViewModel.kt:38-59 | an error only ends loading, a null snapshot changes nothing, a snapshot refills the three lists |
| LostFoundAdmin.LostAndFoundAdminViewModel.UpdateItemStatus | app/src/main/java/com/example/campusconnect/ui/features/lostandfound_admin/LostAndFoundAdminViewModel.kt:64-74 | a blank id returns false and writes nothing; otherwise only the status is written, whatever it was |
| LostFoundAdmin.LostAndFoundAdminViewModel.ConfirmResolution | app/src/main/java/com/example/campusconnect/ui/features/lostandfound_admin/LostAndFoundAdminViewModel.kt:79-81 | the update to `resolved` |
| LostFoundAdmin.LostAndFoundAdminViewModel.DenyClaim | app/src/main/java/com/example/campusconnect/ui/features/lostandfound_admin/LostAndFoundAdminViewModel.kt:86-102 | a blank id returns false; otherwise status `verified` and `claimedBy` cleared |
| CafeteriaStaff.WithStatusMembers | app/src/main/java/com/example/campusconnect/ui/features/cafeteria_staff/CafeteriaStaffViewModel.kt:89 | each board holds exactly the orders of its status |
| CafeteriaStaff.WithStatusOrder | app/src/main/java/com/example/campusconnect/ui/features/cafeteria_staff/CafeteriaStaffViewModel.kt:90 | each board is oldest first |
| CafeteriaStaff.BoardsSeparate | app/src/main/java/com/example/campusconnect/ui/features/cafeteria_staff/CafeteriaStaffViewModel.kt:89 | no order is in both boards, and a READY_FOR_PICKUP order is in neither |
| CafeteriaStaff.StartPreparingMovesOrder | app/src/main/java/com/example/campusconnect/ui/features/cafeteria_staff/CafeteriaStaffViewModel.kt:119-123 | moving an order to PREPARING moves it from the new-order board to the preparing board |
| CafeteriaStaff.CafeteriaStaffViewModel.OnNewOrdersEvent | app/src/main/java/com/example/campusconnect/ui/features/cafeteria_staff/CafeteriaStaffViewModel.kt:87-101 | an error keeps the board, a snapshot refills it with PLACED orders; loading ends |
| CafeteriaStaff.CafeteriaStaffViewModel.OnPreparingOrdersEvent | app/src/main/java/com/example/campusconnect/ui/features/cafeteria_staff/CafeteriaStaffViewModel.kt:103-117 | an error keeps the board, a snapshot refills it with PREPARING orders; loading ends |
| CafeteriaStaff.CafeteriaStaffViewModel.UpdateOrderStatus | app/src/main/java/com/example/campusconnect/ui/features/cafeteria_staff/CafeteriaStaffViewModel.kt:119-123 | a blank id writes nothing; otherwise only that order's status changes |
| Auth.AuthEmail | app/src/main/java/com/example/campusconnect/auth/AuthViewModel.kt:69 | the sign-in email is the campus id followed by `@nmims.campusconnect` |
| Auth.AuthEmailInjective | app/src/main/java/com/example/campusconnect/auth/AuthViewModel.kt:69 | different campus ids never share a sign-in email |
| Auth.NewProfileIsStudent | app/src/main/java/com/example/campusconnect/auth/AuthViewModel.kt:96-102 | a registered profile is a student's with exactly the given data |
| Auth.AuthViewModel.OnAuthStateChanged | app/src/main/java/com/example/campusconnect/auth/AuthViewModel.kt:35-43 | signing out sets Idle and no user; a signed-in account asks for its profile |
| Auth.AuthViewModel.FetchUserProfile | app/src/main/java/com/example/campusconnect/auth/AuthViewModel.kt:46-62 | a found profile becomes the user and Authenticated; a missing one gives "User profile not found."; a failed read gives "Failed to load profile: " |
| Auth.AuthViewModel.Login | app/src/main/java/com/example/campusconnect/auth/AuthViewModel.kt:64-71 | a blank id or password gives the error and never Loading; otherwise Loading with the derived email |
| Auth.AuthViewModel.OnSignInFailed | app/src/main/java/com/example/campusconnect/auth/AuthViewModel.kt:75-77 | a rejected sign-in becomes an error with its message or the fallback |
| Auth.AuthViewModel.Register | app/src/main/java/com/example/campusconnect/auth/AuthViewModel.kt:81-90 | any blank field gives "All fields are required." and never Loading; otherwise Loading with the derived email |
| Auth.AuthViewModel.CompleteRegistration | app/src/main/java/com/example/campusconnect/auth/AuthViewModel.kt:91-111 | a created account gets its student profile; a missing account or a failure gives the matching error |
| Navigation.Destination | app/src/main/java/com/example/campusconnect/navigation/Router.kt:25-31 | the route is one of the five, and the login route exactly for an unknown role |
| Navigation.NavigationTarget | app/src/main/java/com/example/campusconnect/navigation/Router.kt:23-31 | the router navigates only when authenticated with a loaded user, to that user's role route |
| Navigation.DashboardsDistinct | app/src/main/java/com/example/campusconnect/navigation/Router.kt:26-29 | the four known roles reach four different dashboards, none the login route |
| Navigation.EveryRouteReached | app/src/main/java/com/example/campusconnect/navigation/Router.kt:25-31 | every route of the table is reached by some role |
| Navigation.NewAccountOpensStudentDashboard | app/src/main/java/com/example/campusconnect/navigation/Router.kt:26 | a freshly registered account lands on the student dashboard |

## Left out

- Cloudinary uploads are not modelled: the transfer in `uploadNote` and all of `addMenuItem`. The hosted file's URL is a parameter of `OnUploadSucceeded`.
- The Gemini call is not modelled. Its reply text, or its exception message, is a parameter of `OnModelResponse`.
- `AdminViewModel`, `UserManagementViewModel`, `ReportItemViewModel`, `LostAndFoundViewModel` and the Compose screens are not part of this model.
- Coroutines, listeners and concurrent writers are not modelled. Each method is one synchronous stretch, so interleavings are not covered. For example, the auth listener can fire before the new profile of `register` is written.
- The flow `catch` in the posts listener ends the flow after it emits its empty list. The model does not stop later snapshots from arriving.
- Upper-casing is ASCII only. `uppercase(Locale.getDefault())` depends on the locale.
- Prices and `totalPrice` are integers in minor units, not `Double`.
- Order of equal keys: the model's `orderBy` keeps the delivery order of documents with equal timestamps. Firestore orders such ties by document id.
- A document that lacks the `timestamp` field is treated like one whose timestamp is null. Firestore's `orderBy` leaves such documents out.
- The subjects listener's `orderBy("name")` is not modelled. The subjects keep the order the snapshot delivers them in.
- Kotlin.SortedByDescending: stability among equal keys is not proved. The construction keeps equal keys in input order.
- Flashcards.PromptQuotesTopic: the topic is inserted before `trimIndent` runs on the whole prompt. A topic with a line break whose next line is indented less than the template changes the common indent, so the fixed instruction lines keep part of their leading spaces, and line breaks become LF. For such a topic the whole produced prompt differs from `Prompt`, not only the topic. The model covers topics on one line.
- Store failures that the code only logs are not modelled in `toggleUpvote`, `deleteNoteAndCleanupSubject`, `offerHelp`, `markAsResolved` and `updateOrderStatus`. The only failure modelled is the update of a document that does not exist.
- PeerSkill.PeerSkillViewModel.OfferHelp: an empty `requestId` is not special-cased. Both `OfferHelp` and `MarkAsResolved` look the id up in `requests`. Firestore never stores a document under an empty id, so such a call changes nothing; the model does not enforce that, and an entry stored under `""` would be updated. In `markAsResolved` the source agrees: `document("")` throws inside the `try` and the `catch` only logs it. In `offerHelp` the document reference is built before the `try`, so the exception escapes the coroutine; the model does not capture that throw.
- Auth.AuthViewModel.FetchUserProfile: a stored profile always converts to a `User`. A `toObject` that returns null is not modelled.
- The compile inconsistencies are not modelled:
  - `ReportItemViewModel` builds a `LostFoundItem` with fields the record lacks;
  - EditFacultyScreen.kt calls an `updateFacultyMember` overload that does not exist;
  - MainScreen.kt refers to an undefined `LostFoundListViewModel`.
