# Maplify Tech whiteboard: the board persistence pipeline in Dafny

This project models the part of the Maplify Tech whiteboard that stores, loads, saves, imports and exports boards. A board is an Excalidraw drawing with a name, tags and an optional thumbnail. The model covers:

- **the API side**: the board routes as an ownership-scoped repository behind a bearer-token gate;
- **the web client**: the boards store, the theme and authentication stores, the canvas's initial data, thumbnail generation, the legacy browser storage, the import/export file format, and the decisions made by the sidebar, the dashboard and the header.

Everything is sequential and pure:

- JSON values are a datatype (`Json.JValue`), and JavaScript's `undefined` is `Option.None`. JavaScript truthiness is the explicit predicate `Json.Truthy`.
- Each server call's outcome is an input to the client stores (`ApiResult`).
- The renderer, the file reader, token verification, the session lookup, the clock and id generation are parameters.

Modules, one per source component:

| module | models |
|---|---|
| `Wrappers`, `Json`, `Strings`, `Seqs` | option type, JSON values and truthiness, `startsWith`/`includes`/`toLowerCase`/`trim`, order-preserving filter |
| `SharedTypes`, `ClientTypes` | the wire types (nested `data`) and the client types (flattened board, settings, export envelope) |
| `BoardSchema` | the zod request schemas for create and update |
| `AuthGate` | the `authenticate` middleware |
| `Repository` | the six board routes over a map of database rows |
| `Codec` | export envelopes, file validators, single/multi parsing and the import decision |
| `Thumbnail` | `generateThumbnail` and its debounced variant |
| `BoardsStore` | `useBoards`: `transformBoardData` and every store action |
| `Canvas` | the `initialData` sanitisation of `WhiteboardCanvas` |
| `Storage` | the legacy `localStorage` helpers |
| `ThemeStore`, `AuthStore` | `useTheme` and `useAuth` (with the API client's token) |
| `Sidebar`, `Dashboard`, `Header` | the components' filter, chip, rename, export and import decisions |

Observations about the code, not about the model:

- The boards store remembers the last board under the browser-storage key `last_board_id`, while the storage helpers use `drawboard_last_board_id`. The model therefore keeps the two apart (`BoardsStore.State.lastBoardId` versus `Storage.LAST_BOARD_ID_KEY`).
- The sidebar's "export all" reads the legacy browser storage, not the server (`Sidebar.ExportAll`). A user whose boards live only on the server exports nothing.
- The authentication gate rejects a missing or malformed header (apps/api/src/middleware/auth.ts:18), a missing or expired session (line 31) and a failed verification or lookup (line 38) all with status 401, but with three different messages. A client can therefore tell these cases apart by the message alone (`AuthGate.RejectionsDifferOnlyInMessage`).
- After a batch import the store opens the first board of the refreshed list, which is sorted newest first. The comment says "the first imported board", but the board opened is whichever was updated most recently. The model states what the code does (`BoardsStore.ImportBoards`).

## Model

| member | source | states |
|---|---|---|
| SharedTypes.MetadataIsBoardWithoutData | packages/shared/src/types.ts:10-33 | A wire board is exactly its metadata plus `data`: splitting and rejoining loses nothing, in both directions |
| ClientTypes.ThemeNamesRoundTrip | apps/web/src/types/index.ts:33-37 | The settings theme ranges over exactly "light", "dark" and "auto", and each name parses back to its theme |
| ClientTypes.FlattenNestRoundTrip | apps/web/src/types/index.ts:17-27 | Flattening a wire board to the client shape and nesting it back is the identity; a client board without tags comes back with the empty list |
| BoardSchema.ParseName | apps/api/src/routes/boards.ts:12 | A name is accepted iff it is a string of 1 to 255 characters |
| BoardSchema.ParseStrings | apps/api/src/routes/boards.ts:19 | A tag list is accepted iff it is an array of strings, and it is read back element for element |
| BoardSchema.ParseBoardData | apps/api/src/routes/boards.ts:13-17 | Accepted board data has array `elements`, record `appState`, and `files` a record when present, read back as they were sent |
| BoardSchema.ParseCreate | apps/api/src/routes/boards.ts:11-20 | A create body is accepted iff it is an object with a valid name, valid `data`, a thumbnail that is absent or a string, and tags that are absent or a string list; the accepted request reads back the name, data, thumbnail and tags the body supplied |
| BoardSchema.ParseUpdate | apps/api/src/routes/boards.ts:22-31 | An update body is accepted iff it is an object whose supplied name is valid, supplied data validates, supplied thumbnail is a string and supplied tags a string list; each request field is exactly the body's value, or absent when the body omits it |
| BoardSchema.StringsRoundTrip | apps/api/src/routes/boards.ts:19 | Every list of strings validates as itself |
| BoardSchema.BoardDataRoundTrip | apps/api/src/routes/boards.ts:13-17 | Encoding board data and validating it gives it back unchanged |
| BoardSchema.CreateRoundTrip | apps/api/src/routes/boards.ts:11-20 | An encoded create request is accepted, unchanged, iff its name has 1 to 255 characters |
| BoardSchema.UpdateRoundTrip | apps/api/src/routes/boards.ts:22-31 | An encoded update request is accepted, unchanged, iff it has no name or a name of 1 to 255 characters |
| BoardSchema.RequiredFields | apps/api/src/routes/boards.ts:11-31 | Create needs `name` and `data`; update accepts the empty object; board data needs `elements` and `appState` but not `files` |
| BoardSchema.RejectsMalformed | apps/api/src/routes/boards.ts:11-31 | Names outside 1..255, non-array elements and non-record app state are rejected |
| AuthGate.Authenticate | apps/api/src/middleware/auth.ts:9-40 | The route runs iff the header starts with "Bearer ", the token verifies, the session exists and has not expired (`expiresAt >= now`); it then runs with the verified payload; every rejection is 401 |
| AuthGate.ExpiryBoundary | apps/api/src/middleware/auth.ts:17-33 | A session expiring exactly now is accepted, one that expired a millisecond ago is not, and the scheme name is case-sensitive |
| AuthGate.RejectionsDifferOnlyInMessage | apps/api/src/middleware/auth.ts:17-39 | A bad header, a failed verification or lookup, and a missing session each give 401, with three distinct messages |
| Repository.Get | apps/api/src/routes/boards.ts:56-74 | A board is returned iff the caller owns it; anything else is NotFound |
| Repository.Create | apps/api/src/routes/boards.ts:77-95 | An invalid body changes nothing; a valid one adds exactly one row under a fresh id, owned by the caller, with the tags defaulting to `[]` |
| Repository.Update | apps/api/src/routes/boards.ts:98-129 | An invalid body is Invalid and a board the caller does not own is NotFound, both without changes; a valid body on an owned board succeeds and changes only that row: each supplied name, data, thumbnail and tag list is stored as sent, each omitted one is kept, and the id, owner and creation time are kept |
| Repository.Delete | apps/api/src/routes/boards.ts:132-155 | An owned board is removed and nothing else changes; otherwise NotFound |
| Repository.Duplicate | apps/api/src/routes/boards.ts:158-186 | An owned board gets a copy under a fresh id with " (Copy)" appended, and the same data, thumbnail, tags and owner; otherwise NotFound |
| Repository.InsertByUpdated | apps/api/src/routes/boards.ts:46 | Inserting a summary into a list sorted newest first keeps it sorted and shifts the rest intact |
| Repository.List | apps/api/src/routes/boards.ts:34-53 | The list holds each of the caller's boards exactly once, without data, newest update first, and no other user's board |
| Repository.Status | apps/api/src/routes/boards.ts:66 | 401 exactly for a gate rejection, 404 exactly for a missing board, 201 exactly for a created or duplicated board (lines 91, 182), 200 for the other successes, and no status of its own for a validation failure, which is passed on to the error handler |
| Repository.Serve | apps/api/src/routes/boards.ts:9 | Every route sits behind the gate: a rejected request changes nothing and answers 401; reads never change the store; NotFound and validation failures change nothing |
| Repository.OtherUsersSeeNotFound | apps/api/src/routes/boards.ts:56-186 | Another user's board is NotFound for get, update, delete and duplicate, and the store is unchanged |
| Repository.ValidationBeforeOwnership | apps/api/src/routes/boards.ts:100-113 | An invalid update body is reported as invalid even for a board the caller cannot see, and changes nothing |
| Repository.UpdateChangesOnlySuppliedFields | apps/api/src/routes/boards.ts:115-123 | For every accepted body: keys outside the schema play no part, a body supplying none of the four fields changes only the update time, an empty thumbnail string is stored, and an empty tag list replaces the tags |
| Repository.DeleteTwice | apps/api/src/routes/boards.ts:132-155 | Delete removes exactly one id, so a second delete of it is NotFound |
| Repository.CreateThenGet | apps/api/src/routes/boards.ts:77-95 | A created board reads back with the submitted data |
| Repository.DuplicateNameMayExceedLimit | apps/api/src/routes/boards.ts:172-182 | Duplicating a board with a 255-character name yields a 262-character name that create and update would reject |
| Repository.OperationsKeepStoreValid | apps/api/src/routes/boards.ts:77-186 | Every mutating route keeps each row filed under its own id |
| Codec.BackupFileName | apps/web/src/utils/export.ts:108 | The backup name is "maplify-backup-" + a prefix of the ISO text without 'T' that ends at its first 'T' or at its end + ".json" |
| Codec.BackupFileNameOfTimestamp | apps/web/src/utils/export.ts:108 | For a timestamp `<date>T<time>` the file name carries exactly `<date>` |
| Codec.ExportEnvelope | apps/web/src/utils/export.ts:54-71 | The single-board envelope; Codec.ExportedFieldsReadBack states that it passes the single-board validator and carries the name, elements, app state, files and tags where the import reads them |
| Codec.ExportFileName | apps/web/src/utils/export.ts:75 | The board's name followed by ".json"; Codec.SingleExportRoundTrip states that the file's content imports back as the board |
| Codec.BackupEnvelope | apps/web/src/utils/export.ts:85-104 | The backup envelope; Codec.BackupEnvelopeShape states the version, the order of the entries and `totalBoards`, and Codec.BackupIsNotSingle that it passes the backup validator iff non-empty |
| Codec.ValidateBoardFile | apps/web/src/utils/import.ts:7-16 | Truthy file, version, board, app state and metadata, with array elements; Codec.MalformedFilesRejected states the rejections and Codec.ExportedFieldsReadBack the acceptance of every export |
| Codec.ValidateMultiBoardFile | apps/web/src/utils/import.ts:21-29 | Truthy file, version and metadata, with a non-empty `boards` array; Codec.BackupIsNotSingle states that a backup passes it iff it holds a board |
| Codec.ParseBoardFile | apps/web/src/utils/import.ts:34-56 | A board comes out iff the text parsed and the single-board validator holds; it has the fresh id and fresh timestamps, name, elements, app state and files read from `board`, and tags from `metadata.tags` |
| Codec.ParseMultiBoardFile | apps/web/src/utils/import.ts:61-83 | Boards come out iff the text parsed, the backup validator holds and no entry is `null` (reading a property of it throws): one per entry, in order, each with the next fresh id, entries otherwise not validated |
| Codec.NullEntryFailsImport | apps/web/src/utils/import.ts:69-81 | A backup whose only entry is `null` passes the validator, yet its parse returns nothing and the import fails |
| Codec.ImportBoardFromFile | apps/web/src/utils/import.ts:107-128 | A single board iff the single parse succeeds; a backup iff the single parse fails and the backup parse succeeds; otherwise failure |
| Codec.ImportedFromTyped | apps/web/src/utils/import.ts:42-51 | An imported export reads back as the original client board with a new id and timestamps and no thumbnail |
| Codec.ExportedFieldsReadBack | apps/web/src/utils/export.ts:56-71 | The single-board envelope validates and carries the board's name, elements, app state, files and tags where the import reads them |
| Codec.SingleExportRoundTrip | apps/web/src/utils/export.ts:54-80 | Exporting one board and importing the file gives the same name, elements, app state, files and tags under a fresh id |
| Codec.ImportIgnoresFileId | apps/web/src/utils/import.ts:42-51 | Two files differing only in `board.id` import identically |
| Codec.MalformedFilesRejected | apps/web/src/utils/import.ts:7-16 | A file without a truthy version, or whose board elements are not an array, yields no single board; without a version the import fails |
| Codec.BackupEnvelopeShape | apps/web/src/utils/export.ts:85-104 | The backup lists the boards in input order with `totalBoards` equal to their count |
| Codec.BackupIsNotSingle | apps/web/src/utils/import.ts:7-29 | A backup never passes the single-board validator, passes the backup validator iff non-empty, and an empty backup fails to import |
| Codec.BackupRoundTrip | apps/web/src/utils/import.ts:61-83 | Importing a non-empty backup yields one board per exported board, in order, each with its own fresh id |
| Codec.BackupEntryReadBack | apps/web/src/utils/export.ts:89-98 | Each backup entry carries the fields the backup import reads |
| Thumbnail.RequestFor | apps/web/src/utils/thumbnail.ts:20-29 | The renderer gets the caller's app state with `exportBackground` true and `exportWithDarkMode` false overriding, the rest kept, bounded to 200 |
| Thumbnail.GenerateThumbnailAsWritten | apps/web/src/utils/thumbnail.ts:9-43 | As written, an empty board or a failed render resolves to nothing; after a successful render the promise resolves to the data URL read, or rejects when reading fails |
| Thumbnail.GenerateThumbnail | apps/web/src/utils/thumbnail.ts:9-43 | An empty board or a failed render gives no thumbnail; otherwise the thumbnail is whatever reading the rendered image gives |
| Thumbnail.CorrectedAgreesWhereCodeResolves | apps/web/src/utils/thumbnail.ts:14-42 | The corrected generator agrees with the code wherever the code resolves, and gives nothing where the code rejects |
| Thumbnail.ReadFailureRejects | apps/web/src/utils/thumbnail.ts:31-38 | A succeeding renderer with a failing reader makes the code as written reject; the corrected one gives no thumbnail |
| Thumbnail.EmptyBoardHasNoThumbnail | apps/web/src/utils/thumbnail.ts:16-18 | An empty board never reaches the renderer: the result does not depend on it |
| Thumbnail.DebouncedGenerateThumbnail | apps/web/src/utils/thumbnail.ts:48-60 | The delayed promise never settles exactly when the immediate one rejects (a rendered image that cannot be read); whenever it settles, it gives the corrected thumbnail |
| BoardsStore.TransformBoardData | apps/web/src/hooks/useBoards.ts:9-16 | Every field is kept, and `elements` (always an array), `appState` and `files` (always truthy) are added |
| BoardsStore.TransformReadsData | apps/web/src/hooks/useBoards.ts:12-14 | `elements` comes from `data` iff an array, else `[]`; `appState` and `files` come from `data` iff truthy, else `{}` |
| BoardsStore.ToWorking | apps/web/src/hooks/useBoards.ts:9-16 | The typed normalisation keeps identity, content and tags, and defaults missing files to the empty map |
| BoardsStore.TransformMatchesTyped | apps/web/src/hooks/useBoards.ts:9-16 | On a well-formed wire board the JSON normalisation equals the typed flattening plus the spread's nested `data` |
| BoardsStore.NewBoardIsEmpty | apps/web/src/hooks/useBoards.ts:78-87 | The new-board payload is accepted iff the name is valid ("Untitled Board" is), and stores an empty board with a white background, font family 1, no files, thumbnail or tags |
| BoardsStore.ChooseBoard | apps/web/src/hooks/useBoards.ts:58-66 | With boards listed, the remembered board is opened when non-empty and listed, else the first; with none, a new board is created |
| BoardsStore.LoadBoards | apps/web/src/hooks/useBoards.ts:51-73 | A failed list only records the error; a successful one replaces the list and chooses the board to open |
| BoardsStore.SelectBoard | apps/web/src/hooks/useBoards.ts:108-122 | A fetched board becomes current and is remembered; a failure only records the error; loading ends either way |
| BoardsStore.CreateBoard | apps/web/src/hooks/useBoards.ts:75-106 | The new board is opened and remembered only when both the create and the list refresh succeed; otherwise the error is recorded |
| BoardsStore.ReloadReopensLastBoard | apps/web/src/hooks/useBoards.ts:58-63 | Loading with a remembered board that is still listed lands on that board |
| BoardsStore.UpdateCurrentBoard | apps/web/src/hooks/useBoards.ts:124-153 | Without an open board, or when the thumbnail rejects, nothing is sent or changed; otherwise the new content and thumbnail are sent; a failed save changes nothing, not even `error`; a successful one replaces the open board and the save time |
| BoardsStore.ReadFailureLosesAutosave | apps/web/src/hooks/useBoards.ts:128-152 | A drawing that renders but whose image cannot be read is never sent, and the store is unchanged |
| BoardsStore.EmptyAutosaveKeepsThumbnail | apps/web/src/hooks/useBoards.ts:130-139 | Autosaving an empty drawing sends no thumbnail, so the server keeps the stored thumbnail and name while replacing the content |
| BoardsStore.RemoveBoard | apps/web/src/hooks/useBoards.ts:181-197 | Failures only record the error; deleting the open board opens the first listed board next, or creates one when the list is empty |
| BoardsStore.RemoveNeverReselectsDeleted | apps/web/src/hooks/useBoards.ts:187-193 | After deleting the open board, the board opened next is a listed board other than the deleted one |
| BoardsStore.ArrayFrom | apps/web/src/hooks/useBoards.ts:204 | `Array.from` copies an array, splits a string into characters and gives nothing for other values |
| BoardsStore.ImportPayload | apps/web/src/hooks/useBoards.ts:199-210 | An imported board is sent with elements defaulting to `[]` and app state to `{}`, and no thumbnail |
| BoardsStore.ImportPayloadOfExport | apps/web/src/hooks/useBoards.ts:201-210 | A re-imported export is sent as the typed create request with the board's content and tags |
| BoardsStore.ImportRecreatesExport | apps/web/src/hooks/useBoards.ts:199-210 | Export then import re-creates the name, content and tags on the server iff the name is valid |
| BoardsStore.ImportBoard | apps/web/src/hooks/useBoards.ts:199-220 | The imported board is opened and remembered when the create and the refresh succeed; any failure only records the error |
| BoardsStore.FirstFailure | apps/web/src/hooks/useBoards.ts:224-235 | The index of the first failed create, with every earlier one successful |
| BoardsStore.ImportRequests | apps/web/src/hooks/useBoards.ts:222-235 | One create per board in order, stopping after the first that fails |
| BoardsStore.ImportBoards | apps/web/src/hooks/useBoards.ts:222-247 | A failed create stops the batch and only records its error; otherwise the list is refreshed and its first board opened |
| BoardsStore.ClearError | apps/web/src/hooks/useBoards.ts:249 | The error is cleared while the list, the open board, the loading flag and the save time are kept |
| Canvas.SanitizeAppState | apps/web/src/components/WhiteboardCanvas.tsx:34-42 | Exactly six keys; background and font family are the board's when truthy, else "#ffffff" and 1; theme, zoom and scroll are copied as they are |
| Canvas.InitialDataFor | apps/web/src/components/WhiteboardCanvas.tsx:22-57 | No board means no canvas; elements are the board's iff an array; files are passed iff truthy with at least one key |
| Canvas.FalsyValuesDefaulted | apps/web/src/components/WhiteboardCanvas.tsx:36-37 | A font family of 0 becomes 1 and an empty colour becomes white, while a falsy scroll position is kept |
| Canvas.SanitizeIdempotent | apps/web/src/components/WhiteboardCanvas.tsx:35-42 | Reducing an already reduced app state changes nothing |
| Canvas.CanvasOfLoadedBoard | apps/web/src/components/WhiteboardCanvas.tsx:30-47 | A board loaded from the server opens with its own elements and files, an empty file map left out |
| Canvas.AutosaveCalls | apps/web/src/hooks/useAutoSave.ts:18-34 | Given the change times and the canvas's re-render times, a change is saved iff it is the last, or the next change comes 5000 ms or more later, or a re-render (which builds a new debounced save without cancelling the old one) comes before the next change; at most one save per change |
| Canvas.QuickEditsSaveOnce | apps/web/src/hooks/useAutoSave.ts:22-34 | Changes closer together than the interval, with no re-render between them, lead to a single save, of the last drawing |
| Canvas.RerenderSavesPendingChange | apps/web/src/components/WhiteboardCanvas.tsx:7-14 | Changes at 0, 5100 and 5300 ms are saved three times when the canvas re-renders at 5200 ms, and twice without that re-render |
| Canvas.AutosaveSendsLatest | apps/web/src/components/WhiteboardCanvas.tsx:10-20 | The last save of a burst hands the store the latest drawing, which is sent as the update's `data` unless its thumbnail rejects |
| Storage.KeysDistinct | apps/web/src/utils/storage.ts:3-8 | The keys never collide, board keys are injective in the id, and all carry the `drawboard_` prefix |
| Storage.GetBoardsList | apps/web/src/utils/storage.ts:20-30 | Nothing, unreadable text, or no `boards` field gives the empty list |
| Storage.SaveBoardMetadata | apps/web/src/utils/storage.ts:35-43 | The saved list reads back, and no other entry changes |
| Storage.FindIndex | apps/web/src/utils/storage.ts:72 | The first index holding the id, or none when no entry has it |
| Storage.Upsert | apps/web/src/utils/storage.ts:71-86 | An existing summary is replaced in place and the others are untouched; a new one is appended |
| Storage.GetBoard | apps/web/src/utils/storage.ts:48-57 | A board comes back iff a readable board is stored under its key |
| Storage.SummaryOf | apps/web/src/utils/storage.ts:73-80 | The summary's tags default to `[]`, it keeps the creation time, and its update time is now |
| Storage.SaveBoard | apps/web/src/utils/storage.ts:62-93 | The board reads back, its summary is upserted, and no other entry changes |
| Storage.Without | apps/web/src/utils/storage.ts:101 | Exactly the summaries with another id are kept |
| Storage.DeleteBoard | apps/web/src/utils/storage.ts:98-106 | The board's entry and every summary with its id are gone, the other summaries keep their order, and no other entry changes |
| Storage.SaveThenDelete | apps/web/src/utils/storage.ts:62-106 | Saving a new board and deleting it restores the summary list and leaves no board entry |
| Storage.Collect | apps/web/src/utils/storage.ts:210-215 | Every exported board is stored under some listed summary's id |
| Storage.CollectKeepsOrder | apps/web/src/utils/storage.ts:210-215 | The boards come in summary order: collecting a concatenation gives the first list's boards, then the second's |
| Storage.CollectOne | apps/web/src/utils/storage.ts:212-214 | One summary contributes its stored board, or nothing when no board is stored under its id |
| Storage.ExportAllBoards | apps/web/src/utils/storage.ts:210-215 | The stored boards of the summary list, in its order; Storage.SavedBoardIsExported states that every saved board is among them |
| Storage.CollectIncludes | apps/web/src/utils/storage.ts:210-215 | Every listed board that is stored is exported |
| Storage.SavedBoardIsExported | apps/web/src/utils/storage.ts:210-215 | A saved board is among the exported ones |
| Storage.GetSettings | apps/web/src/utils/storage.ts:141-150 | Nothing or unreadable text gives {auto, 5000, true}; otherwise each stored field overrides its default |
| Storage.SaveSettings | apps/web/src/utils/storage.ts:155-161 | Saving the settings touches no other entry |
| Storage.SettingsRoundTrip | apps/web/src/utils/storage.ts:141-161 | Saved settings read back unchanged, and the board list and boards are unaffected |
| Storage.GetLastBoardId | apps/web/src/utils/storage.ts:166-168 | The remembered id is the entry's raw text, when present |
| Storage.SaveLastBoardId | apps/web/src/utils/storage.ts:173-175 | The saved id reads back, and no other entry changes |
| Storage.ClearAllData | apps/web/src/utils/storage.ts:180-191 | Exactly the entries whose key starts with `drawboard_` are removed |
| Storage.ClearedStoreIsEmpty | apps/web/src/utils/storage.ts:180-191 | After clearing, every reader sees an empty store with default settings, and clearing again changes nothing |
| Storage.UsedAnyOrder | apps/web/src/utils/storage.ts:115-122 | The usage sum does not depend on the order the keys are visited in |
| Storage.StorageUsed | apps/web/src/utils/storage.ts:111-122 | `used` is the sum of key length plus text length over the entries with non-empty text |
| ThemeStore.SystemTheme | apps/web/src/hooks/useTheme.ts:11-14 | The system theme is dark iff the dark-scheme query matches; without a window it is light |
| ThemeStore.Effective | apps/web/src/hooks/useTheme.ts:17-22 | The effective theme is the chosen one, or the system's when the choice is auto |
| ThemeStore.Init | apps/web/src/hooks/useTheme.ts:24-32 | The store starts from the stored settings' theme, consistent with the system and the page |
| ThemeStore.SetTheme | apps/web/src/hooks/useTheme.ts:53-63 | The theme, the effective theme and the dark class change together; the stored theme is replaced and every other setting kept |
| ThemeStore.SystemChanged | apps/web/src/hooks/useTheme.ts:37-44 | A system change alters the store only when the theme is auto |
| ThemeStore.ConsistencyPreserved | apps/web/src/hooks/useTheme.ts:37-44 | After a system change the store and page stay consistent, and a fixed theme's effective theme is unchanged |
| ThemeStore.NextTheme | apps/web/src/components/Header.tsx:58-62 | The toggle always moves to a different theme |
| ThemeStore.ToggleTheme | apps/web/src/components/Header.tsx:58-62 | Toggling sets the next theme and keeps the store consistent |
| ThemeStore.ToggleCycle | apps/web/src/components/Header.tsx:58-62 | The toggle visits all three themes, and three toggles restore the original |
| AuthStore.Init | apps/web/src/hooks/useAuth.ts:19-23 | The store starts signed out of any user, authenticated iff a non-empty token is stored |
| AuthStore.SignIn | apps/web/src/hooks/useAuth.ts:25-51 | Success stores the user and token and authenticates; failure records the message, leaves the rest, and rethrows |
| AuthStore.Login | apps/web/src/hooks/useAuth.ts:25-37 | A failed login leaves `isAuthenticated` unchanged and rethrows the message |
| AuthStore.Register | apps/web/src/hooks/useAuth.ts:39-51 | A failed registration leaves `isAuthenticated` unchanged and rethrows the message |
| AuthStore.LogoutAsWritten | apps/web/src/hooks/useAuth.ts:53-62 | As written, logout clears the user but drops the token only when the request succeeds |
| AuthStore.Logout | apps/web/src/hooks/useAuth.ts:53-62 | Logout clears the user, `isAuthenticated`, loading and the token, whatever the request's outcome |
| AuthStore.LoadUser | apps/web/src/hooks/useAuth.ts:64-79 | Without a token only `isAuthenticated` is reset; a fetched user is signed in; a failure drops the token and signs out |
| AuthStore.ClearError | apps/web/src/hooks/useAuth.ts:81 | The error is cleared and nothing else changes |
| AuthStore.InvPreserved | apps/web/src/hooks/useAuth.ts:19-81 | Every transition keeps "a user implies authenticated implies a token", given non-empty tokens from the server |
| AuthStore.LogoutFailureKeepsSession | apps/web/src/hooks/useAuth.ts:53-62 | As written, after a failed logout request the next session restore signs the user back in |
| AuthStore.LogoutEndsSession | apps/web/src/hooks/useAuth.ts:53-62 | With the corrected logout no session survives a restore, whatever the server answers |
| Sidebar.FilterBoards | apps/web/src/components/BoardSidebar.tsx:27-32 | A board is kept iff its lower-cased name, or some lower-cased tag, contains the lower-cased query |
| Sidebar.FilterBoardsOrder | apps/web/src/components/BoardSidebar.tsx:27-32 | The filter distributes over concatenation, so it keeps the list order, and the empty query keeps every board |
| Sidebar.MatchIgnoresCase | apps/web/src/components/BoardSidebar.tsx:28-30 | Lower-casing the query first changes nothing |
| Sidebar.TagChips | apps/web/src/components/BoardSidebar.tsx:146-160 | At most the first two tags are shown, plus "+N" iff there are more, with shown + N equal to the tag count |
| Sidebar.RenameTo | apps/web/src/components/BoardSidebar.tsx:182-187 | A rename is sent iff the prompt was answered with a non-blank text, and then with the trimmed text |
| Sidebar.RenameAcceptedUpToLimit | apps/web/src/components/BoardSidebar.tsx:183-186 | A rename the sidebar sends is accepted by the server iff the trimmed name has at most 255 characters |
| Sidebar.ExportAll | apps/web/src/components/BoardSidebar.tsx:34-39 | A backup file is produced iff the legacy storage yields at least one listed, stored board, and it holds exactly those boards |
| Sidebar.ExportAllIsImportable | apps/web/src/components/BoardSidebar.tsx:34-39 | Every file the sidebar exports imports back as a backup |
| Sidebar.HandleImport | apps/web/src/components/BoardSidebar.tsx:41-67 | No file does nothing; a backup goes to the batch import, a single board to the single import, anything else is an invalid file |
| Sidebar.SingleExportImportsOne | apps/web/src/components/BoardSidebar.tsx:47-54 | A one-board export file is dispatched to the single import with that board's content |
| Dashboard.FilterBoards | apps/web/src/components/Dashboard.tsx:40-42 | A board is kept iff its lower-cased name contains the lower-cased query; tags play no part |
| Dashboard.FilterBoardsRelations | apps/web/src/components/Dashboard.tsx:40-42 | The filter keeps order and every board on the empty query, and keeps the sidebar's result narrowed to name matches |
| Dashboard.CountNoun | apps/web/src/components/Dashboard.tsx:69 | The label is "board" exactly when there is one board, else "boards" |
| Dashboard.CreateWith | apps/web/src/components/Dashboard.tsx:27-30 | A board is created iff the prompt returns a non-empty name, which is used untrimmed |
| Header.HandleExport | apps/web/src/components/Header.tsx:24-56 | No open board changes nothing; otherwise the busy flag ends cleared, a failure is alerted, and a JSON export writes the board's envelope as "name.json" |
| Header.ExportReenablesButton | apps/web/src/components/Header.tsx:92 | The button is disabled without a board, and enabled again after every export while the board stays open |

## Left out

- HTTP, the API client (`fetch`, headers, error texts), the database and object storage are not modelled. Each server call is an `ApiResult` input, and the database is an in-memory map.
- Server bootstrap (CORS, helmet, health probes, signals) and the application error handler are not modelled. The error handler decides the status of a validation failure, so `Repository.Status` leaves it open.
- Repository.Update: the update time is set to the request time, on the assumption that the database schema maintains `updatedAt`; that schema is not part of this model.
- Repository.List: boards with equal update times may come in any order, since the database's tie-break is unknown. Only "newest first" is stated.
- Fresh ids are parameters: `freshId !in store` on the server, and an `IdSource` that `generateId` draws from on import. Their generators are not part of this model.
- JSON text parsing and printing are not modelled. Files are `FileText` (a syntax error or a value), and storage entries carry their text and their parsed document side by side.
- Storage.GetBoard: any stored JSON that is not a board reads as nothing, whereas the code returns whatever value was parsed.
- Storage.GetSettings: only the three known fields are merged over the defaults, and each only when it has its declared type. The code spreads whatever was parsed, so an ill-typed field (`{"theme":"purple"}` gives theme "purple") or an unknown key is carried along. The typed `Settings` cannot hold such values.
- Storage.GetBoardsList: a stored `boards` field that is truthy but not a list of summaries (`{"boards":5}` gives 5) cannot be represented; the model reads it as the empty list.
- Storage.StorageUsed: `percentUsed` and `usedMB` are floating point and are not modelled; only the integer `used` is.
- Storage: quota-exceeded errors and their alerts are not modelled.
- Strings.ToLower: lower-cases ASCII letters only, and string lengths count characters rather than UTF-16 code units.
- BoardsStore.ArrayFrom: array-like objects with a `length` property are treated as giving no elements.
- The store actions `renameBoard` and `duplicateBoard` only forward to the server and refresh the list. They are covered by `Repository.Update`, `Repository.Duplicate` and `Sidebar.RenameTo`, not modelled as store transitions.
- The `debounce` helper (apps/web/src/utils/helpers.ts) is not part of this model. `Canvas.AutosaveCalls` assumes the usual trailing debounce, where each call restarts the timer. A change that arrives exactly when the timer is due is taken to come after the save. The unmount cleanup of `useAutoSave` is not modelled.
- Canvas.AutosaveCalls: when the canvas re-renders is an input. The store updates that cause re-renders, such as the `set` after a successful save, are not derived from the saves.
- Thumbnail.DebouncedGenerateThumbnail: the delay only postpones the outcome and is not modelled.
- Excalidraw rendering, PNG/SVG export, `FileReader` and `file-saver` are external. The renderer and reader are opaque functions, and whether an export succeeds is an input to `Header.HandleExport`.
- Alerts and messages with counts ("Successfully imported N boards!", "+N" rendering) are not modelled as text; `Sidebar.TagChips` gives N as a number.
- Navigation after creating a board on the dashboard (`onBoardSelect`) is not modelled.
- UI pages, dialogs and routing (landing page, auth and settings dialogs, route pages) are not modelled.
- Floating-point timestamps and ISO date text are not modelled: timestamps are integers, and only the backup file name works on ISO text.

## Findings

| source | as written | input that shows it | evidently intended | confidence | as-written member | corrected member |
|---|---|---|---|---|---|---|
| apps/web/src/utils/thumbnail.ts:31-38 | The data-URL promise is returned from inside `try` without `await`, so a `FileReader` error rejects the returned promise instead of reaching the `catch` | a non-empty board whose render succeeds and whose image read fails; the autosave awaiting it then sends nothing (apps/web/src/hooks/useBoards.ts:130, 149-152), and the debounced variant never settles | every failure resolves to `undefined`, as the `catch` at lines 39-42 does for render failures | not executed | Thumbnail.GenerateThumbnailAsWritten (shown by Thumbnail.ReadFailureRejects) | Thumbnail.GenerateThumbnail (related by Thumbnail.CorrectedAgreesWhereCodeResolves) |
| apps/web/src/hooks/useAuth.ts:53-62 | `api.logout` (apps/web/src/lib/api.ts:65-68) clears the token only after a successful request; the store's failure branch clears only its own fields | a signed-in user whose logout request fails; the next `loadUser` finds the token and signs the user back in | "Still clear local state even if API call fails": the token is cleared too | not executed | AuthStore.LogoutAsWritten (shown by AuthStore.LogoutFailureKeepsSession) | AuthStore.Logout (proved by AuthStore.LogoutEndsSession) |
