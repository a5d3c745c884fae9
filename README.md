# IDC PWA stores, modelled in Dafny

This project models the state layer of a data-centre operations web app.
It covers seven stores, one service and one lookup function.

The five CRUD stores (assets, inspections, tasks, work orders and tags)
each hold an in-memory list of records with a `nextId` counter. Every
change is saved to the store's one browser storage key. Assets add a
borrow/return state machine with an append-only log and a case-insensitive
keyword search.

The notification store holds the same kind of list and counter, plus an
`error` and confirmation statistics. It normalises loosely shaped records
from a service or from its storage key, counts confirmations, marks
everything read, and seeds demonstration data. `add`, `confirm` and
`markAllRead` save the list to its key. `load` saves only a list fetched
from the service. `seedIfEmpty` saves nothing.

The authentication store has no list of records and no counter. It holds a
registry of users, saved under `idc-users`, and the logged-in user, saved
under `idc-current` or removed from it on logout.

Besides the stores, the model covers:
- the mock notification service the notification store talks to. It keeps
  its own list of `{ id, message, confirmed }` records in storage.
- the translation lookup `t(path)`.

Layout:

- `common.dfy`: `Option`, `Outcome`, `Result`, and the timestamp type.
- `seqs.dfy`: `filter`, `findIndex`, and the max-id `reduce`.
- `storage.dfy`: one storage key as a `Slot` class. A slot holds nothing,
  text that fails to parse, or a value. It may reject writes.
- `entity_store.dfy`: the CRUD engine, written once as a generic class.
- `assets.dfy`, `inspections.dfy`, `tasks.dfy`, `orders.dfy`, `tags.dfy`: one
  wrapper class per store around the engine, with the store's record type
  and its record-building functions.
- `notifications.dfy`, `notification_service.dfy`, `auth.dfy`, `locale.dfy`.
- `js_text.dfy`: `trim`, `toLowerCase`, `includes` and number printing.

Storage writes can fail. This is modelled wherever the code lets it happen:
- In the asset, task, order and tag stores, a failing write escapes the
  action.
- The inspection store swallows it.
- In the notification store, `add` and `confirm` keep it in `error` and
  never raise. `markAllRead` lets it escape. When `load` fails to save the
  fetched list, it falls back to the records in its own key.
- In the service and the auth store it becomes an error result.

The outcome of each notification-service call is an input of the action
that makes it.

Behaviour of the code worth knowing:
- Loading in the five CRUD stores (assets, inspections, tasks, orders,
  tags) does no migration of older record shapes and no re-save. The
  notification store does both: `load` passes every record through
  `fromService`, which maps `date` to `createdAt`, `name` or `message` to
  `title`, `content` to `message`, and a numeric `confirmed` to a count.
  It then saves the fetched list.
- Inspections have no `items` or `abnormal` count.
- An absent storage key leaves a CRUD store unchanged rather than resetting
  it.
- Only the inspection store discards write failures. The notification
  store's `add` and `confirm` keep them in `error`.
- A normalised notification can be confirmed with count 0.
  `Notifications.FlagAndCountIndependent` exhibits this.
- Tasks have no `scheduleNext`.

## Model

| member | source | states |
|---|---|---|
| Seqs.Filter | src/stores/useAssetStore.ts:78 | every kept element comes from the list and passes the test; every passing element is kept |
| Seqs.FilterConcat | src/stores/useAssetStore.ts:78 | filtering a concatenation is concatenating the filters, so the kept records stay in their original order |
| Seqs.FilterKeepsAll | src/stores/useAssetStore.ts:78 | a filter that every element passes returns the list unchanged |
| Seqs.FindIndex | src/stores/useAssetStore.ts:70 | -1 exactly when no record carries the id; otherwise the first record that does |
| Seqs.MaxIdFrom | src/stores/useAssetStore.ts:45 | the reduce gives the least upper bound of the start value and every id |
| Seqs.NextIdAfter | src/stores/useAssetStore.ts:45-46 | `max + 1` is at least 1, above every id, and is 1 or one past an existing id |
| Storage.Slot.Set | src/stores/useAssetStore.ts:54-56 | `setItem` stores the value, or throws and leaves the key as it was; each call counts as one write |
| Storage.Slot.Remove | src/stores/useAuthStore.ts:62 | `removeItem` leaves the key absent without a write |
| EntityStore.Store.constructor | src/stores/useAssetStore.ts:32-37 | a new store is empty with `nextId` 1 |
| EntityStore.Store.Load | src/stores/useAssetStore.ts:40-52 | an absent key changes nothing; a parse failure resets to empty with `nextId` 1; otherwise the stored list with `nextId = max(id) + 1`, which is above every id |
| EntityStore.Store.Save | src/stores/useInspectionStore.ts:54-60 | one write of the list; the failure escapes unless the store catches write errors |
| EntityStore.Store.Add | src/stores/useAssetStore.ts:58-66 | appends the record built from the old `nextId`, increments `nextId`, saves once, and keeps `nextId` above every id |
| EntityStore.Store.Update | src/stores/useAssetStore.ts:69-75 | a missing id changes nothing and writes nothing; otherwise only the first record with the id is replaced, then one save |
| EntityStore.Store.Remove | src/stores/useAssetStore.ts:77-80 | keeps exactly the records without the id, in order; saves once; keeps `nextId` above every id |
| EntityStore.RemoveDropsExactly | src/stores/useAssetStore.ts:77-80 | after remove no record has the id, every record without it survives, and removing an absent id changes nothing |
| EntityStore.RemoveFirstOfTwo | src/stores/useTaskStore.ts:91-94 | removing the first of two records with distinct ids leaves only the second |
| Assets.NewAsset | src/stores/useAssetStore.ts:58-64 | the new asset has the given id and empty logs; its status is the caller's or else available; every caller field survives |
| Assets.MergeLaws | src/stores/useAssetStore.ts:72 | `Merge`, the `{ ...list[idx], ...data }` spread: the shallow merge with an empty patch is the identity, is idempotent, and keeps the id unless the patch names one |
| Assets.BorrowedBy | src/stores/useAssetStore.ts:82-92 | borrow sets borrower, borrow time and status borrowed, appends exactly one borrow log, and changes nothing else |
| Assets.Returned | src/stores/useAssetStore.ts:94-107 | return sets the return time, clears borrower and borrow time, and sets status available; it appends a return log naming the previous borrower only when one was set |
| Assets.TransitionsKeepConsistency | src/stores/useAssetStore.ts:82-107 | after borrow or return, status is borrowed exactly when a borrower is set; both only append to the log |
| Assets.BorrowThenReturn | src/stores/useAssetStore.ts:82-107 | borrow then return makes the asset available again with exactly the two logs, both naming the borrower |
| Assets.ReborrowOverwrites | src/stores/useAssetStore.ts:82-92 | nothing guards a second borrow: it overwrites the borrower and logs a second borrow |
| Assets.AssetStore.constructor | src/stores/useAssetStore.ts:32-37 | the asset store starts empty with `nextId` 1 |
| Assets.AssetStore.Load | src/stores/useAssetStore.ts:40-52 | absent changes nothing; a parse failure resets; otherwise `nextId = max(id) + 1` |
| Assets.AssetStore.Add | src/stores/useAssetStore.ts:58-66 | appends `NewAsset(nextId, data)`, increments `nextId`, writes once, and a failing write escapes |
| Assets.AssetStore.Update | src/stores/useAssetStore.ts:69-75 | a missing id is a no-op; otherwise only that asset is shallow-merged, then saved |
| Assets.AssetStore.Remove | src/stores/useAssetStore.ts:77-80 | keeps every other asset in order and drops all assets with the id |
| Assets.AssetStore.Borrow | src/stores/useAssetStore.ts:82-92 | a missing id is a no-op; otherwise the first asset with the id is borrowed, then saved |
| Assets.AssetStore.ReturnAsset | src/stores/useAssetStore.ts:94-107 | a missing id is a no-op; otherwise the first asset with the id is returned, then saved |
| Assets.AssetStore.Search | src/stores/useAssetStore.ts:109-114 | every result is a listed asset that has a non-empty searched field containing the trimmed, lower-cased keyword; every such asset is returned |
| Assets.AddTwiceFromEmpty | src/stores/useAssetStore.ts:58-66 | two adds on an empty store give ids 1 and 2 with exactly one write each |
| Assets.SearchFindsLaptop | src/stores/useAssetStore.ts:109-114 | searching 'lap' over a laptop and a server rack returns the laptop only |
| Assets.KeywordLap | src/stores/useAssetStore.ts:110 | 'lap' is its own trimmed, lower-cased keyword |
| Assets.LaptopMatches | src/stores/useAssetStore.ts:111-113 | an asset named 'Laptop' matches 'lap' case-insensitively |
| Assets.RackDoesNotMatch | src/stores/useAssetStore.ts:111-113 | an asset named 'Server Rack' with no other text does not match 'lap' |
| JsText.TrimStart | src/stores/useAssetStore.ts:110 | a suffix of the input that does not start with white space; only white space was dropped |
| JsText.TrimEnd | src/stores/useAssetStore.ts:110 | a prefix of the input that does not end with white space; only white space was dropped |
| JsText.LowerIdempotent | src/stores/useAssetStore.ts:110 | lower-casing twice is lower-casing once |
| JsText.TrimAfterLower | src/stores/useAssetStore.ts:110 | a trimmed keyword stays trimmed once lower-cased, because lower-casing neither makes nor removes white space |
| Assets.KeywordIdempotent | src/stores/useAssetStore.ts:110 | normalising a keyword (`trim` then `toLowerCase`) twice is normalising it once |
| Assets.SearchNormalisedKeyword | src/stores/useAssetStore.ts:109-114 | searching with an already normalised keyword returns the same assets, in the same order, as searching with the raw keyword |
| JsText.Includes | src/stores/useAssetStore.ts:113 | `includes` holds exactly when the keyword occurs at some position |
| Inspections.NewInspection | src/stores/useInspectionStore.ts:65-70 | the new inspection has the given id, is not synced, and keeps the caller's title, notes and date |
| Inspections.MergeLaws | src/stores/useInspectionStore.ts:81 | `Merge`, the `{ ...list[idx], ...data }` spread: the shallow merge with an empty patch is the identity, is idempotent, and keeps the id unless the patch names one |
| Inspections.InspectionStore.constructor | src/stores/useInspectionStore.ts:26-31 | the inspection store starts empty with `nextId` 1 |
| Inspections.InspectionStore.Load | src/stores/useInspectionStore.ts:37-50 | malformed data does not throw and yields an empty list with `nextId` 1; valid data gives `nextId = max(id) + 1`; absent changes nothing |
| Inspections.InspectionStore.Save | src/stores/useInspectionStore.ts:54-60 | one write attempt whose failure is swallowed |
| Inspections.InspectionStore.Add | src/stores/useInspectionStore.ts:65-73 | appends the new inspection with `id = nextId++` and never raises, even when the write fails |
| Inspections.InspectionStore.Update | src/stores/useInspectionStore.ts:78-84 | silently ignored for a missing id; otherwise only that record is shallow-merged |
| Inspections.InspectionStore.Remove | src/stores/useInspectionStore.ts:88-91 | drops the id and keeps the rest in order |
| Inspections.AddWithFailingStorage | src/stores/useInspectionStore.ts:54-73 | with storage that rejects writes, `add` still holds the new inspection in memory and the key keeps its old content |
| Tasks.NewTask | src/stores/useTaskStore.ts:67-73 | the new task has the given id, is created now, is not synced, and keeps the caller's title, status and due date |
| Tasks.MergeLaws | src/stores/useTaskStore.ts:84 | `Merge`, the `{ ...list[idx], ...data }` spread: merging title, status and due date sets exactly those; the empty merge is the identity; merging is idempotent |
| Tasks.TaskStore.constructor | src/stores/useTaskStore.ts:27-37 | the task store starts empty with `nextId` 1 |
| Tasks.TaskStore.Load | src/stores/useTaskStore.ts:43-56 | `nextId = max(id) + 1`; a parse failure resets to empty with `nextId` 1 |
| Tasks.TaskStore.Add | src/stores/useTaskStore.ts:67-76 | appends `NewTask(nextId, now, data)`, increments `nextId`, and keeps `nextId` above every id |
| Tasks.TaskStore.Update | src/stores/useTaskStore.ts:81-87 | merges into the matching task, and is a no-op when the task is absent |
| Tasks.TaskStore.Remove | src/stores/useTaskStore.ts:91-94 | filters out the id in order, and keeps `nextId` above every id |
| Tasks.AddTwoRemoveFirst | src/stores/useTaskStore.ts:67-94 | two adds and removing the first task leave only the second |
| Orders.NewOrder | src/stores/useOrderStore.ts:44-50 | the new order has the given id, is created now, is not synced, and keeps priority, reporter, status and every other caller field |
| Orders.MergeLaws | src/stores/useOrderStore.ts:57 | `Merge`, the `{ ...list[idx], ...data }` spread: the shallow merge with an empty patch is the identity, is idempotent, and keeps the id unless the patch names one |
| Orders.OrderStore.constructor | src/stores/useOrderStore.ts:23-26 | the order store starts empty with `nextId` 1 |
| Orders.OrderStore.Load | src/stores/useOrderStore.ts:28-40 | `nextId = max(id) + 1` on success; a parse failure resets to empty with `nextId` 1 |
| Orders.OrderStore.Add | src/stores/useOrderStore.ts:44-53 | appends `NewOrder(nextId, now, data)` and increments `nextId` |
| Orders.OrderStore.Update | src/stores/useOrderStore.ts:54-60 | a missing id does nothing; otherwise only that record is shallow-merged |
| Orders.OrderStore.Remove | src/stores/useOrderStore.ts:61-64 | filters out the id and preserves order |
| Tags.NewTag | src/stores/useTagStore.ts:48-53 | the new tag has the given id, is created now, and keeps name and description |
| Tags.MergeLaws | src/stores/useTagStore.ts:64 | `Merge`, the `{ ...list[idx], ...data }` spread: renaming changes the name only; the empty merge is the identity; merging is idempotent |
| Tags.TagStore.constructor | src/stores/useTagStore.ts:17-20 | the tag store starts empty with `nextId` 1 |
| Tags.TagStore.Load | src/stores/useTagStore.ts:26-38 | the next id comes from the highest existing id; a parse failure resets |
| Tags.TagStore.Add | src/stores/useTagStore.ts:48-56 | appends `NewTag(nextId, now, data)` and increments `nextId` |
| Tags.TagStore.Update | src/stores/useTagStore.ts:61-67 | merges into the matching tag and leaves the others unchanged |
| Tags.TagStore.Remove | src/stores/useTagStore.ts:71-74 | keeps every other tag in order |
| Tags.AddTwoRemoveFirst | src/stores/useTagStore.ts:48-74 | two adds and removing the first tag leave only the second |
| NotificationService.Read | src/services/notificationService.ts:9-19 | `read` gives `[]` for an absent or unparseable key, and otherwise the stored list |
| NotificationService.Write | src/services/notificationService.ts:21-23 | after a successful write, `read` returns the written list; a failing write throws and keeps the key |
| NotificationService.ConfirmAt | src/services/notificationService.ts:49 | the entry at the index is confirmed and every other entry is unchanged |
| NotificationService.ConfirmTwiceIsConfirmOnce | src/services/notificationService.ts:44-51 | after a confirmation the same id is found at the same index, and confirming again changes nothing |
| NotificationService.PostNotification | src/services/notificationService.ts:32-40 | the new record gets id `max + 1` (1 when empty), above every stored id; it is appended, written and returned; a failing write throws |
| NotificationService.ConfirmNotification | src/services/notificationService.ts:42-52 | a missing id throws 'Notification not found' and writes nothing; otherwise only that entry is confirmed, written and returned |
| NotificationService.ConfirmTwice | src/services/notificationService.ts:42-52 | confirming an id twice returns the same record and leaves the key as one confirmation did |
| Notifications.FromService | src/stores/useNotificationStore.ts:31-74 | total: every loose record gets title, message, createdAt, read and both confirmation fields, with `date` equal to `createdAt` |
| Notifications.FromServiceChains | src/stores/useNotificationStore.ts:31-69 | the id is a numeric `id` or the fallback; createdAt is createdAt, then date, then now; title is title, name, message, then `通知 #id`; message is message, content, then ''; read is a boolean `read`, else false; publisher and type are kept when they are strings |
| Notifications.ConfirmationRules | src/stores/useNotificationStore.ts:49-57 | confirmed is a boolean `confirmed`, else a 'confirmed' or 'done' status, else false; the count is a numeric `confirmedCount`, else a numeric `confirmed`, else 1 or 0 |
| Notifications.NumericConfirmedIsACount | src/stores/useNotificationStore.ts:49-57 | `{ confirmed: 3 }` normalises to confirmed false with count 3 |
| Notifications.FlagAndCountIndependent | src/stores/useNotificationStore.ts:49-57 | `confirmed: true` with count 0 stays so, so confirmed does not imply count at least 1 |
| Notifications.FromServiceKeepsCanonical | src/stores/useNotificationStore.ts:31-74 | the stored form of a canonical notification normalises back to itself |
| Notifications.FromServiceIdempotent | src/stores/useNotificationStore.ts:31-74 | `fromService` applied to its own output returns the same record |
| Notifications.NormalizeAll | src/stores/useNotificationStore.ts:120 | one canonical notification per element |
| Notifications.NormalizeEncoded | src/stores/useNotificationStore.ts:119-122 | reading back what `save` wrote restores the same canonical list |
| Notifications.StatsOf | src/stores/useNotificationStore.ts:102-107 | one line per notification with its id, a non-empty title, its effective count and no unconfirmed names |
| Notifications.Confirmed | src/stores/useNotificationStore.ts:231-232 | confirmed, with the effective count one higher and every other field unchanged |
| Notifications.UnreadIn | src/stores/useNotificationStore.ts:86-88 | the number of unread notifications, counted one by one; at most the list length, and 0 exactly when every notification is read |
| Seqs.FilterLength | src/stores/useNotificationStore.ts:87 | the length of a filter is the number of elements that pass |
| Notifications.AllRead | src/stores/useNotificationStore.ts:245 | nothing is unread afterwards, and no field but `read` changes |
| Notifications.Posted | src/stores/useNotificationStore.ts:159-168 | the service's record after `fromService` and the fix-ups is the local record under the service's id: titled and worded by the message, stamped now, unread, unconfirmed, count 0 |
| Notifications.FromRecord | src/stores/useNotificationStore.ts:186-196 | a record added locally has the given id, is created now, and is unread and unconfirmed with count 0, whatever the caller passed; its title, message, publisher and type follow the caller's record by the `fromService` chains |
| Notifications.StampedFlags | src/stores/useNotificationStore.ts:186-196 | the stamped id, time and flags override the caller's |
| Notifications.StampedTexts | src/stores/useNotificationStore.ts:186-196 | title, message, publisher and type come from the caller's record |
| Notifications.NotificationStore.constructor | src/stores/useNotificationStore.ts:77-84 | empty list, `nextId` 1, no error, no stats |
| Notifications.NotificationStore.Load | src/stores/useNotificationStore.ts:92-139 | fetched records are normalised and saved. When the fetch or that save fails, it falls back to the key: absent empties the store, a parse failure empties it and sets `error`, stored records are normalised with fallback id idx+1. Then `nextId = max(id) + 1` and stats follow the list. It makes one write when the fetch succeeded and none on the fallback path alone |
| Notifications.NotificationStore.Save | src/stores/useNotificationStore.ts:141-143 | one write of the list's stored form |
| Notifications.NotificationStore.SaveAndCount | src/stores/useNotificationStore.ts:201-212 | after the save, either `error` holds the write failure and stats are untouched, or stats are recomputed |
| Notifications.NotificationStore.AddMessage | src/stores/useNotificationStore.ts:156-183 | appends exactly one unread, unconfirmed notification: under the service's id with `nextId = max(nextId, id + 1)`, or under `nextId++`; `nextId` ends above the new id |
| Notifications.NotificationStore.AddRecord | src/stores/useNotificationStore.ts:184-199 | appends `FromRecord(arg, nextId)`, increments `nextId` past it, and keeps `nextId` above every id |
| Notifications.NotificationStore.Confirm | src/stores/useNotificationStore.ts:218-241 | the first notification with the id is confirmed once more; a missing id leaves the list unchanged; a service failure is not reported; `error` holds only a write failure |
| Notifications.NotificationStore.MarkAllRead | src/stores/useNotificationStore.ts:244-247 | every entry is marked read and nothing else changes, so the unread count becomes 0 |
| Notifications.NotificationStore.SeedIfEmpty | src/stores/useNotificationStore.ts:250-264 | an empty store gets the two demonstration notifications, `nextId` 3 and the demonstration stats; a non-empty store is untouched; nothing is saved |
| Notifications.ConfirmTwice | src/stores/useNotificationStore.ts:231-232 | two confirmations raise the effective count by two and leave the notification confirmed |
| Notifications.SeedState | src/stores/useNotificationStore.ts:253-257 | the seeded ids are below 3 and both seeded notifications are unread |
| Notifications.ReloadRestores | src/stores/useNotificationStore.ts:112-128 | saving a loaded store and loading it again from storage alone restores the same list and `nextId` |
| Auth.FindLogin | src/stores/useAuthStore.ts:90 | a user is found exactly when some user has both the username and the password; the first such user is returned |
| Auth.AuthStore.constructor | src/stores/useAuthStore.ts:9-21 | nobody is registered and nobody is logged in |
| Auth.AuthStore.Load | src/stores/useAuthStore.ts:28-46 | each key on its own: absent keeps the field; a parse failure resets users to [] or the user to null; otherwise the stored value |
| Auth.AuthStore.SaveUsers | src/stores/useAuthStore.ts:51-53 | one write of the registry; a failing write throws |
| Auth.AuthStore.SaveCurrent | src/stores/useAuthStore.ts:58-64 | writes the logged-in user, or removes the key when nobody is logged in |
| Auth.AuthStore.Register | src/stores/useAuthStore.ts:73-83 | a taken username throws and changes nothing. Otherwise the user is appended and logged in as `{ username, role }`, and usernames stay pairwise distinct |
| Auth.AuthStore.Login | src/stores/useAuthStore.ts:89-97 | true exactly when some user matches both username and password, then the first match becomes the current user; false changes nothing |
| Auth.AuthStore.Logout | src/stores/useAuthStore.ts:101-104 | nobody is logged in and the stored current user is removed; no write is made |
| Auth.RegisterLogoutLogin | src/stores/useAuthStore.ts:73-104 | a newly registered user can log out and log back in, and is then the current user |
| Locale.Split | src/locales/index.ts:10 | at least one piece, none containing a dot |
| Locale.JoinSplit | src/locales/index.ts:10 | joining the pieces with dots gives the path back |
| Locale.SplitJoin | src/locales/index.ts:10 | splitting dot-joined, dot-free keys gives the keys back |
| Locale.T | src/locales/index.ts:9-17 | the loop walks the keys in order from the root and returns '' at the first missing key, otherwise the value reached |
| Locale.WalkAppend | src/locales/index.ts:12-15 | walking `a + b` walks `a` then `b`; once a key of `a` is missing no key of `b` is looked at |
| Locale.MissingKeyGivesEmpty | src/locales/index.ts:13-14 | a missing key anywhere along the path makes `t` return '' whatever follows |
| Locale.PresentKeysGiveEntry | src/locales/index.ts:16 | when every key is present, `t` returns the value after the last key |
| Locale.SingleSegment | src/locales/index.ts:9-17 | a path without dots returns the top-level entry, or '' when it is absent |
| Locale.NavHome | src/locales/index.ts:9-17 | `t('nav.home')` over `{ nav: { home: '首页' } }` is '首页' |
| Locale.NavMissing | src/locales/index.ts:12-14 | `t('nav.none.deeper')` over the same catalogue is '' |

## Left out

- JSON text is not modelled. A storage key holds nothing, text that fails to parse, or a value. `JSON.parse`/`stringify`, and a parseable payload of the wrong shape, are abstracted. For the CRUD stores, a non-array payload makes `reduce` throw, which the model counts as a parse failure. Stored elements are assumed to have the record type.
- Numbers are unbounded integers: NaN, fractional and non-numeric ids are not modelled, and neither is `Math.max` meeting them.
- The clock is an input. `new Date().toISOString()` is one `now` per action, so the separate clock reads inside one `load` or `add` are the same instant.
- Async calls, `delay`, timers and the `loading` flags are not modelled. Each notification-service outcome is an input of the store action (`fetched`, `posted`). `confirm` ignores the service outcome, as the code does.
- Notifications.NotificationStore.AddMessage: the service's answer is the mock service's record `{ id, message, confirmed: false }`, given by its id. Answers of other shapes are not modelled.
- The notification service and the notification store use the same key `idc-notifications`. The model gives them separate slots, so it does not capture one overwriting the other's data.
- `e?.message || String(e)` is modelled as the failure's message; an error with an empty message is not told apart.
- `console.error` logging in the inspection store is not modelled.
- Pinia reactivity, and the object aliasing of `list.find` followed by in-place field writes, are modelled as replacing the record at its index.
- `toLowerCase` maps ASCII letters only. Other cased scripts are left as they are.
- Strings are sequences of code points, not UTF-16 code units.
- Update patches can clear optional fields (`Some(None)`), but cannot set a required field to `undefined`.
- The catalogue of `t` is a parameter, because `zh.json` is not part of this model. The locale is fixed.
- `t` does not model property access on a string (`'abc'['0']`, `length`) or `null` entries in the catalogue; a text has no children.
- Auth does not validate the shape of stored users or of the stored current user.
- `useServerStore`, the router and its guard, `main.ts`, `vite.config.ts`, the placeholder services module, and the component tests are UI wiring, not store logic.
- Tests that expect behaviour the code lacks are not modelled: `scheduleNext`, English asset statuses, and an error on confirming a missing notification.
