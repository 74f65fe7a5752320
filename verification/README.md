# DiscoverSphere storage core in Dafny

DiscoverSphere is an SMS assistant that recommends attractions. Its storage
code consists of two small sequential cores, and this project models both as
pure functions over immutable values:

- **The user tracker** (`UserTracker` in `modules/storage.py`). It maps a phone
  number to a profile record. `add_user` creates a default record and does
  nothing if the number is already there. `update_user_info` merges keyword
  arguments into a known user's record with `dict.update` semantics and
  ignores unknown users. `get_user_info` returns the record, or `None` for an
  unknown number. Module `UserTracking`.
- **The raw-message store** (`modules/storage_manager.py`). The store is one
  JSON file, modelled as a single abstract value `Store` that is `NoFile` or
  `File(content)`. `init_storage` creates it holding `{}` only when it is
  missing. `save_message` replaces the whole content. `get_all_messages` reads
  it back. `save_messages_api` fetches the API result with `read_messages`, a dict
  from sender to a list of messages; the model takes that result as a
  parameter. The function turns it into a dict from sender to that sender's last
  message. It skips senders whose value is not a list, ignores empty lists,
  and saves only a non-empty result. Module `StorageManager`.

JSON values (API results, stored messages, and also profile fields) are the
`JsonValues.Json` datatype. A Python dict is a `map<string, Json>`; dict
equality ignores key order, and so does map equality. `Results` holds the
`Option` and `Result` wrappers: `None` returns and raised exceptions become
values.

The flattening loop is modelled twice. `StorageManager.FlattenApiMessages` is
the loop itself: a method that visits the senders in any order, with loop
invariants. `StorageManager.Flatten` is a reference definition, and the
method is proved equal to it. `SaveMessagesApi` is written with the reference
definition, so the lemmas about whole polls can use it.

`save_messages_api` calls `read_messages` from the top-level
`messages_manager.py`. The program runs from the repository root, so that is
the module the import finds. It returns the decoded body on status 200 and an
empty list otherwise. `StorageManager.ReadMessages` models that mapping, and
it shows that a failed fetch never reaches the store.

The message store keeps only the last message of each sender, not every
message the API returned (`modules/storage_manager.py:58-61`).

`main.py` calls `ux.get_received_messages_api`, `ux.filter_new_messages` and
`ux.process_new_message`, which `modules/user_interaction.py` does not
define. Deduplication of new messages, command handling and the per-user
conversation flow are therefore not part of this model.

## Model

| member | source | states |
|---|---|---|
| `UserTracking.NewTracker` | modules/storage.py:12-13 | a fresh tracker knows no number, so every lookup is None, and it is well formed |
| `UserTracking.AddUser` | modules/storage.py:15-22 | the numbers afterwards are the old ones plus `p`; a known `p` leaves the tracker unchanged; a new `p` gets the default record (`last_location`, `last_attraction_type` and `last_sent_attraction` null, `attractions` empty); every other number keeps its record; well-formedness is preserved |
| `UserTracking.UpdateUserInfo` | modules/storage.py:24-26 | for keyword arguments Python can bind (none named `self` or `phone_number`): an unknown number leaves the tracker unchanged and is not created; the set of numbers never changes; for a known number, the record's keys are its old keys plus the supplied ones, every supplied key takes its new value, every other key keeps its old value; other users are unchanged; well-formedness is preserved |
| `UserTracking.GetUserInfo` | modules/storage.py:28-32 | returns Some exactly when the number is tracked, and then the stored record; None otherwise |
| `UserTracking.GetAfterAdd` | modules/storage.py:15-32 | after `add_user(p)`, `get_user_info(p)` is not None; it is the default record when `p` was new; lookups of other numbers are unaffected |
| `UserTracking.AddUserIdempotent` | modules/storage.py:15-16 | adding a number twice equals adding it once |
| `UserTracking.AddUserCommutes` | modules/storage.py:15-22 | adding two numbers in either order gives the same tracker |
| `UserTracking.UpdateUnknownStaysUnknown` | modules/storage.py:24-25 | an update of an absent number leaves `get_user_info` returning None |
| `UserTracking.GetAfterUpdate` | modules/storage.py:24-32 | a lookup after an update of a known number returns the old record merged with the updates, later values winning |
| `UserTracking.UpdatesCompose` | modules/storage.py:24-26 | two successive updates equal one update with the merged keyword arguments, the second one's values winning |
| `UserTracking.UpdateIdempotent` | modules/storage.py:24-26 | repeating the same update changes nothing further |
| `UserTracking.EmptyUpdateIsNoop` | modules/storage.py:24-26 | an update with no keyword arguments leaves the tracker unchanged |
| `StorageManager.InitStorage` | modules/storage_manager.py:11-19 | an existing store is left untouched, whatever it holds; a missing store afterwards reads back as the empty dict |
| `StorageManager.SaveMessage` | modules/storage_manager.py:22-32 | after a save, reading the store returns exactly the saved dict |
| `StorageManager.GetAllMessages` | modules/storage_manager.py:35-42 | reading fails exactly when the store file is missing; otherwise it returns the store's whole content |
| `StorageManager.FlattenApiMessages` | modules/storage_manager.py:56-61 | the flattened keys are exactly the senders whose value is a non-empty list; each such key maps to the last element of its list; the result equals the reference flattening, whatever order the senders are visited in |
| `StorageManager.ReadMessages` | messages_manager.py:48-52 | status 200 hands the decoded body through; any other status gives exactly the empty list, which is not a dict |
| `StorageManager.SaveMessagesApi` | modules/storage_manager.py:45-64 | an API result that is not a dict leaves the store unchanged; an empty flattening leaves it unchanged; otherwise the store afterwards reads back exactly the flattening |
| `StorageManager.FlattenSplit` | modules/storage_manager.py:58-61 | each sender is flattened on its own: flattening an API result split into two parts gives the union of the parts' flattenings, the second part's senders taking precedence |
| `StorageManager.SilentSenderIgnored` | modules/storage_manager.py:58-61 | a sender whose value is not a list, or is an empty list, is absent from the flattening, and removing it from the API result does not change the flattening |
| `StorageManager.FlattenEmptyIff` | modules/storage_manager.py:56-64 | the flattening is empty if and only if no sender has a non-empty list, so those are exactly the polls that write nothing |
| `StorageManager.InitStorageIdempotent` | modules/storage_manager.py:17-19 | initialising twice equals initialising once |
| `StorageManager.InitAfterSaveKeepsMessages` | modules/storage_manager.py:11-32 | initialising after a save does not wipe the saved messages |
| `StorageManager.SaveReplaces` | modules/storage_manager.py:31-32 | a save replaces the store: the result does not depend on what the store held before |
| `StorageManager.SaveOfLoadIsNoop` | modules/storage_manager.py:22-42 | saving back the dict just read leaves the store unchanged |
| `StorageManager.FailedFetchLeavesStore` | modules/storage_manager.py:53-55 | a fetch with a status other than 200 yields a non-dict result, and the store is unchanged |
| `StorageManager.SaveMessagesApiIdempotent` | modules/storage_manager.py:45-64 | running the same poll twice leaves the same store as running it once |
| `StorageManager.ReadBackAfterPoll` | modules/storage_manager.py:45-64 | after a poll in which some sender has a message, the store reads back a dict whose keys are exactly the senders with messages, holding that sender's last message |
| `StorageManager.LaterPollWins` | modules/storage_manager.py:45-64 | a later poll that saves replaces an earlier poll's content entirely; nothing is appended |

## Left out

- JSON file I/O: the file is an abstract `Store` value. Encoding and decoding are treated as lossless on `Json`. A file with malformed content is not modelled, because the modelled operations only ever write valid JSON.
- Directory creation (`os.makedirs` in `init_storage`): the storage directory is assumed to exist. Saving when it does not exist would raise, and that case is not modelled.
- JSON numbers are modelled as integers: message and profile values are copied but never inspected, so their precision does not matter here.
- UserTracking.UpdateUserInfo: a keyword argument named `phone_number` or `self` collides with a named parameter, so Python raises `TypeError` before the body runs and the tracker is unchanged. The model does not represent that error; its precondition `BindableKeywords` excludes such calls, as Python's argument binding does.
- Profile values: `update_user_info` accepts any Python objects as keyword values, and the tracker lives only in memory. The model narrows them to `Json` values; no proved property depends on what a value is.
- Phone numbers are modelled as strings. The source accepts any hashable value as a tracker key.
- `UserTracking.GetUserInfo`: Python returns the live record, so a caller that mutates it changes the tracker. Values in the model have no aliasing, so that effect is not represented.
- Dict key order: the model's dicts are unordered maps. Python keeps insertion order, which affects only the order of keys in the written file.
- The HTTP clients (`register_number`, `unregister_number`, `read_messages`, `send_message` in both messages-manager files) are network calls. Only the status-to-body mapping of `read_messages` is modelled. The requests fired at import time are left out.
- `modules/storage_users.py`: a JSON file wrapper for user profiles. It is not part of this model, because it is file I/O with no logic; the profile-store round trip it would offer is not modelled.
- `main.py`: an infinite polling loop with `time.sleep`, calling helpers that `modules/user_interaction.py` does not define.
- Deduplication, command dispatch and the conversation state machine: the functions `main.py` calls for them are not defined in `modules/user_interaction.py`.
- `modules/user_interaction.py` (timestamped log appends), `modules/sms_builder.py` (environment variables and `randint`) and `modules/attractions.py` (an environment key and an empty stub): clocks, the environment and randomness, with no logic to model.
- The commented-out functions at the end of `modules/storage_manager.py` are dead code.
