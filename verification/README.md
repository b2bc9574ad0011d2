# Clinic booking dialogue engine: a Dafny model

This project models the core of a clinic appointment chatbot. There are three parts:

- **The dialogue engine** (`ConversationOrchestrator.handle`). It loads the
  session for a conversation id and dispatches on the session's `state`.
  One handler runs: INIT, COLLECTING_SYMPTOMS, SELECTING_DOCTOR,
  CHECKING_AVAILABILITY or COLLECTING_PATIENT_DETAILS. It then saves the
  session, clears it, or leaves it as it was, and returns a reply.
- **The in-memory session store.** This is a table from session id to
  (data, timestamp) with a 30-minute time-to-live. Expiry is checked lazily
  on load.
- **The session-store facade.** It chooses Redis or the in-memory table once,
  at start-up, and falls back to memory when Redis cannot be set up. Its
  `load_session` never raises: a backend error gives the record
  `{"state": "INIT"}`.

The model is organised as follows:

- `outcomes.dfy` defines `Option` and `Try`. A `Try` value is a result or a
  raised exception.
- `text_ops.dfy` models the string operations the engine relies on:
  `str.lower`, `str.strip`, `str.split` and `" ".join`.
- `session_model.dfy` models the session record as a `map<string, Value>`.
  This keeps "key absent" apart from "key bound to None". It also defines the
  fresh record `SessionData(state="INIT").dict()`.
- `session_store_memory.dfy` has the specification functions of the table
  and the class `InMemorySessionStore`, whose methods are proved against
  them.
- `session_store.dfy` has the facade class `ActiveStore`, whose backend is a
  `const`.
- `orchestrator.dfy` states each handler twice:
  - as a pure step function (`InitStep` … `DetailsStep`, `Turn`), giving the
    reply or exception and the write (`NoWrite`, `Save(record)` or `Clear`);
  - as an imperative method that edits its copy of the record and calls the
    facade.

  Each method is proved to do what its step function says. `Handle` is
  proved equal to `HandleInMemory` over the in-memory table and to
  `HandleOnRedis` over Redis.
- `orchestrator_properties.dfy` proves properties of single turns: the
  transition table, the replies, and the parsing.
- `dialogue_scenarios.dfy` proves properties of whole `handle` calls and of
  the five-turn booking conversation.

Everything the engine consults from outside is an explicit argument:

- the clock, in seconds. Each call of `handle` reads it twice, as a
  `Clock` value: once for the load's expiry test and once for the save's
  timestamp, after the classifier and database calls;
- a `World` value holding:
  - the specialty classifier (the language model call);
  - the doctor directory, the open-slot query and the booking writer
    (SQL);
  - `str.isalpha` on a character;
  - what Redis answers to a load and to a write.

The classifier, the directory, the slot query and the booking writer may
raise. An exception from the booking writer is caught and becomes an error
reply. The others propagate out of `handle`. A Redis load error is absorbed
by the facade, which starts over from INIT. A Redis save or clear error
propagates.

Behaviour of the code worth knowing:

- **No doctors for the specialty.** The apology is returned without
  clearing or saving, so the conversation stays in COLLECTING_SYMPTOMS
  (`NoDoctorsKeepsCollecting`).
- **Matched doctor without slots, or declined slot.** The code only
  apologises, or says the feature is "coming soon", and keeps the state.
  No alternative doctor is offered and rejected slots are not tracked.
- **TTL refresh.** The in-memory table refreshes a timestamp only on save,
  never on load (`LoadKeepsTimestamps`).
- **`handle` can raise:**
  - when a collaborator raises;
  - when the record has no `state` key;
  - on state BOOKED, whose handler `handle_booking_complete` does not exist;
  - when a Redis save or clear raises.
- **A doctor id of 0 counts as "not found"**, because the code tests
  `if not doctor_id`.
- **Missing `phone` key.** A record without a `phone` key in the details step
  yields the booking-error reply, because the `KeyError` is raised inside the
  `try`. This happens on Redis when the conversation began from the fall-back record (which has no `phone` key) and the details are a single word.

app/state.py is not part of this model. The model assumes each
`ConversationState` member's value is its own name, for example `"INIT"`.

## Model

| member | source | states |
|---|---|---|
| TextOps.Lower | app/orchestrator.py:106 | The result has the input's length and each character is the lower-case form of the input's character at that position. |
| TextOps.LowerIdempotent | app/orchestrator.py:106 | Lower-casing twice is the same as once, so the yes-word test of a lower-cased input agrees with the original's. |
| TextOps.Strip | app/orchestrator.py:51 | The result neither starts nor ends with white space. |
| TextOps.StripOnlyEnds | app/orchestrator.py:51 | Strip removes white space at the two ends and nowhere else. The result is the piece of the input at some position, and everything before and after that piece is white space. It is empty exactly when the input is all white space. |
| TextOps.StripTrimmed | app/orchestrator.py:51 | A string with no whitespace at either end is its own strip. |
| TextOps.Split | app/orchestrator.py:118 | Every token is non-empty and contains no white space. |
| TextOps.SplitEmpty | app/orchestrator.py:118 | There are no tokens exactly when the input is all white space. |
| TextOps.SplitWord | app/orchestrator.py:118 | A single non-empty run without white space splits into exactly itself. |
| TextOps.SplitAtSpace | app/orchestrator.py:118 | A white-space character splits the input in two: the tokens of the part before it, in order, followed by the tokens of the part after it. |
| TextOps.SplitJoin | app/orchestrator.py:118-122 | Splitting the single-space join of non-empty, whitespace-free words gives back exactly those words (round trip). |
| TextOps.JoinContainsEach | app/orchestrator.py:67 | Every joined name occurs in the joined text. |
| SessionModel.FreshRecord | app/session_model.py:4-12 | The fresh record has exactly the keys `state` and the seven optional fields. `state` is "INIT" and every optional field is None. |
| SessionModel.FreshRecordShape | app/session_model.py:4-12 | A key is in the fresh record iff it is `state` or an optional field. `doctor_id` and `doctor_name` are absent. |
| SessionStoreMemory.InMemorySessionStore.constructor | app/session_store_memory.py:8-9 | A new store holds no sessions. |
| SessionStoreMemory.InMemorySessionStore.LoadSession | app/session_store_memory.py:11-23 | Returns `LoadResult`: the fresh INIT record for an unknown or expired id, else the stored data. The table becomes `AfterLoad`: only an expired entry is popped. |
| SessionStoreMemory.InMemorySessionStore.SaveSession | app/session_store_memory.py:25-30 | The id's entry becomes (data, now) and nothing else changes. |
| SessionStoreMemory.InMemorySessionStore.ClearSession | app/session_store_memory.py:32-34 | The id is removed, and absence is not an error. |
| SessionStoreMemory.InMemorySessionStore.GetAllSessions | app/session_store_memory.py:36-38 | The result lists exactly the stored ids, each once. |
| SessionStoreMemory.InMemorySessionStore.ClearAllSessions | app/session_store_memory.py:40-42 | The table becomes empty. |
| SessionStoreMemory.LoadUnknown | app/session_store_memory.py:13-16 | An unknown id loads as the fresh INIT record and leaves the table unchanged. |
| SessionStoreMemory.LoadRespectsTtl | app/session_store_memory.py:18-23 | Older than 1800 s: the entry is popped and a fresh record returned. At or below 1800 s: the stored data is returned and the table kept. |
| SessionStoreMemory.SaveThenLoad | app/session_store_memory.py:25-30 | Within the TTL, a load after a save returns exactly the saved data and removes nothing. |
| SessionStoreMemory.LoadKeepsTimestamps | app/session_store_memory.py:11-23 | A load never adds an entry and never changes a surviving entry or its timestamp. It removes no other id. |
| SessionStoreMemory.SaveIsolated | app/session_store_memory.py:25-30 | A save stamps only the saved id. The key set grows by that id alone and every other entry is unchanged. |
| SessionStoreMemory.ClearThenLoad | app/session_store_memory.py:32-34 | A clear removes only that id, and is a no-op when the id is absent. The next load of that id is a fresh record. |
| SessionStore.RedisRequested | app/session_store.py:7 | Redis is requested iff `USE_REDIS` is set and lower-cases to "true". An unset variable means "false". |
| SessionStore.ChoosesRedis | app/session_store.py:12-25 | Redis is used iff it was requested and its set-up raised nothing. |
| SessionStore.FallbackRecord | app/session_store.py:32-36 | The fall-back record has the single key `state`, bound to "INIT". |
| SessionStore.FallbackDiffersFromFresh | app/session_store.py:35 | The fall-back and fresh records agree on `state`. Only the fresh one has `phone`, so they differ. |
| SessionStore.ActiveStore.constructor | app/session_store.py:12-25 | The backend is Redis iff `ChoosesRedis`. Otherwise it is a new, empty in-memory table. |
| SessionStore.ActiveStore.LoadSession | app/session_store.py:29-36 | In memory, it behaves as the table's load. On Redis it returns Redis's record, or the fall-back record when Redis raises. It never raises. |
| SessionStore.ActiveStore.SaveSession | app/session_store.py:40-42 | In memory, the table becomes `Saved`. On Redis the backend's error is passed on to the caller. |
| SessionStore.ActiveStore.ClearSession | app/session_store.py:45-47 | In memory, the table becomes `Cleared`. On Redis the backend's error is passed on to the caller. |
| SessionStore.ActiveStore.GetAllSessions | app/session_store.py:50-52 | In memory, exactly the stored ids, each once. On Redis, whatever Redis answers. |
| SessionStore.ActiveStore.ClearAllSessions | app/session_store.py:55-57 | In memory, the table becomes empty. On Redis the backend's error is passed on to the caller. |
| Orchestrator.Sanitise | app/orchestrator.py:51-56 | The stripped classifier output if it is non-empty, at most 50 characters and only letters or whitespace; otherwise "General Medicine". The result is never empty, never longer than 50, and has no whitespace at either end. |
| Orchestrator.IsYes | app/orchestrator.py:106 | The test itself: the lower-cased input is one of "yes", "y", "ok", "fine", "sure". What follows from it is stated by `YesIsOneShortWord` and `IsYesIgnoresCase`. |
| Orchestrator.ParseDetails | app/orchestrator.py:118-124 | A phone exists iff there are at least two tokens, and it is the last token. The name's own tokens followed by the phone are the input's tokens. With fewer tokens the name is the raw input. |
| Orchestrator.MatchIndex | app/orchestrator.py:79-82 | The index of the first doctor whose name equals the input exactly (case-sensitive), or the list's length when none does. |
| Orchestrator.FindDoctorId | app/orchestrator.py:78-82 | The loop finds no id iff no name matches. Otherwise it returns the id of the first matching doctor, equal to `DoctorIdFor`. |
| Orchestrator.Falsy | app/orchestrator.py:84 | `not doctor_id`: no match, or a match whose id is 0. |
| Orchestrator.Text | app/orchestrator.py:36-148 | The literal text of each reply, with the specialty, doctor names, slot and error message spliced in where the f-strings put them. |
| SessionModel.Show | app/orchestrator.py:148 | How an f-string renders a stored value: a string as itself, None as "None", an integer in decimal. |
| Orchestrator.WithDetails | app/orchestrator.py:118-124 | The session after the details parse, as the handler edits it. Its fields are stated by `WithDetailsFields`. |
| Orchestrator.BookingOf | app/orchestrator.py:129-141 | The booking request: `doctor_id`, `date` and `time` read with a None default, and `patient_name` and `phone` read directly. |
| Orchestrator.ConfirmationOf | app/orchestrator.py:127-148 | The confirmation reply: the doctor name (default "the doctor"), the specialty (default empty), the date and the time. |
| Orchestrator.Turn | app/orchestrator.py:14-36 | The dispatch on `state`: a missing key raises, the five handled states run their step, BOOKED raises, and any other value is reset to INIT and saved. Its properties are the turn lemmas below. |
| SessionStoreMemory.LoadResult | app/session_store_memory.py:11-23 | The record a load returns: the fresh INIT record for an unknown id or one older than the TTL, otherwise the stored data. |
| SessionStoreMemory.AfterLoad | app/session_store_memory.py:18-20 | The table after a load: only an expired entry is removed. |
| Orchestrator.HandleInMemory | app/orchestrator.py:11-36 | `handle` over the in-memory table. The load uses the clock's load reading and the write uses its save reading. No entry other than the conversation's own is added, removed or changed. |
| Orchestrator.HandleOnRedis | app/session_store.py:29-36 | `handle` over Redis. A failed load never surfaces: the conversation starts over with the greeting, or the save's error when that save raises. |
| Orchestrator.SaveAndReply | app/orchestrator.py:39-41 | The record is saved and the reply returned. A Redis save error replaces the reply. |
| Orchestrator.HandleInit | app/orchestrator.py:38-41 | Performs `InitStep`: save with state COLLECTING_SYMPTOMS and greet. |
| Orchestrator.HandleCollectingSymptoms | app/orchestrator.py:43-70 | Performs `SymptomsStep`: classify, sanitise, look up doctors, then either an apology without a write, or the menu and a save. |
| Orchestrator.HandleSelectingDoctor | app/orchestrator.py:72-103 | Performs `SelectingDoctorStep`: match the name, fetch slots, then offer and save the first slot, or reply without a write. |
| Orchestrator.HandleAvailability | app/orchestrator.py:105-111 | Performs `AvailabilityStep`: a yes-word saves COLLECTING_PATIENT_DETAILS; anything else replies "coming soon" without a write. |
| Orchestrator.HandleCollectingPatientDetails | app/orchestrator.py:116-148 | Performs `DetailsStep`: parse the details and book. A booking error becomes an error reply with no write. On success the session is cleared and the booking confirmed. |
| Orchestrator.Handle | app/orchestrator.py:11-36 | On the in-memory backend, the reply and the new table are exactly `HandleInMemory`. On Redis, the reply is `HandleOnRedis`. |
| OrchestratorProperties.ReplyKeywords | app/orchestrator.py:36-148 | Each reply contains its keyword: "health issue", "start over", "Sorry", "doctor", "couldn't find", "available", "name", "coming soon", "error" or "confirmed". |
| OrchestratorProperties.MenuListsEveryDoctor | app/orchestrator.py:67-70 | The doctor menu contains every doctor's name. |
| OrchestratorProperties.SanitiseIdempotent | app/orchestrator.py:51-56 | Sanitising a sanitised specialty changes nothing. |
| OrchestratorProperties.YesWordsInAnyCase | app/orchestrator.py:106 | "YES" and "Sure" are accepted. |
| OrchestratorProperties.IsYesIgnoresCase | app/orchestrator.py:106 | An input is affirmative iff its lower-cased form is. |
| OrchestratorProperties.YesIsOneShortWord | app/orchestrator.py:106 | An affirmative input is 1 to 4 characters long and holds no white space, so padded input or extra words are refused. |
| OrchestratorProperties.ParseDetailsOfTyped | app/orchestrator.py:118-124 | Name words followed by a phone, typed with single spaces, parse back into that name and phone. |
| OrchestratorProperties.ParsedNameIsJoined | app/orchestrator.py:122 | When there is a phone, the name is its own tokens joined by single spaces, so runs of white space inside the name collapse to one space. |
| OrchestratorProperties.WithDetailsFields | app/orchestrator.py:118-124 | After the parse, `patient_name` holds the parsed name and, with two or more tokens, `phone` holds the last token. With fewer tokens `phone` keeps what the session held. No other field changes and no other key is added. |
| OrchestratorProperties.InitTurn | app/orchestrator.py:38-41 | From INIT: the greeting, and a save of the record with state COLLECTING_SYMPTOMS. |
| OrchestratorProperties.UnknownStateResets | app/orchestrator.py:34-36 | An unrecognised state is reset to INIT and saved, with the start-over reply. |
| OrchestratorProperties.UndispatchableRaises | app/orchestrator.py:14-32 | A record without `state`, or in state BOOKED, raises and writes nothing. |
| OrchestratorProperties.SymptomsWithoutDoctors | app/orchestrator.py:62-64 | No doctors for the specialty: an apology naming it, and no write. |
| OrchestratorProperties.SymptomsWithDoctors | app/orchestrator.py:43-70 | With doctors: the menu names every one of them. The save records the symptoms, the sanitised specialty and SELECTING_DOCTOR, and nothing else. |
| OrchestratorProperties.DoctorNotInDirectory | app/orchestrator.py:78-85 | An unknown name: "couldn't find" and no write. |
| OrchestratorProperties.DoctorWithoutSlots | app/orchestrator.py:90-93 | A matched doctor with no slots: an apology and no write. |
| OrchestratorProperties.DoctorWithSlots | app/orchestrator.py:72-103 | The first exact match's first slot is offered. The save records the name, id, date, time and CHECKING_AVAILABILITY. |
| OrchestratorProperties.AvailabilityAnswer | app/orchestrator.py:105-111 | A yes-word asks for the details and saves COLLECTING_PATIENT_DETAILS. Any other input says "coming soon" and writes nothing. |
| OrchestratorProperties.BookingRaises | app/orchestrator.py:134-143 | A failing booking gives an error reply carrying the exception text. The session is neither saved nor cleared. |
| OrchestratorProperties.BookingReturns | app/orchestrator.py:134-148 | A successful booking clears the session and confirms. |
| OrchestratorProperties.BookingCarriesDetails | app/orchestrator.py:118-141 | With two or more tokens, the booking request carries the parsed name and the last token as phone. |
| OrchestratorProperties.TurnFollowsTable | app/orchestrator.py:11-148 | Every turn follows the transition table. A turn that raises writes nothing, and only the details step clears. A saved record differs from the loaded one only in fields from `HANDLER_FIELDS`, the union of the fields any handler sets. |
| DialogueScenarios.EarlyReturnKeepsStoredRecord | app/orchestrator.py:11-32 | A turn that writes nothing leaves the table as the load left it. A live session keeps its stored state, and, with the record held as a value, its whole entry. |
| DialogueScenarios.FirstMessageGreets | app/orchestrator.py:13-17 | A new or expired session greets and stores the fresh record in COLLECTING_SYMPTOMS, stamped with the save's clock reading. |
| DialogueScenarios.LiveSession | app/orchestrator.py:13-32 | For a live session, `handle` runs the turn on the stored record and applies exactly its write. |
| DialogueScenarios.NoDoctorsKeepsCollecting | app/orchestrator.py:62-64 | No doctors: an apology. The next load within the TTL still finds state COLLECTING_SYMPTOMS, and, with the record held as a value, the unchanged record. |
| DialogueScenarios.SymptomsHandled | app/orchestrator.py:43-70 | A whole `handle` call for the symptoms turn: its reply mentions the doctor and the new table entry is given exactly. |
| DialogueScenarios.DoctorHandled | app/orchestrator.py:72-103 | A whole `handle` call for the doctor turn: its reply says "available" and the new table entry is given exactly. |
| DialogueScenarios.YesHandled | app/orchestrator.py:105-109 | A whole `handle` call for the yes-word: its reply asks for the name and the new table entry is given exactly. |
| DialogueScenarios.DetailsHandled | app/orchestrator.py:116-148 | A whole `handle` call for the details: its reply says "confirmed" and the session is removed. |
| DialogueScenarios.HappyPath | app/orchestrator.py:11-148 | From a new id, with each load within the TTL of the previous save: greeting, symptoms, doctor, yes and details give, in turn, "health issue", "doctor", "available", "name" and "confirmed". The table then equals the one before the conversation. |

## Left out

- The Redis backend (app/session_store_redis.py) is not modelled internally. What it returns or raises on each call is an argument, and its own native expiry is not modelled.
- The language-model call, the SQL repositories and the booking writer are parameters of `World`. Their contents, and the `psycopg2` error handling in the booking writer, are outside the model.
- `str.isalpha` is a parameter, because Unicode letter classes are not modelled.
- TextOps.Lower: lower-cases ASCII letters only. Python's `str.lower` also maps other Unicode letters, which only matters for the yes-word test and the `USE_REDIS` flag.
- Aliasing in the in-memory table is not modelled. The real table stores the dict object itself, while the model stores a value. When a handler edits its session and then returns without saving or raises, the real table keeps those edits without a new timestamp. Examples: `symptoms` and `speciality` when no doctor is found; `doctor_name` and `doctor_id` when the doctor is unknown or has no slots; `phone` and `patient_name` when the booking fails. The model keeps the record as loaded. No handler edits `state` before returning without a save, so the stored state agrees either way. Other fields do not agree.
- Phone carry-over after a failed booking is not modelled. Suppose a details turn "Jo 12" fails to book and the next details turn is a single word. The real program books with phone "12" from the earlier turn, because of the aliasing above. The model books with the phone as last saved, which is None for a fresh session.
- DialogueScenarios.EarlyReturnKeepsStoredRecord: only its `state` clause holds of the program as written. The whole-entry clause holds under the value semantics above.
- DialogueScenarios.NoDoctorsKeepsCollecting: only its `state` clause holds of the program as written. The whole-record clause holds under the value semantics above.
- The order of `get_all_sessions` (dict insertion order) is not modelled; only the set of ids and their distinctness are.
- Wall-clock time is a `real` argument. Floating-point rounding of `time.time()` is not modelled.
- Concurrency between requests, logging with `print`, the user interfaces, the API and the entry points are not modelled.
- app/state.py is not part of this model.
- The `handle_booking_complete` handler does not exist, so state BOOKED is modelled as the AttributeError it raises.
- `Show` renders only strings, integers and None, the values the engine stores. Dates and times come from the slot query already rendered with `str()`.
