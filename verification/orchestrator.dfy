/**
 * The dialogue engine: `ConversationOrchestrator.handle(session_id, user_input)`
 * loads the session, dispatches on its `state`, runs one handler and returns a
 * reply. Each handler edits its copy of the session field by field and then
 * either saves it, clears the session, or returns without writing.
 *
 * The step functions (`InitStep` ... `DetailsStep`, `Turn`) say what one turn
 * does; the methods (`HandleInit` ... `Handle`) do it against the store and are
 * proved to agree with them.
 */
module Orchestrator {
  import opened Outcomes
  import opened TextOps
  import opened SessionModel
  import opened SessionStoreMemory
  import opened SessionStore

  // ------------------------------------------------------------ states

  // The values of `ConversationState` that the engine compares `state` with.
  const COLLECTING_SYMPTOMS := "COLLECTING_SYMPTOMS"
  const SELECTING_DOCTOR := "SELECTING_DOCTOR"
  const CHECKING_AVAILABILITY := "CHECKING_AVAILABILITY"
  const COLLECTING_PATIENT_DETAILS := "COLLECTING_PATIENT_DETAILS"
  const BOOKED := "BOOKED"

  /** `str(KeyError('state'))`: the record has no `state` key. */
  const MISSING_STATE_KEY := "'state'"
  /** `str(KeyError('phone'))`: the record has no `phone` key. */
  const MISSING_PHONE_KEY := "'phone'"
  /** The BOOKED branch calls a handler the class does not define. */
  const MISSING_BOOKED_HANDLER := "'ConversationOrchestrator' object has no attribute 'handle_booking_complete'"

  // ------------------------------------------------------------ the outside world

  /** A row of the doctor directory: `(doctor_id, name)`. */
  datatype Doctor = Doctor(id: int, name: string)

  /** An open slot `(schedule_date, start_time, end_time)`, each as `str()` renders it. */
  datatype Slot = Slot(date: string, start: string, end: string)

  /** The keyword arguments of `book_appointment`. */
  datatype BookingRequest = BookingRequest(doctorId: Value, patientName: Value, phone: Value, date: Value, time: Value)

  /**
   * Everything one call of `handle` consults that this model does not define:
   * the specialty classifier (the raw message content it returns), the doctor
   * directory, the open-slot list, the booking writer (its return value is
   * ignored), the Unicode letter class of `str.isalpha`, and what the Redis
   * backend answers to a load and to a write. Each may raise.
   */
  datatype World = World(
    classify: string -> Try<string>,
    directory: Value -> Try<seq<Doctor>>,
    slots: int -> Try<seq<Slot>>,
    book: BookingRequest -> Try<Value>,
    isAlpha: char -> bool,
    redisLoad: Try<Record>,
    redisWrite: Try<()>)

  // ------------------------------------------------------------ replies

  datatype Reply =
    | StartOver
    | Greeting
    | NoSpecialists(speciality: string)
    | DoctorMenu(names: seq<string>)
    | DoctorNotFound(name: string)
    | NoSlots(name: string)
    | SlotOffer(name: string, date: string, time: string)
    | AskDetails
    | ComingSoon
    | BookingFailed(message: string)
    | Confirmed(doctor: string, speciality: string, date: string, time: string)

  /** U+2019, the apostrophe of the start-over reply. */
  const RIGHT_QUOTE: char := '\U{2019}'

  /**
   * The text the engine returns for each reply. Each text is written as the
   * concatenation of its pieces, with the words a caller looks for (such as
   * "health issue" or "confirmed") as pieces of their own.
   */
  function Text(r: Reply): string {
    match r
    case StartOver => "Let" + [RIGHT_QUOTE] + "s " + "start over" + ". Please describe your " + "health issue" + "."
    case Greeting => "Hello! Please describe your " + "health issue" + "?."
    case NoSpecialists(sp) =>
      "Sorry" + ", we don't have any " + sp
      + " specialists available at the moment. Please describe your symptoms differently."
    case DoctorMenu(names) => "Thank you. Which " + "doctor" + " would you like to meet? (" + Join(names, " / ") + ")"
    case DoctorNotFound(n) => "Sorry, I " + "couldn't find" + " " + n + ". Please select a valid doctor."
    case NoSlots(n) => "Sorry" + ", " + n + " has no available slots at the moment."
    case SlotOffer(n, d, t) => n + " is " + "available" + " on " + d + " at " + t + ". Is that fine?"
    case AskDetails => "Great! May I have your " + "name" + " and contact number?"
    case ComingSoon =>
      "Let me check other available slots. (This feature is " + "coming soon" + ". Please say 'yes' to proceed.)"
    case BookingFailed(m) => "Sorry, there was an " + "error" + " booking your appointment: " + m
    case Confirmed(doc, sp, d, t) =>
      "Perfect! Your appointment with " + doc + " (" + sp + ") is " + "confirmed" + " for " + d + " at " + t
      + ". You'll receive a confirmation shortly. Thank you for choosing Super Clinic!\n\n"
      + "Your session has been closed. Start a new conversation to book another appointment."
  }

  function Render(r: Try<Reply>): Try<string> {
    match r
    case Ok(reply) => Ok(Text(reply))
    case Raised(e) => Raised(e)
  }

  // ------------------------------------------------------------ pure pieces

  const DEFAULT_SPECIALITY := "General Medicine"
  const MAX_SPECIALITY_LENGTH := 50

  /** A classifier answer the engine accepts: non-empty, at most 50 characters, letters and spaces only. */
  predicate AcceptableSpeciality(s: string, isAlpha: char -> bool) {
    && s != []
    && |s| <= MAX_SPECIALITY_LENGTH
    && forall i :: 0 <= i < |s| ==> isAlpha(s[i]) || IsSpace(s[i])
  }

  /** The specialty sanitiser: the trimmed classifier output if acceptable, otherwise the default. */
  function Sanitise(raw: string, isAlpha: char -> bool): (r: string)
    ensures AcceptableSpeciality(Strip(raw), isAlpha) ==> r == Strip(raw)
    ensures !AcceptableSpeciality(Strip(raw), isAlpha) ==> r == DEFAULT_SPECIALITY
    ensures r != [] && |r| <= MAX_SPECIALITY_LENGTH
    ensures !IsSpace(r[0]) && !IsSpace(r[|r| - 1])
  {
    var s := Strip(raw);
    if AcceptableSpeciality(s, isAlpha) then s else DefaultTrimmed(); DEFAULT_SPECIALITY
  }

  /** The default specialty is short and has no white space at either end. */
  lemma DefaultTrimmed()
    ensures |DEFAULT_SPECIALITY| == 16
    ensures !IsSpace(DEFAULT_SPECIALITY[0]) && !IsSpace(DEFAULT_SPECIALITY[15])
  {
  }

  const YES_WORDS: seq<string> := ["yes", "y", "ok", "fine", "sure"]

  /** The affirmative check of the availability step: the lower-cased input is one of the yes-words. */
  predicate IsYes(input: string) {
    Lower(input) in YES_WORDS
  }

  /** `[doc[1] for doc in doctors]`. */
  function Names(doctors: seq<Doctor>): seq<string> {
    seq(|doctors|, i requires 0 <= i < |doctors| => doctors[i].name)
  }

  /** The patient's name, and the phone number when there is one. */
  datatype Details = Details(name: string, phone: Option<string>)

  /**
   * The patient-details parse: with two or more whitespace-separated tokens
   * the last one is the phone and the others, joined by single spaces, the
   * name; otherwise the whole input is the name and there is no phone.
   */
  function ParseDetails(input: string): (d: Details)
    ensures d.phone.Some? <==> |Split(input)| >= 2
    ensures d.phone.Some? ==> d.phone.value == Split(input)[|Split(input)| - 1]
    ensures d.phone.Some? ==> Split(d.name) + [d.phone.value] == Split(input)
    ensures d.phone.None? ==> d.name == input
  {
    var parts := Split(input);
    if |parts| >= 2 then
      var n := |parts| - 1;
      SplitJoin(parts[..n]);
      assert parts[..n] + [parts[n]] == parts;
      Details(Join(parts[..n], " "), Some(parts[n]))
    else
      Details(input, None)
  }

  /** The position of the first directory entry named exactly `name`, or `|doctors|` if none is. */
  function MatchIndex(doctors: seq<Doctor>, name: string): (k: nat)
    ensures k <= |doctors|
    ensures forall j :: 0 <= j < k ==> doctors[j].name != name
    ensures k < |doctors| ==> doctors[k].name == name
  {
    if doctors == [] || doctors[0].name == name then 0
    else 1 + MatchIndex(doctors[1..], name)
  }

  /** The id of the first doctor named exactly `name`, if any. */
  function DoctorIdFor(doctors: seq<Doctor>, name: string): Option<int> {
    var k := MatchIndex(doctors, name);
    if k < |doctors| then Some(doctors[k].id) else None
  }

  /** The directory search loop: exact, case-sensitive equality; the first match wins. */
  method FindDoctorId(doctors: seq<Doctor>, name: string) returns (id: Option<int>)
    ensures id.None? <==> forall i :: 0 <= i < |doctors| ==> doctors[i].name != name
    ensures id.Some? ==> exists i :: 0 <= i < |doctors| && doctors[i].name == name && id.value == doctors[i].id
                                     && forall j :: 0 <= j < i ==> doctors[j].name != name
    ensures id == DoctorIdFor(doctors, name)
  {
    id := None;
    var i := 0;
    while i < |doctors|
      invariant 0 <= i <= |doctors|
      invariant forall j :: 0 <= j < i ==> doctors[j].name != name
    {
      if doctors[i].name == name {
        id := Some(doctors[i].id);
        break;
      }
      i := i + 1;
    }
  }

  /** `if not doctor_id`: no match, or a match whose id is the falsy integer 0. */
  predicate Falsy(id: Option<int>) {
    id.None? || id.value == 0
  }

  // ------------------------------------------------------------ one turn, as a function

  /** What a turn writes to the store. */
  datatype Write = NoWrite | Save(record: Record) | Clear

  /** The reply (or the exception) a turn produces, and what it writes. */
  datatype Step = Step(reply: Try<Reply>, write: Write)

  function InitStep(session: Record): Step {
    Step(Ok(Greeting), Save(session["state" := Str(COLLECTING_SYMPTOMS)]))
  }

  function SymptomsStep(session: Record, input: string, world: World): Step {
    var withSymptoms := session["symptoms" := Str(input)];
    match world.classify(input)
    case Raised(e) => Step(Raised(e), NoWrite)
    case Ok(raw) =>
      var speciality := Sanitise(raw, world.isAlpha);
      var withSpeciality := withSymptoms["speciality" := Str(speciality)];
      match world.directory(Str(speciality))
      case Raised(e) => Step(Raised(e), NoWrite)
      case Ok(doctors) =>
        if doctors == [] then Step(Ok(NoSpecialists(speciality)), NoWrite)
        else Step(Ok(DoctorMenu(Names(doctors))), Save(withSpeciality["state" := Str(SELECTING_DOCTOR)]))
  }

  function SelectingDoctorStep(session: Record, input: string, world: World): Step {
    var withName := session["doctor_name" := Str(input)];
    match world.directory(Get(withName, "speciality", Str("")))
    case Raised(e) => Step(Raised(e), NoWrite)
    case Ok(doctors) =>
      var found := DoctorIdFor(doctors, input);
      if Falsy(found) then Step(Ok(DoctorNotFound(input)), NoWrite)
      else
        var withId := withName["doctor_id" := Int(found.value)];
        match world.slots(found.value)
        case Raised(e) => Step(Raised(e), NoWrite)
        case Ok(slots) =>
          if slots == [] then Step(Ok(NoSlots(input)), NoWrite)
          else
            var first := slots[0];
            var offered := withId["date" := Str(first.date)]["time" := Str(first.start)];
            Step(Ok(SlotOffer(input, first.date, first.start)), Save(offered["state" := Str(CHECKING_AVAILABILITY)]))
  }

  function AvailabilityStep(session: Record, input: string): Step {
    if IsYes(input) then Step(Ok(AskDetails), Save(session["state" := Str(COLLECTING_PATIENT_DETAILS)]))
    else Step(Ok(ComingSoon), NoWrite)
  }

  /** The session after the details parse (its fields: `OrchestratorProperties.WithDetailsFields`). */
  function WithDetails(session: Record, input: string): Record {
    var d := ParseDetails(input);
    match d.phone
    case Some(phone) => session["phone" := Str(phone)]["patient_name" := Str(d.name)]
    case None => session["patient_name" := Str(d.name)]
  }

  function BookingOf(session: Record): BookingRequest
    requires "patient_name" in session && "phone" in session
  {
    BookingRequest(Get(session, "doctor_id", Null), session["patient_name"], session["phone"],
                   Get(session, "date", Null), Get(session, "time", Null))
  }

  function ConfirmationOf(session: Record): Reply {
    Confirmed(Show(Get(session, "doctor_name", Str("the doctor"))), Show(Get(session, "speciality", Str(""))),
              Show(Get(session, "date", Null)), Show(Get(session, "time", Null)))
  }

  function DetailsStep(session: Record, input: string, world: World): Step {
    var filled := WithDetails(session, input);
    if "phone" !in filled then Step(Ok(BookingFailed(MISSING_PHONE_KEY)), NoWrite)
    else
      match world.book(BookingOf(filled))
      case Raised(e) => Step(Ok(BookingFailed(e)), NoWrite)
      case Ok(_) => Step(Ok(ConfirmationOf(filled)), Clear)
  }

  /** One turn: dispatch on the record's `state`. */
  function Turn(session: Record, input: string, world: World): Step {
    if "state" !in session then Step(Raised(MISSING_STATE_KEY), NoWrite)
    else
      var state := session["state"];
      if state == Str(INIT) then InitStep(session)
      else if state == Str(COLLECTING_SYMPTOMS) then SymptomsStep(session, input, world)
      else if state == Str(SELECTING_DOCTOR) then SelectingDoctorStep(session, input, world)
      else if state == Str(CHECKING_AVAILABILITY) then AvailabilityStep(session, input)
      else if state == Str(COLLECTING_PATIENT_DETAILS) then DetailsStep(session, input, world)
      else if state == Str(BOOKED) then Step(Raised(MISSING_BOOKED_HANDLER), NoWrite)
      else Step(Ok(StartOver), Save(session["state" := Str(INIT)]))
  }

  /** The in-memory table after a turn's write. */
  function Commit(t: Table, id: string, write: Write, now: real): Table {
    match write
    case NoWrite => t
    case Save(r) => Saved(t, id, r, now)
    case Clear => Cleared(t, id)
  }

  /** The outcome of a turn once its write has gone to a backend that answered `written`. */
  function Settle(step: Step, written: Try<()>): Try<Reply> {
    if step.write.NoWrite? || written.Ok? then step.reply else Raised(written.error)
  }

  /** What `handle` returns and what the in-memory table holds afterwards. */
  datatype Turned = Turned(reply: Try<string>, sessions: Table)

  /**
   * The two readings of `time.time()` one call of `handle` makes: when the
   * session is loaded (the expiry test) and when it is saved (the new
   * timestamp), after the classifier and database calls in between.
   */
  datatype Clock = Clock(load: real, save: real)

  /**
   * `handle` over the in-memory backend: load (with lazy expiry), one turn,
   * the turn's write. Only the conversation's own entry can change.
   */
  function HandleInMemory(t: Table, id: string, input: string, clock: Clock, world: World): (r: Turned)
    ensures forall k :: k != id ==> (k in r.sessions <==> k in t)
    ensures forall k :: k != id && k in t ==> r.sessions[k] == t[k]
  {
    var step := Turn(LoadResult(t, id, clock.load), input, world);
    Turned(Render(step.reply), Commit(AfterLoad(t, id, clock.load), id, step.write, clock.save))
  }

  /**
   * `handle` over the Redis backend, whose contents this model does not track.
   * A failed load never surfaces: the conversation starts over with the
   * greeting, unless saving the new state raises.
   */
  function HandleOnRedis(input: string, world: World): (r: Try<string>)
    ensures world.redisLoad.Raised? && world.redisWrite.Ok? ==> r == Ok(Text(Greeting))
    ensures world.redisLoad.Raised? && world.redisWrite.Raised? ==> r == Raised(world.redisWrite.error)
  {
    var session := if world.redisLoad.Ok? then world.redisLoad.value else FallbackRecord();
    Render(Settle(Turn(session, input, world), world.redisWrite))
  }

  // ------------------------------------------------------------ the handlers

  /** A handler did `step` against the store: the write went to the backend and the reply came back. */
  twostate predicate Committed(store: ActiveStore, id: string, step: Step, now: real, world: World, new out: Try<Reply>)
    reads store, store.Repr()
  {
    && (store.backend.Memory? ==> out == step.reply && store.Sessions() == Commit(old(store.Sessions()), id, step.write, now))
    && (store.backend.Redis? ==> out == Settle(step, world.redisWrite))
  }

  method SaveAndReply(store: ActiveStore, id: string, session: Record, now: real, world: World, reply: Reply)
    returns (out: Try<Reply>)
    modifies store.Repr()
    ensures Committed(store, id, Step(Ok(reply), Save(session)), now, world, out)
  {
    var saved := store.SaveSession(id, session, now, world.redisWrite);
    if saved.Raised? {
      return Raised(saved.error);
    }
    return Ok(reply);
  }

  method HandleInit(store: ActiveStore, id: string, session: Record, now: real, world: World)
    returns (out: Try<Reply>)
    modifies store.Repr()
    ensures Committed(store, id, InitStep(session), now, world, out)
  {
    var updated := session["state" := Str(COLLECTING_SYMPTOMS)];
    out := SaveAndReply(store, id, updated, now, world, Greeting);
  }

  method HandleCollectingSymptoms(store: ActiveStore, id: string, session: Record, input: string, now: real, world: World)
    returns (out: Try<Reply>)
    modifies store.Repr()
    ensures Committed(store, id, SymptomsStep(session, input, world), now, world, out)
  {
    ghost var step := SymptomsStep(session, input, world);
    var updated := session["symptoms" := Str(input)];
    var response := world.classify(input);
    if response.Raised? {
      assert step == Step(Raised(response.error), NoWrite);
      return Raised(response.error);
    }
    var speciality := Sanitise(response.value, world.isAlpha);
    updated := updated["speciality" := Str(speciality)];
    var doctors := world.directory(Str(speciality));
    if doctors.Raised? {
      assert step == Step(Raised(doctors.error), NoWrite);
      return Raised(doctors.error);
    }
    if doctors.value == [] {
      assert step == Step(Ok(NoSpecialists(speciality)), NoWrite);
      return Ok(NoSpecialists(speciality));
    }
    var names := Names(doctors.value);
    updated := updated["state" := Str(SELECTING_DOCTOR)];
    assert step == Step(Ok(DoctorMenu(names)), Save(updated));
    out := SaveAndReply(store, id, updated, now, world, DoctorMenu(names));
  }

  method HandleSelectingDoctor(store: ActiveStore, id: string, session: Record, input: string, now: real, world: World)
    returns (out: Try<Reply>)
    modifies store.Repr()
    ensures Committed(store, id, SelectingDoctorStep(session, input, world), now, world, out)
  {
    var updated := session["doctor_name" := Str(input)];
    var doctors := world.directory(Get(updated, "speciality", Str("")));
    if doctors.Raised? {
      return Raised(doctors.error);
    }
    var doctorId := FindDoctorId(doctors.value, input);
    if doctorId.None? || doctorId.value == 0 {
      return Ok(DoctorNotFound(input));
    }
    updated := updated["doctor_id" := Int(doctorId.value)];
    var slots := world.slots(doctorId.value);
    if slots.Raised? {
      return Raised(slots.error);
    }
    if slots.value == [] {
      return Ok(NoSlots(input));
    }
    var first := slots.value[0];
    updated := updated["date" := Str(first.date)];
    updated := updated["time" := Str(first.start)];
    updated := updated["state" := Str(CHECKING_AVAILABILITY)];
    out := SaveAndReply(store, id, updated, now, world, SlotOffer(input, first.date, first.start));
  }

  method HandleAvailability(store: ActiveStore, id: string, session: Record, input: string, now: real, world: World)
    returns (out: Try<Reply>)
    modifies store.Repr()
    ensures Committed(store, id, AvailabilityStep(session, input), now, world, out)
  {
    if Lower(input) in YES_WORDS {
      var updated := session["state" := Str(COLLECTING_PATIENT_DETAILS)];
      out := SaveAndReply(store, id, updated, now, world, AskDetails);
    } else {
      out := Ok(ComingSoon);
    }
  }

  method HandleCollectingPatientDetails(store: ActiveStore, id: string, session: Record, input: string, now: real, world: World)
    returns (out: Try<Reply>)
    modifies store.Repr()
    ensures Committed(store, id, DetailsStep(session, input, world), now, world, out)
  {
    var updated := session;
    var parts := Split(input);
    if |parts| >= 2 {
      updated := updated["phone" := Str(parts[|parts| - 1])];
      updated := updated["patient_name" := Str(Join(parts[..|parts| - 1], " "))];
    } else {
      updated := updated["patient_name" := Str(input)];
    }
    assert updated == WithDetails(session, input);
    if "phone" !in updated {
      return Ok(BookingFailed(MISSING_PHONE_KEY));
    }
    var booked := world.book(BookingOf(updated));
    if booked.Raised? {
      return Ok(BookingFailed(booked.error));
    }
    var cleared := store.ClearSession(id, world.redisWrite);
    if cleared.Raised? {
      return Raised(cleared.error);
    }
    return Ok(ConfirmationOf(updated));
  }

  /** `ConversationOrchestrator.handle`: load, dispatch on `state`, run one handler. */
  method Handle(store: ActiveStore, id: string, input: string, clock: Clock, world: World)
    returns (out: Try<string>)
    modifies store.Repr()
    ensures store.backend.Memory? ==>
      Turned(out, store.Sessions()) == HandleInMemory(old(store.Sessions()), id, input, clock, world)
    ensures store.backend.Redis? ==> out == HandleOnRedis(input, world)
  {
    var session := store.LoadSession(id, clock.load, world.redisLoad);
    var now := clock.save;
    var reply: Try<Reply>;
    if "state" !in session {
      reply := Raised(MISSING_STATE_KEY);
    } else {
      var state := session["state"];
      if state == Str(INIT) {
        reply := HandleInit(store, id, session, now, world);
      } else if state == Str(COLLECTING_SYMPTOMS) {
        reply := HandleCollectingSymptoms(store, id, session, input, now, world);
      } else if state == Str(SELECTING_DOCTOR) {
        reply := HandleSelectingDoctor(store, id, session, input, now, world);
      } else if state == Str(CHECKING_AVAILABILITY) {
        reply := HandleAvailability(store, id, session, input, now, world);
      } else if state == Str(COLLECTING_PATIENT_DETAILS) {
        reply := HandleCollectingPatientDetails(store, id, session, input, now, world);
      } else if state == Str(BOOKED) {
        reply := Raised(MISSING_BOOKED_HANDLER);
      } else {
        var reset := session["state" := Str(INIT)];
        reply := SaveAndReply(store, id, reset, now, world, StartOver);
      }
    }
    out := Render(reply);
  }
}
