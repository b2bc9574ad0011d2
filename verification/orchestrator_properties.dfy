/** What one turn, and a sequence of turns, of the dialogue engine guarantee. */
module OrchestratorProperties {
  import opened Outcomes
  import opened TextOps
  import opened SessionModel
  import opened SessionStoreMemory
  import opened SessionStore
  import opened Orchestrator

  /** The reply is a text (not an exception) and contains `keyword`. */
  predicate Says(reply: Try<string>, keyword: string) {
    reply.Ok? && IsInfix(keyword, reply.value)
  }

  // ------------------------------------------------------------ reply texts

  lemma GreetingSays()
    ensures IsInfix("health issue", Text(Greeting))
  {
    InfixMiddle("health issue", "Hello! Please describe your ", "?.");
  }

  lemma StartOverSays()
    ensures IsInfix("start over", Text(StartOver)) && IsInfix("health issue", Text(StartOver))
  {
    var lets := "Let" + [RIGHT_QUOTE] + "s ";
    InfixMiddle("start over", lets, ". Please describe your ");
    InfixLeft("start over", lets + "start over" + ". Please describe your ", "health issue");
    InfixLeft("start over", lets + "start over" + ". Please describe your " + "health issue", ".");
    InfixMiddle("health issue", lets + "start over" + ". Please describe your ", ".");
  }

  lemma NoSpecialistsSays(sp: string)
    ensures IsInfix("Sorry", Text(NoSpecialists(sp)))
  {
    var tail := " specialists available at the moment. Please describe your symptoms differently.";
    InfixMiddle("Sorry", "", ", we don't have any ");
    assert "" + "Sorry" + ", we don't have any " == "Sorry" + ", we don't have any ";
    InfixLeft("Sorry", "Sorry" + ", we don't have any ", sp);
    InfixLeft("Sorry", "Sorry" + ", we don't have any " + sp, tail);
  }



  lemma DoctorMenuSays(names: seq<string>)
    ensures IsInfix("doctor", Text(DoctorMenu(names)))
  {
    var tail := " would you like to meet? (";
    InfixMiddle("doctor", "Thank you. Which ", tail);
    InfixLeft("doctor", "Thank you. Which " + "doctor" + tail, Join(names, " / "));
    InfixLeft("doctor", "Thank you. Which " + "doctor" + tail + Join(names, " / "), ")");
  }

  lemma DoctorNotFoundSays(n: string)
    ensures IsInfix("couldn't find", Text(DoctorNotFound(n)))
  {
    InfixMiddle("couldn't find", "Sorry, I ", " ");
    InfixLeft("couldn't find", "Sorry, I " + "couldn't find" + " ", n);
    InfixLeft("couldn't find", "Sorry, I " + "couldn't find" + " " + n, ". Please select a valid doctor.");
  }

  lemma NoSlotsSays(n: string)
    ensures IsInfix("Sorry", Text(NoSlots(n)))
  {
    InfixMiddle("Sorry", "", ", ");
    assert "" + "Sorry" + ", " == "Sorry" + ", ";
    InfixLeft("Sorry", "Sorry" + ", ", n);
    InfixLeft("Sorry", "Sorry" + ", " + n, " has no available slots at the moment.");
  }

  lemma SlotOfferSays(n: string, d: string, t: string)
    ensures IsInfix("available", Text(SlotOffer(n, d, t)))
  {
    var offer := n + " is " + "available" + " on ";
    InfixMiddle("available", n + " is ", " on ");
    InfixLeft("available", offer, d);
    InfixLeft("available", offer + d, " at ");
    InfixLeft("available", offer + d + " at ", t);
    InfixLeft("available", offer + d + " at " + t, ". Is that fine?");
  }

  lemma AskDetailsSays()
    ensures IsInfix("name", Text(AskDetails))
  {
    InfixMiddle("name", "Great! May I have your ", " and contact number?");
  }

  lemma ComingSoonSays()
    ensures IsInfix("coming soon", Text(ComingSoon))
  {
    InfixMiddle("coming soon", "Let me check other available slots. (This feature is ",
                ". Please say 'yes' to proceed.)");
  }

  lemma BookingFailedSays(m: string)
    ensures IsInfix("error", Text(BookingFailed(m)))
  {
    InfixMiddle("error", "Sorry, there was an ", " booking your appointment: ");
    InfixLeft("error", "Sorry, there was an " + "error" + " booking your appointment: ", m);
  }

  lemma ConfirmedSays(doc: string, sp: string, d: string, t: string)
    ensures IsInfix("confirmed", Text(Confirmed(doc, sp, d, t)))
  {
    var head := "Perfect! Your appointment with " + doc + " (" + sp + ") is ";
    var closing := ". You'll receive a confirmation shortly. Thank you for choosing Super Clinic!\n\n";
    var farewell := "Your session has been closed. Start a new conversation to book another appointment.";
    InfixMiddle("confirmed", head, " for ");
    InfixLeft("confirmed", head + "confirmed" + " for ", d);
    InfixLeft("confirmed", head + "confirmed" + " for " + d, " at ");
    InfixLeft("confirmed", head + "confirmed" + " for " + d + " at ", t);
    InfixLeft("confirmed", head + "confirmed" + " for " + d + " at " + t, closing);
    InfixLeft("confirmed", head + "confirmed" + " for " + d + " at " + t + closing, farewell);
  }



  /** The words the replies are recognised by. */
  lemma ReplyKeywords(sp: string, names: seq<string>, n: string, d: string, t: string, m: string, doc: string)
    ensures IsInfix("health issue", Text(Greeting))
    ensures IsInfix("start over", Text(StartOver)) && IsInfix("health issue", Text(StartOver))
    ensures IsInfix("Sorry", Text(NoSpecialists(sp)))
    ensures IsInfix("doctor", Text(DoctorMenu(names)))
    ensures IsInfix("couldn't find", Text(DoctorNotFound(n)))
    ensures IsInfix("Sorry", Text(NoSlots(n)))
    ensures IsInfix("available", Text(SlotOffer(n, d, t)))
    ensures IsInfix("name", Text(AskDetails))
    ensures IsInfix("coming soon", Text(ComingSoon))
    ensures IsInfix("error", Text(BookingFailed(m)))
    ensures IsInfix("confirmed", Text(Confirmed(doc, sp, d, t)))
  {
    GreetingSays();
    StartOverSays();
    NoSpecialistsSays(sp);
    DoctorMenuSays(names);
    DoctorNotFoundSays(n);
    NoSlotsSays(n);
    SlotOfferSays(n, d, t);
    AskDetailsSays();
    ComingSoonSays();
    BookingFailedSays(m);
    ConfirmedSays(doc, sp, d, t);
  }

  /** The doctor menu names every doctor the directory returned. */
  lemma MenuListsEveryDoctor(doctors: seq<Doctor>, k: nat)
    requires k < |doctors|
    ensures IsInfix(doctors[k].name, Text(DoctorMenu(Names(doctors))))
  {
    var names := Names(doctors);
    var head := "Thank you. Which " + "doctor" + " would you like to meet? (";
    JoinContainsEach(names, " / ", k);
    InfixRight(names[k], head, Join(names, " / "));
    InfixLeft(names[k], head + Join(names, " / "), ")");
  }

  // ------------------------------------------------------------ pure pieces

  /** Sanitising is idempotent, given that the default name itself is made of letters and spaces. */
  lemma SanitiseIdempotent(raw: string, isAlpha: char -> bool)
    requires AcceptableSpeciality(DEFAULT_SPECIALITY, isAlpha)
    ensures Sanitise(Sanitise(raw, isAlpha), isAlpha) == Sanitise(raw, isAlpha)
  {
    var r := Sanitise(raw, isAlpha);
    StripTrimmed(r);
  }

  /** The yes-word check ignores ASCII case. */
  lemma YesWordsInAnyCase()
    ensures IsYes("YES") && IsYes("Sure")
  {
    assert Lower("YES") == "yes" by {
      assert Lower("YES")[0] == 'y' && Lower("YES")[1] == 'e' && Lower("YES")[2] == 's';
    }
    assert Lower("Sure") == "sure" by {
      assert Lower("Sure")[0] == 's' && Lower("Sure")[1] == 'u' && Lower("Sure")[2] == 'r' && Lower("Sure")[3] == 'e';
    }
  }

  /** An affirmative input is one short word: one to four characters, none of them white space. */
  lemma YesIsOneShortWord(input: string)
    ensures IsYes(input) ==> 1 <= |input| <= 4 && NoSpace(input)
  {
    var lowered := Lower(input);
    assert forall i :: 0 <= i < |input| && IsSpace(input[i]) ==> IsSpace(lowered[i]);
  }

  /** A lower-cased input is affirmative exactly when the original is. */
  lemma IsYesIgnoresCase(input: string)
    ensures IsYes(Lower(input)) <==> IsYes(input)
  {
    LowerIdempotent(input);
  }

  /** A parsed name is in canonical form: its own tokens joined by single spaces. */
  lemma ParsedNameIsJoined(input: string)
    ensures var d := ParseDetails(input);
      d.phone.Some? ==> d.name == Join(Split(d.name), " ")
  {
    var parts := Split(input);
    if |parts| >= 2 {
      var n := |parts| - 1;
      SplitJoin(parts[..n]);
    }
  }

  /**
   * The session after the details parse: `patient_name` is the parsed name,
   * `phone` is the last token when there are two or more (and otherwise
   * whatever the session held), and no other field changes.
   */
  lemma WithDetailsFields(session: Record, input: string)
    ensures WithDetails(session, input).Keys
              == session.Keys + {"patient_name"} + (if |Split(input)| >= 2 then {"phone"} else {})
    ensures WithDetails(session, input)["patient_name"] == Str(ParseDetails(input).name)
    ensures |Split(input)| >= 2 ==> WithDetails(session, input)["phone"] == Str(Split(input)[|Split(input)| - 1])
    ensures forall k :: k in session && k != "phone" && k != "patient_name" ==> WithDetails(session, input)[k] == session[k]
    ensures |Split(input)| < 2 && "phone" in session ==> WithDetails(session, input)["phone"] == session["phone"]
  {
    var d := ParseDetails(input);
    var r := WithDetails(session, input);
    if |Split(input)| >= 2 {
      assert r == session["phone" := Str(d.phone.value)]["patient_name" := Str(d.name)];
    } else {
      assert r == session["patient_name" := Str(d.name)];
    }
  }

  /** The parse of an input whose tokens are known. */
  lemma ParseOfTokens(input: string, parts: seq<string>)
    requires Split(input) == parts && |parts| >= 2
    ensures ParseDetails(input) == Details(Join(parts[..|parts| - 1], " "), Some(parts[|parts| - 1]))
  {
  }

  /** Typing the name's words and then the phone, separated by spaces, is parsed back into them. */
  lemma ParseDetailsOfTyped(words: seq<string>, phone: string)
    requires |words| >= 1
    requires forall i :: 0 <= i < |words| ==> words[i] != [] && NoSpace(words[i])
    requires phone != [] && NoSpace(phone)
    ensures ParseDetails(Join(words + [phone], " ")) == Details(Join(words, " "), Some(phone))
  {
    var all := words + [phone];
    SplitJoin(all);
    ParseOfTokens(Join(all, " "), all);
    assert all[..|all| - 1] == words && all[|all| - 1] == phone;
  }

  // ------------------------------------------------------------ one turn

  /** From INIT, any input moves to COLLECTING_SYMPTOMS and asks for the health issue. */
  lemma InitTurn(session: Record, input: string, world: World)
    requires "state" in session && session["state"] == Str(INIT)
    ensures Turn(session, input, world) == Step(Ok(Greeting), Save(session["state" := Str(COLLECTING_SYMPTOMS)]))
    ensures IsInfix("health issue", Text(Greeting))
  {
    GreetingSays();
  }

  /** The states `handle` has a handler for (BOOKED is dispatched but its handler does not exist). */
  predicate Handled(state: Value) {
    state in {Str(INIT), Str(COLLECTING_SYMPTOMS), Str(SELECTING_DOCTOR), Str(CHECKING_AVAILABILITY),
              Str(COLLECTING_PATIENT_DETAILS), Str(BOOKED)}
  }

  /** Any other state value is reset to INIT and saved, with a start-over reply. */
  lemma UnknownStateResets(session: Record, input: string, world: World)
    requires "state" in session && !Handled(session["state"])
    ensures Turn(session, input, world) == Step(Ok(StartOver), Save(session["state" := Str(INIT)]))
    ensures IsInfix("start over", Text(StartOver))
  {
    StartOverSays();
  }

  /** A record without a `state` key, or in state BOOKED, makes `handle` raise and write nothing. */
  lemma UndispatchableRaises(session: Record, input: string, world: World)
    requires "state" !in session || session["state"] == Str(BOOKED)
    ensures Turn(session, input, world).reply.Raised?
    ensures Turn(session, input, world).write == NoWrite
  {
  }

  /** Symptoms step, no doctors for the specialty: an apology and nothing saved. */
  lemma SymptomsWithoutDoctors(session: Record, input: string, world: World, raw: string)
    requires "state" in session && session["state"] == Str(COLLECTING_SYMPTOMS)
    requires world.classify(input) == Ok(raw)
    requires world.directory(Str(Sanitise(raw, world.isAlpha))) == Ok([])
    ensures Turn(session, input, world) == Step(Ok(NoSpecialists(Sanitise(raw, world.isAlpha))), NoWrite)
  {
  }

  /**
   * Symptoms step with doctors: the state becomes SELECTING_DOCTOR, the
   * symptoms and the sanitised specialty are recorded, nothing else changes,
   * and the reply names every doctor.
   */
  lemma SymptomsWithDoctors(session: Record, input: string, world: World, raw: string, doctors: seq<Doctor>)
    requires "state" in session && session["state"] == Str(COLLECTING_SYMPTOMS)
    requires world.classify(input) == Ok(raw)
    requires world.directory(Str(Sanitise(raw, world.isAlpha))) == Ok(doctors) && doctors != []
    ensures var step := Turn(session, input, world);
      && step.reply == Ok(DoctorMenu(Names(doctors)))
      && step.write.Save?
      && step.write.record == session["symptoms" := Str(input)]["speciality" := Str(Sanitise(raw, world.isAlpha))]
                                     ["state" := Str(SELECTING_DOCTOR)]
    ensures forall k :: 0 <= k < |doctors| ==> IsInfix(doctors[k].name, Text(DoctorMenu(Names(doctors))))
  {
    forall k | 0 <= k < |doctors|
      ensures IsInfix(doctors[k].name, Text(DoctorMenu(Names(doctors))))
    {
      MenuListsEveryDoctor(doctors, k);
    }
  }

  /** Doctor step, no directory entry with exactly that name: "couldn't find" and nothing saved. */
  lemma DoctorNotInDirectory(session: Record, input: string, world: World, doctors: seq<Doctor>)
    requires "state" in session && session["state"] == Str(SELECTING_DOCTOR)
    requires world.directory(Get(session, "speciality", Str(""))) == Ok(doctors)
    requires forall i :: 0 <= i < |doctors| ==> doctors[i].name != input
    ensures Turn(session, input, world) == Step(Ok(DoctorNotFound(input)), NoWrite)
    ensures IsInfix("couldn't find", Text(DoctorNotFound(input)))
  {
    DoctorNotFoundSays(input);
  }

  /** Doctor step, a matching doctor with no open slot: an apology and nothing saved. */
  lemma DoctorWithoutSlots(session: Record, input: string, world: World, doctors: seq<Doctor>)
    requires "state" in session && session["state"] == Str(SELECTING_DOCTOR)
    requires world.directory(Get(session, "speciality", Str(""))) == Ok(doctors)
    requires !Falsy(DoctorIdFor(doctors, input))
    requires world.slots(DoctorIdFor(doctors, input).value) == Ok([])
    ensures Turn(session, input, world) == Step(Ok(NoSlots(input)), NoWrite)
  {
  }

  /**
   * Doctor step, a match with open slots: the first match in directory order
   * is taken, its first slot is offered and recorded, and the state becomes
   * CHECKING_AVAILABILITY.
   */
  lemma DoctorWithSlots(session: Record, input: string, world: World, doctors: seq<Doctor>, k: nat, slots: seq<Slot>)
    requires "state" in session && session["state"] == Str(SELECTING_DOCTOR)
    requires world.directory(Get(session, "speciality", Str(""))) == Ok(doctors)
    requires k < |doctors| && doctors[k].name == input && doctors[k].id != 0
    requires forall j :: 0 <= j < k ==> doctors[j].name != input
    requires world.slots(doctors[k].id) == Ok(slots) && slots != []
    ensures var step := Turn(session, input, world);
      && step.reply == Ok(SlotOffer(input, slots[0].date, slots[0].start))
      && step.write.Save?
      && step.write.record == session["doctor_name" := Str(input)]["doctor_id" := Int(doctors[k].id)]
                                     ["date" := Str(slots[0].date)]["time" := Str(slots[0].start)]
                                     ["state" := Str(CHECKING_AVAILABILITY)]
    ensures IsInfix("available", Text(SlotOffer(input, slots[0].date, slots[0].start)))
  {
    assert Turn(session, input, world) == SelectingDoctorStep(session, input, world);
    assert Get(session["doctor_name" := Str(input)], "speciality", Str("")) == Get(session, "speciality", Str(""));
    assert MatchIndex(doctors, input) == k;
    assert DoctorIdFor(doctors, input) == Some(doctors[k].id);
    SlotOfferSays(input, slots[0].date, slots[0].start);
  }

  /** Availability step: a yes-word moves to COLLECTING_PATIENT_DETAILS; anything else writes nothing. */
  lemma AvailabilityAnswer(session: Record, input: string, world: World)
    requires "state" in session && session["state"] == Str(CHECKING_AVAILABILITY)
    ensures IsYes(input) ==>
      Turn(session, input, world) == Step(Ok(AskDetails), Save(session["state" := Str(COLLECTING_PATIENT_DETAILS)]))
    ensures !IsYes(input) ==> Turn(session, input, world) == Step(Ok(ComingSoon), NoWrite)
    ensures IsInfix("name", Text(AskDetails))
  {
    AskDetailsSays();
  }

  /** Details step, the booking writer raises: an error reply, and the session is neither saved nor cleared. */
  lemma BookingRaises(session: Record, input: string, world: World, e: string)
    requires "state" in session && session["state"] == Str(COLLECTING_PATIENT_DETAILS)
    requires "phone" in WithDetails(session, input)
    requires world.book(BookingOf(WithDetails(session, input))) == Raised(e)
    ensures Turn(session, input, world) == Step(Ok(BookingFailed(e)), NoWrite)
  {
  }

  /** Details step, the booking writer returns (whatever it returns): the session is cleared and the booking confirmed. */
  lemma BookingReturns(session: Record, input: string, world: World, v: Value)
    requires "state" in session && session["state"] == Str(COLLECTING_PATIENT_DETAILS)
    requires "phone" in WithDetails(session, input)
    requires world.book(BookingOf(WithDetails(session, input))) == Ok(v)
    ensures Turn(session, input, world) == Step(Ok(ConfirmationOf(WithDetails(session, input))), Clear)
    ensures IsInfix("confirmed", Text(ConfirmationOf(WithDetails(session, input))))
  {
    assert Turn(session, input, world) == DetailsStep(session, input, world);
    var c := ConfirmationOf(WithDetails(session, input));
    ConfirmedSays(c.doctor, c.speciality, c.date, c.time);
  }

  /** The booking request carries the parsed name and phone. */
  lemma BookingCarriesDetails(session: Record, input: string)
    requires |Split(input)| >= 2
    ensures var d := ParseDetails(input);
      && "phone" in WithDetails(session, input)
      && BookingOf(WithDetails(session, input)).phone == Str(d.phone.value)
      && BookingOf(WithDetails(session, input)).patientName == Str(d.name)
  {
  }

  // ------------------------------------------------------------ the transition table

  /** The only state changes a turn can write, and the only state from which it clears. */
  predicate LegalMove(before: Value, write: Write) {
    match write
    case NoWrite => true
    case Clear => before == Str(COLLECTING_PATIENT_DETAILS)
    case Save(r) =>
      "state" in r &&
      var after := r["state"];
      || (before == Str(INIT) && after == Str(COLLECTING_SYMPTOMS))
      || (before == Str(COLLECTING_SYMPTOMS) && after == Str(SELECTING_DOCTOR))
      || (before == Str(SELECTING_DOCTOR) && after == Str(CHECKING_AVAILABILITY))
      || (before == Str(CHECKING_AVAILABILITY) && after == Str(COLLECTING_PATIENT_DETAILS))
      || (!Handled(before) && after == Str(INIT))
  }

  /** The fields a handler may set; every other field of a saved record is as loaded. */
  const HANDLER_FIELDS := {"state", "symptoms", "speciality", "doctor_name", "doctor_id", "date", "time"}

  /**
   * What the transition table asks of one step taken from `session`: a legal
   * move, no write when it raises, and a saved record that differs from the
   * loaded one only in the handler's own fields.
   */
  predicate FollowsTable(session: Record, step: Step)
    requires "state" in session
  {
    && LegalMove(session["state"], step.write)
    && (step.reply.Raised? ==> step.write == NoWrite)
    && (step.write.Save? ==> step.write.record.Keys == session.Keys + (step.write.record.Keys * HANDLER_FIELDS))
    && (step.write.Save? ==> forall k :: k in session && k !in HANDLER_FIELDS ==> step.write.record[k] == session[k])
  }

  /** A record saved with `fields` (all of them the handler's own) set keeps the rest of the loaded record. */
  lemma SavedWithin(session: Record, saved: Record, fields: set<string>)
    requires fields <= HANDLER_FIELDS
    requires saved.Keys == session.Keys + fields
    requires forall k :: k in session && k !in fields ==> saved[k] == session[k]
    ensures saved.Keys == session.Keys + (saved.Keys * HANDLER_FIELDS)
    ensures forall k :: k in session && k !in HANDLER_FIELDS ==> saved[k] == session[k]
  {
  }

  lemma SymptomsFollowsTable(session: Record, input: string, world: World)
    requires "state" in session && session["state"] == Str(COLLECTING_SYMPTOMS)
    ensures FollowsTable(session, SymptomsStep(session, input, world))
  {
    var step := SymptomsStep(session, input, world);
    match world.classify(input)
    case Raised(e) =>
      assert step == Step(Raised(e), NoWrite);
    case Ok(raw) =>
      var speciality := Sanitise(raw, world.isAlpha);
      match world.directory(Str(speciality))
      case Raised(e) =>
        assert step == Step(Raised(e), NoWrite);
      case Ok(doctors) =>
        if doctors == [] {
          assert step.write == NoWrite;
        } else {
          var reply := DoctorMenu(Names(doctors));
          assert step == Step(Ok(reply), Save(session["symptoms" := Str(input)]["speciality" := Str(speciality)]
                                                     ["state" := Str(SELECTING_DOCTOR)]));
          SymptomsSaveFollowsTable(session, input, speciality, reply);
        }
  }

  /** The symptoms step's save follows the table, whatever the specialty and the reply. */
  lemma SymptomsSaveFollowsTable(session: Record, input: string, speciality: string, reply: Reply)
    requires "state" in session && session["state"] == Str(COLLECTING_SYMPTOMS)
    ensures FollowsTable(session, Step(Ok(reply), Save(session["symptoms" := Str(input)]["speciality" := Str(speciality)]
                                                              ["state" := Str(SELECTING_DOCTOR)])))
  {
    var saved := session["symptoms" := Str(input)]["speciality" := Str(speciality)]["state" := Str(SELECTING_DOCTOR)];
    SavedWithin(session, saved, {"symptoms", "speciality", "state"});
  }

  lemma SelectingDoctorFollowsTable(session: Record, input: string, world: World)
    requires "state" in session && session["state"] == Str(SELECTING_DOCTOR)
    ensures FollowsTable(session, SelectingDoctorStep(session, input, world))
  {
  }

  lemma DetailsFollowsTable(session: Record, input: string, world: World)
    requires "state" in session && session["state"] == Str(COLLECTING_PATIENT_DETAILS)
    ensures FollowsTable(session, DetailsStep(session, input, world))
  {
  }

  /**
   * Every turn follows the transition table, a turn that raises writes
   * nothing, and a saved record keeps every field outside the handler's own.
   */
  lemma TurnFollowsTable(session: Record, input: string, world: World)
    requires "state" in session
    ensures LegalMove(session["state"], Turn(session, input, world).write)
    ensures Turn(session, input, world).reply.Raised? ==> Turn(session, input, world).write == NoWrite
    ensures var w := Turn(session, input, world).write;
      w.Save? ==> w.record.Keys == session.Keys + (w.record.Keys * HANDLER_FIELDS)
    ensures var w := Turn(session, input, world).write;
      w.Save? ==> forall k :: k in session && k !in HANDLER_FIELDS ==> w.record[k] == session[k]
  {
    var state := session["state"];
    var step := Turn(session, input, world);
    if state == Str(COLLECTING_SYMPTOMS) {
      assert step == SymptomsStep(session, input, world);
      SymptomsFollowsTable(session, input, world);
    } else if state == Str(SELECTING_DOCTOR) {
      assert step == SelectingDoctorStep(session, input, world);
      SelectingDoctorFollowsTable(session, input, world);
    } else if state == Str(COLLECTING_PATIENT_DETAILS) {
      assert step == DetailsStep(session, input, world);
      DetailsFollowsTable(session, input, world);
    }
    assert FollowsTable(session, step);
  }
}
