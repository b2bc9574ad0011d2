/**
 * Whole calls of `handle`, and sequences of them, against the in-memory
 * store. Each call reads the clock twice (`Clock`): at the load and at the
 * save.
 */
module DialogueScenarios {
  import opened Outcomes
  import opened TextOps
  import opened SessionModel
  import opened SessionStoreMemory
  import opened SessionStore
  import opened Orchestrator
  import opened OrchestratorProperties

  /**
   * A turn that writes nothing leaves the table as loading left it: a live
   * session keeps its state, and (with the record held as a value) the whole
   * stored entry.
   */
  lemma EarlyReturnKeepsStoredRecord(t: Table, id: string, input: string, clock: Clock, world: World)
    requires Turn(LoadResult(t, id, clock.load), input, world).write == NoWrite
    ensures var after := HandleInMemory(t, id, input, clock, world).sessions;
      id in t && !Expired(t[id], clock.load) && "state" in t[id].data ==>
        id in after && "state" in after[id].data && after[id].data["state"] == t[id].data["state"]
    ensures HandleInMemory(t, id, input, clock, world).sessions == AfterLoad(t, id, clock.load)
    ensures id in t && !Expired(t[id], clock.load) ==> HandleInMemory(t, id, input, clock, world).sessions[id] == t[id]
  {
  }

  /** The first message of a new (or expired) session greets and stores state COLLECTING_SYMPTOMS, stamped at the save. */
  lemma FirstMessageGreets(t: Table, id: string, input: string, clock: Clock, world: World)
    requires id !in t || Expired(t[id], clock.load)
    ensures var r := HandleInMemory(t, id, input, clock, world);
      && Says(r.reply, "health issue")
      && id in r.sessions
      && r.sessions[id] == Entry(FreshRecord()["state" := Str(COLLECTING_SYMPTOMS)], clock.save)
  {
    InitTurn(FreshRecord(), input, world);
  }

  /** A live session: `handle` runs the turn on the stored record and applies its write, stamped at the save. */
  lemma LiveSession(t: Table, id: string, input: string, clock: Clock, world: World)
    requires id in t && !Expired(t[id], clock.load)
    ensures var step := Turn(t[id].data, input, world);
      HandleInMemory(t, id, input, clock, world) == Turned(Render(step.reply), Commit(t, id, step.write, clock.save))
  {
    LoadRespectsTtl(t, id, clock.load);
  }

  /**
   * No doctor for the inferred specialty: the reply apologises, and the next
   * message (within the time-to-live of the last save) is still read as
   * symptoms: the stored state is untouched, and so (with the record held as
   * a value) is the whole record.
   */
  lemma NoDoctorsKeepsCollecting(t: Table, id: string, input: string, clock: Clock, later: real, world: World, raw: string)
    requires id in t && !Expired(t[id], clock.load)
    requires "state" in t[id].data && t[id].data["state"] == Str(COLLECTING_SYMPTOMS)
    requires world.classify(input) == Ok(raw)
    requires world.directory(Str(Sanitise(raw, world.isAlpha))) == Ok([])
    requires later - t[id].timestamp <= SESSION_TTL
    ensures var r := HandleInMemory(t, id, input, clock, world);
      && Says(r.reply, "Sorry")
      && "state" in LoadResult(r.sessions, id, later)
      && LoadResult(r.sessions, id, later)["state"] == Str(COLLECTING_SYMPTOMS)
    ensures LoadResult(HandleInMemory(t, id, input, clock, world).sessions, id, later) == t[id].data
  {
    SymptomsWithoutDoctors(t[id].data, input, world, raw);
    LiveSession(t, id, input, clock, world);
    LoadRespectsTtl(t, id, later);
    NoSpecialistsSays(Sanitise(raw, world.isAlpha));
  }

  /** Turn 2 of a booking: symptoms with doctors available give the menu and state SELECTING_DOCTOR. */
  lemma SymptomsHandled(t: Table, id: string, input: string, clock: Clock, world: World, raw: string, doctors: seq<Doctor>)
    requires id in t && !Expired(t[id], clock.load)
    requires "state" in t[id].data && t[id].data["state"] == Str(COLLECTING_SYMPTOMS)
    requires world.classify(input) == Ok(raw)
    requires world.directory(Str(Sanitise(raw, world.isAlpha))) == Ok(doctors) && doctors != []
    ensures var r := HandleInMemory(t, id, input, clock, world);
      && Says(r.reply, "doctor")
      && r.sessions == t[id := Entry(t[id].data["symptoms" := Str(input)]["speciality" := Str(Sanitise(raw, world.isAlpha))]
                                                ["state" := Str(SELECTING_DOCTOR)], clock.save)]
  {
    SymptomsWithDoctors(t[id].data, input, world, raw, doctors);
    LiveSession(t, id, input, clock, world);
    DoctorMenuSays(Names(doctors));
  }

  /** Turn 3 of a booking: a listed doctor with free slots gets the first slot offered, state CHECKING_AVAILABILITY. */
  lemma DoctorHandled(t: Table, id: string, input: string, clock: Clock, world: World, doctors: seq<Doctor>, slots: seq<Slot>)
    requires id in t && !Expired(t[id], clock.load)
    requires "state" in t[id].data && t[id].data["state"] == Str(SELECTING_DOCTOR)
    requires world.directory(Get(t[id].data, "speciality", Str(""))) == Ok(doctors)
    requires !Falsy(DoctorIdFor(doctors, input))
    requires world.slots(DoctorIdFor(doctors, input).value) == Ok(slots) && slots != []
    ensures var r := HandleInMemory(t, id, input, clock, world);
      && Says(r.reply, "available")
      && r.sessions == t[id := Entry(t[id].data["doctor_name" := Str(input)]["doctor_id" := Int(DoctorIdFor(doctors, input).value)]
                                                ["date" := Str(slots[0].date)]["time" := Str(slots[0].start)]
                                                ["state" := Str(CHECKING_AVAILABILITY)], clock.save)]
  {
    var k := MatchIndex(doctors, input);
    assert k < |doctors| && DoctorIdFor(doctors, input) == Some(doctors[k].id);
    DoctorWithSlots(t[id].data, input, world, doctors, k, slots);
    LiveSession(t, id, input, clock, world);
  }

  /** Turn 4 of a booking: a yes-word asks for the details, state COLLECTING_PATIENT_DETAILS. */
  lemma YesHandled(t: Table, id: string, input: string, clock: Clock, world: World)
    requires id in t && !Expired(t[id], clock.load)
    requires "state" in t[id].data && t[id].data["state"] == Str(CHECKING_AVAILABILITY)
    requires IsYes(input)
    ensures var r := HandleInMemory(t, id, input, clock, world);
      && Says(r.reply, "name")
      && r.sessions == t[id := Entry(t[id].data["state" := Str(COLLECTING_PATIENT_DETAILS)], clock.save)]
  {
    AvailabilityAnswer(t[id].data, input, world);
    LiveSession(t, id, input, clock, world);
  }

  /** Turn 5 of a booking: the booking goes through, the reply confirms, and the session is removed. */
  lemma DetailsHandled(t: Table, id: string, input: string, clock: Clock, world: World)
    requires id in t && !Expired(t[id], clock.load)
    requires "state" in t[id].data && t[id].data["state"] == Str(COLLECTING_PATIENT_DETAILS)
    requires "phone" in t[id].data
    requires forall b :: world.book(b).Ok?
    ensures var r := HandleInMemory(t, id, input, clock, world);
      && Says(r.reply, "confirmed")
      && r.sessions == t - {id}
  {
    var session := t[id].data;
    WithDetailsFields(session, input);
    var v := world.book(BookingOf(WithDetails(session, input))).value;
    BookingReturns(session, input, world, v);
    LiveSession(t, id, input, clock, world);
  }

  /** Removing a key undoes any earlier update of it. */
  lemma DropAfterUpdate(t: Table, id: string, e: Entry)
    ensures t[id := e] - {id} == t - {id}
    ensures id !in t ==> t - {id} == t
  {
  }

  /**
   * The booking flow from a new session: greeting, symptoms, doctor name,
   * a yes-word and the patient details give replies that mention, in turn,
   * the health issue, the doctor, availability, the name, and the
   * confirmation; afterwards the session is gone and every other session is
   * as it was. Each load comes within the time-to-live of the previous save.
   */
  lemma HappyPath(t0: Table, id: string, world: World,
                  greeting: string, symptoms: string, doctorName: string, answer: string, details: string,
                  c1: Clock, c2: Clock, c3: Clock, c4: Clock, c5: Clock,
                  raw: string, doctors: seq<Doctor>, slots: seq<Slot>)
    requires id !in t0
    requires c2.load - c1.save <= SESSION_TTL && c3.load - c2.save <= SESSION_TTL
    requires c4.load - c3.save <= SESSION_TTL && c5.load - c4.save <= SESSION_TTL
    requires world.classify(symptoms) == Ok(raw)
    requires world.directory(Str(Sanitise(raw, world.isAlpha))) == Ok(doctors) && doctors != []
    requires !Falsy(DoctorIdFor(doctors, doctorName))
    requires world.slots(DoctorIdFor(doctors, doctorName).value) == Ok(slots) && slots != []
    requires IsYes(answer)
    requires forall b :: world.book(b).Ok?
    ensures
      var r1 := HandleInMemory(t0, id, greeting, c1, world);
      var r2 := HandleInMemory(r1.sessions, id, symptoms, c2, world);
      var r3 := HandleInMemory(r2.sessions, id, doctorName, c3, world);
      var r4 := HandleInMemory(r3.sessions, id, answer, c4, world);
      var r5 := HandleInMemory(r4.sessions, id, details, c5, world);
      && Says(r1.reply, "health issue")
      && Says(r2.reply, "doctor")
      && Says(r3.reply, "available")
      && Says(r4.reply, "name")
      && Says(r5.reply, "confirmed")
      && r5.sessions == t0
  {
    var s1 := HandleInMemory(t0, id, greeting, c1, world).sessions;
    FirstMessageGreets(t0, id, greeting, c1, world);
    var rec1 := s1[id].data;
    assert "phone" in rec1;

    var s2 := HandleInMemory(s1, id, symptoms, c2, world).sessions;
    SymptomsHandled(s1, id, symptoms, c2, world, raw, doctors);
    var rec2 := s2[id].data;
    assert Get(rec2, "speciality", Str("")) == Str(Sanitise(raw, world.isAlpha));
    assert "phone" in rec2;

    var s3 := HandleInMemory(s2, id, doctorName, c3, world).sessions;
    DoctorHandled(s2, id, doctorName, c3, world, doctors, slots);
    assert "phone" in s3[id].data;

    var s4 := HandleInMemory(s3, id, answer, c4, world).sessions;
    YesHandled(s3, id, answer, c4, world);
    assert "phone" in s4[id].data;

    DetailsHandled(s4, id, details, c5, world);
    DropAfterUpdate(s3, id, s4[id]);
    DropAfterUpdate(s2, id, s3[id]);
    DropAfterUpdate(s1, id, s2[id]);
    DropAfterUpdate(t0, id, s1[id]);
  }
}
