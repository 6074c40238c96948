/** The consultation booking handler: a guard on the four fields, then the
    record is saved, then the confirmation mail goes to the stored address,
    then the 201 reply. A failure of the save or of the mailer is an input;
    either one throws with the status still 200. */
module BookConsultation {
  import opened Common
  import opened ErrorMiddleware

  /** `req.body` as the handler destructures it. */
  datatype ConsultationBody = ConsultationBody(
    name: Option<string>, email: Option<string>, phone: Option<string>, message: Option<string>)

  /** The stored record: exactly the four fields. */
  datatype Consultation = Consultation(name: string, email: string, phone: string, message: string)

  /** What the handler did to the outside world, in order. */
  datatype ConsultationEffect = Saved(record: Consultation) | Mailed(to: string, about: Consultation)

  predicate AllFieldsGiven(body: ConsultationBody)
  {
    TruthyStr(body.name) && TruthyStr(body.email) && TruthyStr(body.phone) && TruthyStr(body.message)
  }

  method BookConsultation(body: ConsultationBody, stored: seq<Consultation>, saveError: Option<string>, mailFails: bool)
    returns (out: Outcome<string>, stored': seq<Consultation>, effects: seq<ConsultationEffect>)
    ensures !AllFieldsGiven(body) ==>
      out == Thrown(400, "All fields are required.") && stored' == stored && effects == []
    ensures AllFieldsGiven(body) && saveError.Some? ==>
      out == Thrown(200, saveError.value) && stored' == stored && effects == []
    ensures AllFieldsGiven(body) && saveError.None? ==>
      var c := Consultation(body.name.value, body.email.value, body.phone.value, body.message.value);
      && stored' == stored + [c]
      && (mailFails ==> out == Thrown(200, "Email could not be sent") && effects == [Saved(c)])
      && (!mailFails ==> out == Reply(201, "Consultation booked successfully.") && effects == [Saved(c), Mailed(c.email, c)])
    ensures out.Reply? ==> out.status == 201 && |stored'| == |stored| + 1 && |effects| == 2 && effects[1].Mailed?
    ensures |stored'| > |stored| ==> |effects| > 0 && effects[0] == Saved(stored'[|stored|])
  {
    if !TruthyStr(body.name) || !TruthyStr(body.email) || !TruthyStr(body.phone) || !TruthyStr(body.message) {
      return Thrown(400, "All fields are required."), stored, [];
    }
    var consultation := Consultation(body.name.value, body.email.value, body.phone.value, body.message.value);
    if saveError.Some? {
      return Thrown(200, saveError.value), stored, [];
    }
    stored' := stored + [consultation];
    effects := [Saved(consultation)];
    if mailFails {
      return Thrown(200, "Email could not be sent"), stored', effects;
    }
    effects := effects + [Mailed(consultation.email, consultation)];
    out := Reply(201, "Consultation booked successfully.");
  }

  /** A failed mail still leaves the booking stored, and the client sees a
      500 whose message is the mailer's. */
  method BookingWithMailFailure(body: ConsultationBody, stored: seq<Consultation>, stack: string, nodeEnv: string)
    returns (response: Response<string>, stored': seq<Consultation>)
    requires AllFieldsGiven(body)
    ensures |stored'| == |stored| + 1 && stored'[|stored|].email == body.email.value
    ensures response.Failed? && response.reply.status == 500 && response.reply.message == "Email could not be sent"
  {
    var out, effects;
    out, stored', effects := BookConsultation(body, stored, None, true);
    response := Finish(out, stack, nodeEnv);
  }
}
