/** The frontend's mock chat endpoint: an ordered keyword rule table over the request's
    category and the lower-cased message decides the reply and whether a ticket is created;
    the POST handler turns that into `{message, ticketCreated, ticketId}` or a 500 error.
    `Date.now()` is the parameter `now`. */
module ChatRoute {
  import opened Wrappers
  import opened Text

  /** `{ message, shouldCreateTicket }`. */
  datatype AIResponse = AIResponse(message: string, shouldCreateTicket: bool)

  const LoginReply: string :=
    "For login issues, try resetting your password using the 'Forgot Password' link on the login page. "
    + "If that doesn't work, I'll create a ticket for our technical team to assist you."
  const SlowReply: string :=
    "Try clearing your browser cache and cookies. If the issue persists, I'll escalate this to our technical team."
  const ContactReply: string :=
    "You can update your contact information in your profile settings. "
    + "Would you like me to create a ticket for account verification?"
  const ScheduleReply: string :=
    "You can view your course schedule in the 'My Courses' section. "
    + "If you need to make changes, I'll create a ticket for the academic team."
  const PaymentReply: string :=
    "Payment issues require verification from our finance team. "
    + "I'm creating a ticket for you now, and they'll contact you within 24 hours."
  const ComplexReply: string :=
    "I understand this is a complex issue. "
    + "Let me create a support ticket so our team can provide you with detailed assistance."
  const DetailsReply: string :=
    "I've noted your concern. Could you provide more details so I can better assist you? "
    + "If this is urgent, I can create a support ticket for immediate attention."

  /** Either keyword occurs in the text. */
  predicate Either(text: string, a: string, b: string)
  {
    Contains(text, a) || Contains(text, b)
  }

  /** The categories with their own rules; they are compared exactly. */
  const Technical: string := "Technical Issues"
  const Account: string := "Account Problems"
  const Course: string := "Course Questions"
  const Payment: string := "Payment Issues"

  /** No category rule answers: the request reaches the default rule. */
  predicate ReachesDefault(lower: string, category: Option<string>)
  {
    && !(category == Some(Technical) && (Either(lower, "login", "password") || Either(lower, "slow", "loading")))
    && !(category == Some(Account) && Either(lower, "email", "contact"))
    && !(category == Some(Course) && Either(lower, "schedule", "timetable"))
    && category != Some(Payment)
  }

  /** `getAIResponse`: the first matching rule answers. */
  function GetAIResponse(message: string, category: Option<string>): (r: AIResponse)
    ensures r.message in {LoginReply, SlowReply, ContactReply, ScheduleReply, PaymentReply, ComplexReply, DetailsReply}
    ensures !r.shouldCreateTicket ==> r.message in {LoginReply, ContactReply, ScheduleReply, DetailsReply}
  {
    var lower := Lower(message);
    if category == Some(Technical) && Either(lower, "login", "password") then
      AIResponse(LoginReply, Either(lower, "reset", "doesn't work"))
    else if category == Some(Technical) && Either(lower, "slow", "loading") then
      AIResponse(SlowReply, true)
    else if category == Some(Account) && Either(lower, "email", "contact") then
      AIResponse(ContactReply, Either(lower, "can't", "unable"))
    else if category == Some(Course) && Either(lower, "schedule", "timetable") then
      AIResponse(ScheduleReply, Either(lower, "change", "modify"))
    else if category == Some(Payment) then
      AIResponse(PaymentReply, true)
    else if Utf16Length(lower) > 100 || Either(lower, "help", "urgent") then
      AIResponse(ComplexReply, true)
    else
      AIResponse(DetailsReply, false)
  }

  /** Payment issues always get a ticket, whatever the message says. */
  lemma PaymentAlwaysTicket(message: string)
    ensures GetAIResponse(message, Some(Payment)) == AIResponse(PaymentReply, true)
  {
  }

  /** A technical login or password question creates a ticket exactly when it mentions a reset
      or that something doesn't work; this rule wins over the slow/loading rule, which
      otherwise always creates one. */
  lemma TechnicalRules(message: string)
    ensures var lower, r := Lower(message), GetAIResponse(message, Some(Technical));
      && (Either(lower, "login", "password") ==>
            r.message == LoginReply && (r.shouldCreateTicket <==> Either(lower, "reset", "doesn't work")))
      && (!Either(lower, "login", "password") && Either(lower, "slow", "loading") ==>
            r == AIResponse(SlowReply, true))
  {
  }

  /** An account question about email or contact details creates a ticket exactly when it says
      "can't" or "unable"; a course question about the schedule exactly when it says "change"
      or "modify". */
  lemma AccountAndCourseRules(message: string)
    ensures var lower := Lower(message);
      && (Either(lower, "email", "contact") ==>
            var r := GetAIResponse(message, Some(Account));
            r.message == ContactReply && (r.shouldCreateTicket <==> Either(lower, "can't", "unable")))
      && (Either(lower, "schedule", "timetable") ==>
            var r := GetAIResponse(message, Some(Course));
            r.message == ScheduleReply && (r.shouldCreateTicket <==> Either(lower, "change", "modify")))
  {
  }

  /** A request no category rule answers gets a ticket exactly when the lower-cased message is
      longer than 100 UTF-16 code units or mentions "help" or "urgent"; otherwise it is asked
      for details. Conversely, those two replies only ever come from the default rule. */
  lemma DefaultRule(message: string, category: Option<string>)
    ensures var lower, r := Lower(message), GetAIResponse(message, category);
      && (ReachesDefault(lower, category) ==>
            && (r.shouldCreateTicket <==> Utf16Length(lower) > 100 || Either(lower, "help", "urgent"))
            && (r.message == (if r.shouldCreateTicket then ComplexReply else DetailsReply)))
      && (r.message == ComplexReply || r.message == DetailsReply ==> ReachesDefault(lower, category))
  {
    var lower, r := Lower(message), GetAIResponse(message, category);
    if !ReachesDefault(lower, category) {
      assert r.message in {LoginReply, SlowReply, ContactReply, ScheduleReply, PaymentReply};
      assert |LoginReply| == 178 && |SlowReply| == 109 && |ContactReply| == 128 && |ScheduleReply| == 135;
      assert |PaymentReply| == 134 && |ComplexReply| == 122 && |DetailsReply| == 157;
    }
  }

  /** A category without rules of its own (compared exactly, so also a differently cased
      name) behaves as no category at all. */
  lemma UnknownCategory(message: string, category: string)
    requires category != Technical && category != Account && category != Course && category != Payment
    ensures GetAIResponse(message, Some(category)) == GetAIResponse(message, None)
  {
  }

  /** Keywords are matched on the lower-cased message, so the case of the message does not
      matter. */
  lemma CaseInsensitive(message: string, category: Option<string>)
    ensures GetAIResponse(Lower(message), category) == GetAIResponse(message, category)
  {
    LowerIdempotent(message);
  }

  // ---------------------------------------------------------------------------
  // POST
  // ---------------------------------------------------------------------------

  /** The decoded request body; a field the client left out, or sent as null, is None. */
  datatype ChatRequest = ChatRequest(message: Option<string>, category: Option<string>, userId: Option<string>)

  /** The JSON the endpoint answers with. */
  datatype PostResponse =
    | Reply(message: string, ticketCreated: bool, ticketId: Option<string>)
    | Failure(error: string, status: nat)

  /** `TKT-${Date.now()}`. */
  function TicketIdAt(now: nat): (id: string)
    ensures |id| > 4 && id[..4] == "TKT-" && IsDigits(id[4..]) && DigitsValue(id[4..]) == now
  {
    var digits := NatToString(now);
    NatToStringValue(now);
    assert ("TKT-" + digits)[4..] == digits;
    "TKT-" + digits
  }

  /** `POST`: a body that is not JSON, or a message that is not a string (so `toLowerCase`
      throws), gives the 500 error; otherwise the rule table's reply, the ticket flag, and a
      ticket id exactly when a ticket is created. */
  function Post(body: Option<ChatRequest>, now: nat): (r: PostResponse)
    ensures r.Failure? <==> body.None? || body.value.message.None?
    ensures r.Failure? ==> r == Failure("Failed to process message", 500)
    ensures r.Reply? ==>
      var ai := GetAIResponse(body.value.message.value, body.value.category);
      && r.message == ai.message
      && r.ticketCreated == ai.shouldCreateTicket
      && (r.ticketId.Some? <==> r.ticketCreated)
      && (r.ticketId.Some? ==> r.ticketId.value == TicketIdAt(now))
  {
    if body.None? || body.value.message.None? then Failure("Failed to process message", 500)
    else
      var ai := GetAIResponse(body.value.message.value, body.value.category);
      Reply(ai.message, ai.shouldCreateTicket, if ai.shouldCreateTicket then Some(TicketIdAt(now)) else None)
  }

  /** A payment request always answers with a ticket whose id encodes the request time. */
  lemma PaymentPostCreatesTicket(message: string, userId: Option<string>, now: nat)
    ensures var r := Post(Some(ChatRequest(Some(message), Some(Payment), userId)), now);
      && r.Reply? && r.ticketCreated && r.ticketId.Some?
      && r.ticketId.value[..4] == "TKT-" && DigitsValue(r.ticketId.value[4..]) == now
  {
    PaymentAlwaysTicket(message);
  }
}
