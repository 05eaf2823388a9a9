/** The registration conversation: name, e-mail, phone; then one user record
    is written and the whole session is dropped. `Next` says what one message
    does; `Handle` is the handler that updates the context and the database in
    place and is proved to do exactly that. */
module Register {
  import opened JsString
  import opened BotContext

  const FLOW := "register"
  const NAME := "name"
  const EMAIL := "email"
  const PHONE := "phone"

  /** `value || 'N/A'`: an undefined or empty profile field becomes "N/A". */
  function OrNA(v: Option<string>): (r: string)
    ensures v.Some? && v.value != "" ==> r == v.value
    ensures v.None? || v.value == "" ==> r == "N/A"
  {
    if v.Some? && v.value != "" then v.value else "N/A"
  }

  /** The record `addUser` receives once the phone is known: the identity and
      names come from the platform profile, the contact data from the
      session. */
  function NewUser(from: Profile, s: SessionState, phone: Option<string>): (u: UserData)
    ensures u.telegramId == from.id && u.firstName == from.firstName
    ensures u.username == OrNA(from.username) && u.lastName == OrNA(from.lastName)
    ensures u.email == s.email && u.phone == phone
  {
    UserData(from.id, OrNA(from.username), from.firstName, OrNA(from.lastName), s.email, phone)
  }

  /** What `start` does to the session. */
  function StartState(s: SessionState): (r: SessionState)
    ensures r.flow == Some(FLOW) && r.step == Some(NAME)
    ensures r.(flow := s.flow, step := s.step) == s
  {
    s.(flow := Some(FLOW), step := Some(NAME))
  }

  /** The result of handling one message: the session afterwards (`None` once
      it has been set to null), the replies, and the user recorded, if any. */
  datatype Outcome = Outcome(session: Option<SessionState>, replies: seq<Reply>, user: Option<UserData>)

  /** The `handle` switch on `session.step`. */
  function Next(from: Profile, s: SessionState, m: Message): (o: Outcome)
    ensures o.session.None? <==> s.step == Some(PHONE)
    ensures o.user.Some? <==> s.step == Some(PHONE)
    ensures o.session.Some? ==> o.session.value.(name := s.name, email := s.email, step := s.step) == s
  {
    var text := TextOf(m);
    if s.step == Some(NAME) then
      Outcome(Some(s.(name := text, step := Some(EMAIL))), [AskEmail], None)
    else if s.step == Some(EMAIL) then
      Outcome(Some(s.(email := text, step := Some(PHONE))), [AskPhone], None)
    else if s.step == Some(PHONE) then
      Outcome(None, [RegistrationComplete], Some(NewUser(from, s, text)))
    else
      Outcome(Some(s), [], None)
  }

  /** The users recorded while handling a sequence of messages, in order; the
      flow stops once the session is gone. */
  function RunUsers(from: Profile, s: SessionState, ms: seq<Message>): seq<UserData>
    decreases |ms|
  {
    if ms == [] then []
    else
      var o := Next(from, s, ms[0]);
      (if o.user.Some? then [o.user.value] else [])
        + (if o.session.Some? then RunUsers(from, o.session.value, ms[1..]) else [])
  }

  /** The session after a sequence of messages: `None` once it was dropped. */
  function Run(from: Profile, s: SessionState, ms: seq<Message>): Option<SessionState>
    decreases |ms|
  {
    if ms == [] then Some(s)
    else
      var o := Next(from, s, ms[0]);
      if o.session.Some? then Run(from, o.session.value, ms[1..]) else None
  }

  // ---- the handlers, updating the context in place ----

  /** `registerFlow.start`. */
  method Start(ctx: Context)
    requires ctx.session != null
    modifies ctx, ctx.session
    ensures ctx.session == old(ctx.session)
    ensures ctx.session.State() == StartState(old(ctx.session.State()))
    ensures ctx.replies == old(ctx.replies) + [AskName]
  {
    ctx.session.flow := Some(FLOW);
    ctx.session.step := Some(NAME);
    ctx.Respond(AskName);
  }

  /** `registerFlow.handle`. */
  method Handle(ctx: Context, db: Database)
    requires ctx.session != null
    modifies ctx, ctx.session, db
    ensures var o := Next(ctx.from, old(ctx.session.State()), ctx.message);
      && ctx.replies == old(ctx.replies) + o.replies
      && (o.session.Some? ==> ctx.session == old(ctx.session) && ctx.session.State() == o.session.value)
      && (o.session.None? ==> ctx.session == null)
      && db.users == old(db.users) + (if o.user.Some? then [o.user.value] else [])
      && db.paymentMethods == old(db.paymentMethods)
  {
    var session := ctx.session;
    var text := TextOf(ctx.message);
    if session.step == Some(NAME) {
      session.name := text;
      session.step := Some(EMAIL);
      ctx.Respond(AskEmail);
    } else if session.step == Some(EMAIL) {
      session.email := text;
      session.step := Some(PHONE);
      ctx.Respond(AskPhone);
    } else if session.step == Some(PHONE) {
      session.phone := text;
      var from := ctx.from;
      var userData := UserData(from.id, if from.username.Some? && from.username.value != "" then from.username.value else "N/A",
        from.firstName, if from.lastName.Some? && from.lastName.value != "" then from.lastName.value else "N/A",
        session.email, session.phone);
      db.AddUser(userData);
      ctx.session := null;
      ctx.Respond(RegistrationComplete);
    }
  }

  // ---- properties of the state machine ----

  /** `name` stores the text and asks for the e-mail; `email` stores the text
      and asks for the phone. Nothing is recorded. */
  lemma {:induction false} NameAndEmailSteps(from: Profile, s: SessionState, t: string)
    ensures s.step == Some(NAME) ==>
      Next(from, s, TextMessage(t)) == Outcome(Some(s.(name := Some(t), step := Some(EMAIL))), [AskEmail], None)
    ensures s.step == Some(EMAIL) ==>
      Next(from, s, TextMessage(t)) == Outcome(Some(s.(email := Some(t), step := Some(PHONE))), [AskPhone], None)
  {
  }

  /** `phone` records exactly one user built from the profile and the session,
      and drops the session. */
  lemma {:induction false} PhoneStep(from: Profile, s: SessionState, t: string)
    requires s.step == Some(PHONE)
    ensures var o := Next(from, s, TextMessage(t));
      && o.session.None? && o.replies == [RegistrationComplete]
      && o.user == Some(UserData(from.id, OrNA(from.username), from.firstName, OrNA(from.lastName),
                                 s.email, Some(t)))
  {
  }

  /** A step the switch does not list changes nothing and records nothing. */
  lemma {:induction false} UnknownStepIsInert(from: Profile, s: SessionState, m: Message)
    requires s.step !in {Some(NAME), Some(EMAIL), Some(PHONE)}
    ensures Next(from, s, m) == Outcome(Some(s), [], None)
  {
  }

  /** The whole registration from `start`: three answers record exactly one
      user, with the typed e-mail and phone but the profile's first name (the
      typed name is not stored), and leave no session behind. Whatever comes
      after is not handled by this flow. */
  lemma {:induction false} FullRegistration(from: Profile, s: SessionState, name: string, email: string, phone: string, later: seq<Message>)
    ensures var ms := [TextMessage(name), TextMessage(email), TextMessage(phone)] + later;
      && RunUsers(from, StartState(s), ms)
           == [UserData(from.id, OrNA(from.username), from.firstName, OrNA(from.lastName), Some(email), Some(phone))]
      && Run(from, StartState(s), ms) == None
  {
    var ms := [TextMessage(name), TextMessage(email), TextMessage(phone)] + later;
    var s0 := StartState(s);
    var s1 := s0.(name := Some(name), step := Some(EMAIL));
    var s2 := s1.(email := Some(email), step := Some(PHONE));
    NameAndEmailSteps(from, s0, name);
    NameAndEmailSteps(from, s1, email);
    PhoneStep(from, s2, phone);
    assert ms[0] == TextMessage(name);
    assert ms[1..][0] == TextMessage(email);
    assert ms[1..][1..][0] == TextMessage(phone);
    assert RunUsers(from, s2, ms[1..][1..]) == [NewUser(from, s2, Some(phone))] + [];
    assert RunUsers(from, s1, ms[1..]) == [] + RunUsers(from, s2, ms[1..][1..]);
    assert Run(from, s2, ms[1..][1..]) == None;
    assert Run(from, s1, ms[1..]) == Run(from, s2, ms[1..][1..]);
  }
}
