/** The payment-methods conversation: pick a kind of account, give it a
    nickname, then the account details, after which the record is saved once
    and the flow ends. `Next` says what one message does; `Handle` is the
    handler that updates the session and the database in place and is proved
    to do exactly that. */
module PaymentMethods {
  import opened JsString
  import opened BotContext

  const FLOW := "payment_methods"
  const MENU := "menu"
  const ADD_METHOD_TYPE := "add_method_type"
  const ADD_NICKNAME := "add_nickname"
  const ADD_DETAILS_PAYPAL_ZINLI := "add_details_paypal_zinli"
  const ADD_DETAILS_PM_IDENTITY := "add_details_pm_identity"
  const ADD_DETAILS_PM_PHONE := "add_details_pm_phone"
  const ADD_DETAILS_PM_BANK := "add_details_pm_bank"

  /** The options of the method-type keyboard. */
  const ValidSelections: seq<string> := ["PayPal", "Zinli", "Pago Móvil"]

  /** The record a valid selection starts: only `method_type` is set, to the
      selection less its first space. */
  function NewPaymentData(selection: string): (d: PaymentData)
    ensures d.methodType == Some(ReplaceFirst(selection, ' '))
    ensures d.nickname.None? && d.accountDetails.None?
    ensures d.pmIdentityCard.None? && d.pmPhoneNumber.None? && d.pmBankName.None?
  {
    PaymentData(Some(ReplaceFirst(selection, ' ')), None, None, None, None, None)
  }

  /** What `start` does to the session. */
  function StartState(s: SessionState): (r: SessionState)
    ensures r.flow == Some(FLOW) && r.step == Some(MENU)
    ensures r.(flow := s.flow, step := s.step) == s
  {
    s.(flow := Some(FLOW), step := Some(MENU))
  }

  /** The result of handling one message: the new session, the replies and the
      record saved (if any), or a TypeError (a field written into a missing
      `paymentData`) that changes nothing. */
  datatype Outcome = Handled(state: SessionState, replies: seq<Reply>, saved: Option<PaymentData>) | Threw

  /** `askForDetails`: where the nickname leads, by method type. */
  function DetailsStep(s: SessionState, d: PaymentData): (o: Outcome)
    ensures o.Handled? && o.saved.None? && o.state.paymentData == Some(d)
    ensures o.state.(paymentData := s.paymentData, step := s.step) == s
    ensures o.replies != [] <==> d.methodType in {Some("PayPal"), Some("Zinli"), Some("PagoMovil")}
    ensures d.methodType in {Some("PayPal"), Some("Zinli")} ==>
      o.state.step == Some(ADD_DETAILS_PAYPAL_ZINLI) && o.replies == [AskAccountEmail(d.methodType.value)]
    ensures d.methodType == Some("PagoMovil") ==>
      o.state.step == Some(ADD_DETAILS_PM_IDENTITY) && o.replies == [AskIdentityCard]
    ensures d.methodType !in {Some("PayPal"), Some("Zinli"), Some("PagoMovil")} ==> o.state.step == s.step
  {
    if d.methodType == Some("PayPal") || d.methodType == Some("Zinli") then
      Handled(s.(paymentData := Some(d), step := Some(ADD_DETAILS_PAYPAL_ZINLI)),
        [AskAccountEmail(d.methodType.value)], None)
    else if d.methodType == Some("PagoMovil") then
      Handled(s.(paymentData := Some(d), step := Some(ADD_DETAILS_PM_IDENTITY)), [AskIdentityCard], None)
    else
      Handled(s.(paymentData := Some(d)), [], None)
  }

  /** `savePaymentMethod`: record `d`, confirm, clear the flow and show the
      main menu. */
  function Save(s: SessionState, d: PaymentData): (o: Outcome)
    ensures o.Handled? && o.saved == Some(d) && o.replies == [MethodSaved, MainMenu]
    ensures o.state.flow.None? && o.state.step.None? && o.state.paymentData.None?
    ensures o.state.(flow := s.flow, step := s.step, paymentData := s.paymentData) == s
  {
    Handled(s.(flow := None, step := None, paymentData := None), [MethodSaved, MainMenu], Some(d))
  }

  /** The `handle` switch on `session.step`. A photo has no text: the fields
      it fills become undefined (`None`). */
  function Next(s: SessionState, m: Message): (o: Outcome)
    ensures o.Threw? <==> s.paymentData.None? && s.step in {Some(ADD_NICKNAME), Some(ADD_DETAILS_PAYPAL_ZINLI),
      Some(ADD_DETAILS_PM_IDENTITY), Some(ADD_DETAILS_PM_PHONE), Some(ADD_DETAILS_PM_BANK)}
    ensures o.Handled? ==> o.state.(flow := s.flow, step := s.step, paymentData := s.paymentData) == s
    ensures o.Handled? && o.saved.Some? ==> o.state.flow.None? && o.state.step.None? && o.state.paymentData.None?
  {
    var text := TextOf(m);
    if s.step == Some(ADD_METHOD_TYPE) then
      if text.Some? && text.value in ValidSelections then
        Handled(s.(paymentData := Some(NewPaymentData(text.value)), step := Some(ADD_NICKNAME)),
          [AskNickname], None)
      else Handled(s, [ChooseValidOption], None)
    else if s.step == Some(ADD_NICKNAME) then
      if s.paymentData.None? then Threw
      else DetailsStep(s, s.paymentData.value.(nickname := text))
    else if s.step == Some(ADD_DETAILS_PAYPAL_ZINLI) then
      if s.paymentData.None? then Threw
      else Save(s, s.paymentData.value.(accountDetails := text))
    else if s.step == Some(ADD_DETAILS_PM_IDENTITY) then
      if s.paymentData.None? then Threw
      else Handled(s.(paymentData := Some(s.paymentData.value.(pmIdentityCard := text)),
                      step := Some(ADD_DETAILS_PM_PHONE)), [AskPmPhone], None)
    else if s.step == Some(ADD_DETAILS_PM_PHONE) then
      if s.paymentData.None? then Threw
      else Handled(s.(paymentData := Some(s.paymentData.value.(pmPhoneNumber := text)),
                      step := Some(ADD_DETAILS_PM_BANK)), [AskPmBank], None)
    else if s.step == Some(ADD_DETAILS_PM_BANK) then
      if s.paymentData.None? then Threw
      else Save(s, s.paymentData.value.(pmBankName := text))
    else
      Handled(s, [], None)
  }

  /** The session after a message: unchanged when the handler threw. */
  function After(s: SessionState, m: Message): SessionState {
    var o := Next(s, m);
    if o.Threw? then s else o.state
  }

  /** The record a message saves, if any. */
  function SavedBy(s: SessionState, m: Message): seq<PaymentData> {
    var o := Next(s, m);
    if o.Handled? && o.saved.Some? then [o.saved.value] else []
  }

  /** The session after a sequence of messages, each handled in turn. */
  function Run(s: SessionState, ms: seq<Message>): SessionState
    decreases |ms|
  {
    if ms == [] then s else Run(After(s, ms[0]), ms[1..])
  }

  /** The records saved while handling a sequence of messages, in order. */
  function RunSaved(s: SessionState, ms: seq<Message>): seq<PaymentData>
    decreases |ms|
  {
    if ms == [] then [] else SavedBy(s, ms[0]) + RunSaved(After(s, ms[0]), ms[1..])
  }

  // ---- the handlers, updating the session and the database in place ----

  /** `paymentMethodsFlow.start`; `showMenu` lists the saved methods, which
      are not modelled, so only the kind of reply is recorded. */
  method Start(ctx: Context)
    requires ctx.session != null
    modifies ctx, ctx.session
    ensures ctx.session == old(ctx.session)
    ensures ctx.session.State() == StartState(old(ctx.session.State()))
    ensures ctx.replies == old(ctx.replies) + [PaymentMethodsMenu]
  {
    ctx.session.flow := Some(FLOW);
    ctx.session.step := Some(MENU);
    ctx.Respond(PaymentMethodsMenu);
  }

  /** `handleMethodTypeSelection`. */
  method HandleMethodTypeSelection(ctx: Context)
    requires ctx.session != null
    modifies ctx, ctx.session
    ensures ctx.session == old(ctx.session)
    ensures var selection := TextOf(ctx.message);
      if selection.Some? && selection.value in ValidSelections then
        && ctx.session.State() == old(ctx.session.State()).(
             paymentData := Some(NewPaymentData(selection.value)), step := Some(ADD_NICKNAME))
        && ctx.replies == old(ctx.replies) + [AskNickname]
      else
        ctx.session.State() == old(ctx.session.State()) && ctx.replies == old(ctx.replies) + [ChooseValidOption]
  {
    var selection := TextOf(ctx.message);
    if !(selection.Some? && selection.value in ValidSelections) {
      ctx.Respond(ChooseValidOption);
      return;
    }
    ctx.session.paymentData := Some(PaymentData(Some(ReplaceFirst(selection.value, ' ')), None, None, None, None, None));
    ctx.session.step := Some(ADD_NICKNAME);
    ctx.Respond(AskNickname);
  }

  /** `askForDetails`. */
  method AskForDetails(ctx: Context)
    requires ctx.session != null && ctx.session.paymentData.Some?
    modifies ctx, ctx.session
    ensures ctx.session == old(ctx.session)
    ensures var o := DetailsStep(old(ctx.session.State()), old(ctx.session.paymentData.value));
      ctx.session.State() == o.state && ctx.replies == old(ctx.replies) + o.replies
  {
    var methodType := ctx.session.paymentData.value.methodType;
    if methodType == Some("PayPal") || methodType == Some("Zinli") {
      ctx.session.step := Some(ADD_DETAILS_PAYPAL_ZINLI);
      ctx.Respond(AskAccountEmail(methodType.value));
    } else if methodType == Some("PagoMovil") {
      ctx.session.step := Some(ADD_DETAILS_PM_IDENTITY);
      ctx.Respond(AskIdentityCard);
    }
  }

  /** `savePaymentMethod`. */
  method SavePaymentMethod(ctx: Context, db: Database)
    requires ctx.session != null && ctx.session.paymentData.Some?
    modifies ctx, ctx.session, db
    ensures ctx.session == old(ctx.session)
    ensures var o := Save(old(ctx.session.State()), old(ctx.session.paymentData.value));
      && ctx.session.State() == o.state
      && ctx.replies == old(ctx.replies) + o.replies
      && db.paymentMethods == old(db.paymentMethods) + [SavedMethod(ctx.from.id, o.saved.value)]
      && db.users == old(db.users)
  {
    db.AddPaymentMethod(ctx.from.id, ctx.session.paymentData.value);
    ctx.Respond(MethodSaved);
    ctx.session.flow := None;
    ctx.session.step := None;
    ctx.session.paymentData := None;
    ctx.Respond(MainMenu);
  }

  /** `paymentMethodsFlow.handle`: returns whether it threw. */
  method Handle(ctx: Context, db: Database) returns (threw: bool)
    requires ctx.session != null
    modifies ctx, ctx.session, db
    ensures ctx.session == old(ctx.session)
    ensures db.users == old(db.users)
    ensures var o := Next(old(ctx.session.State()), ctx.message);
      if o.Threw? then
        && threw && ctx.session.State() == old(ctx.session.State()) && ctx.replies == old(ctx.replies)
        && db.paymentMethods == old(db.paymentMethods)
      else
        && !threw && ctx.session.State() == o.state && ctx.replies == old(ctx.replies) + o.replies
        && db.paymentMethods == old(db.paymentMethods)
             + (if o.saved.Some? then [SavedMethod(ctx.from.id, o.saved.value)] else [])
  {
    var session := ctx.session;
    var text := TextOf(ctx.message);
    threw := false;
    if session.step == Some(ADD_METHOD_TYPE) {
      HandleMethodTypeSelection(ctx);
    } else if session.step == Some(ADD_NICKNAME) {
      if session.paymentData.None? { return true; }
      session.paymentData := Some(session.paymentData.value.(nickname := text));
      AskForDetails(ctx);
    } else if session.step == Some(ADD_DETAILS_PAYPAL_ZINLI) {
      if session.paymentData.None? { return true; }
      session.paymentData := Some(session.paymentData.value.(accountDetails := text));
      SavePaymentMethod(ctx, db);
    } else if session.step == Some(ADD_DETAILS_PM_IDENTITY) {
      if session.paymentData.None? { return true; }
      session.paymentData := Some(session.paymentData.value.(pmIdentityCard := text));
      session.step := Some(ADD_DETAILS_PM_PHONE);
      ctx.Respond(AskPmPhone);
    } else if session.step == Some(ADD_DETAILS_PM_PHONE) {
      if session.paymentData.None? { return true; }
      session.paymentData := Some(session.paymentData.value.(pmPhoneNumber := text));
      session.step := Some(ADD_DETAILS_PM_BANK);
      ctx.Respond(AskPmBank);
    } else if session.step == Some(ADD_DETAILS_PM_BANK) {
      if session.paymentData.None? { return true; }
      session.paymentData := Some(session.paymentData.value.(pmBankName := text));
      SavePaymentMethod(ctx, db);
    }
  }

  // ---- properties of the state machine ----

  /** Three messages, handled in turn. */
  lemma {:induction false} RunThree(s: SessionState, m0: Message, m1: Message, m2: Message)
    ensures var s1 := After(s, m0);
      var s2 := After(s1, m1);
      && Run(s, [m0, m1, m2]) == After(s2, m2)
      && RunSaved(s, [m0, m1, m2]) == SavedBy(s, m0) + SavedBy(s1, m1) + SavedBy(s2, m2)
  {
    var s1 := After(s, m0);
    var s2 := After(s1, m1);
    RunOneMore(s2, m2, []);
    RunOneMore(s1, m1, [m2]);
    RunOneMore(s, m0, [m1, m2]);
    assert [m0] + [m1, m2] == [m0, m1, m2] && [m1] + [m2] == [m1, m2] && [m2] + [] == [m2];
  }

  lemma {:induction false} RunOneMore(s: SessionState, m: Message, ms: seq<Message>)
    ensures Run(s, [m] + ms) == Run(After(s, m), ms)
    ensures RunSaved(s, [m] + ms) == SavedBy(s, m) + RunSaved(After(s, m), ms)
  {
    assert ([m] + ms)[0] == m && ([m] + ms)[1..] == ms;
  }

  /** `handle` has no `menu` case: from the menu no message moves the flow. */
  lemma {:induction false} MenuIsStuck(s: SessionState, ms: seq<Message>)
    requires s.step == Some(MENU)
    ensures Run(s, ms) == s && RunSaved(s, ms) == []
    decreases |ms|
  {
    if ms != [] {
      assert After(s, ms[0]) == s && SavedBy(s, ms[0]) == [];
      MenuIsStuck(s, ms[1..]);
    }
  }

  /** In `add_method_type`, a selection off the keyboard changes nothing; one of
      the three options starts a fresh record and asks for a nickname. */
  lemma {:induction false} MethodTypeStep(s: SessionState, m: Message)
    requires s.step == Some(ADD_METHOD_TYPE)
    ensures var t := TextOf(m);
      && (t.Some? && t.value in ValidSelections ==>
            Next(s, m) == Handled(s.(paymentData := Some(NewPaymentData(t.value)), step := Some(ADD_NICKNAME)),
                                  [AskNickname], None))
      && (!(t.Some? && t.value in ValidSelections) ==> Next(s, m) == Handled(s, [ChooseValidOption], None))
  {
  }

  /** Removing the first space of "Pago Móvil" gives "PagoMóvil", with an
      accent, which is not the "PagoMovil" `askForDetails` tests for. */
  lemma {:induction false} PagoMovilTypeIsAccented(sel: string)
    requires sel == "Pago Móvil"
    ensures NewPaymentData(sel).methodType == Some("PagoMóvil")
    ensures NewPaymentData(sel).methodType != Some("PagoMovil")
  {
    PagoMovilLosesItsSpace(sel);
    assert "PagoMóvil"[5] != "PagoMovil"[5];
  }

  lemma {:induction false} PagoMovilLosesItsSpace(sel: string)
    requires sel == "Pago Móvil"
    ensures ReplaceFirst(sel, ' ') == "PagoMóvil"
  {
    assert sel == "Pago" + [' '] + "Móvil";
    assert ' ' !in "Pago";
    RemoveFirstSpace("Pago", "Móvil");
    assert "Pago" + "Móvil" == "PagoMóvil";
  }

  /** `replace(' ', '')` drops the first space and only that one. */
  lemma {:induction false} RemoveFirstSpace(a: string, b: string)
    requires ' ' !in a
    ensures ReplaceFirst(a + [' '] + b, ' ') == a + b
  {
    var t := a + [' '] + b;
    assert t[..|a|] == a && t[|a|] == ' ' && t[|a| + 1..] == b;
    IndexOfIs(t, ' ', |a|);
  }

  /** So a Pago Móvil record never gets past its nickname: every later message
      only overwrites the nickname, nothing is saved and the flow never ends. */
  lemma {:induction false} PagoMovilIsStuck(s: SessionState, ms: seq<Message>)
    requires s.step == Some(ADD_NICKNAME)
    requires s.paymentData.Some? && s.paymentData.value.methodType == Some("PagoMóvil")
    ensures Run(s, ms).step == Some(ADD_NICKNAME) && Run(s, ms).flow == s.flow
    ensures Run(s, ms).paymentData.Some? && Run(s, ms).paymentData.value.methodType == Some("PagoMóvil")
    ensures RunSaved(s, ms) == []
    decreases |ms|
  {
    if ms != [] {
      var d := s.paymentData.value.(nickname := TextOf(ms[0]));
      assert Next(s, ms[0]) == Handled(s.(paymentData := Some(d)), [], None);
      PagoMovilIsStuck(After(s, ms[0]), ms[1..]);
    }
  }

  /** Choosing "Pago Móvil" and then giving a nickname leaves the flow in
      `add_nickname`, with no question asked. */
  lemma {:induction false} PagoMovilSelection(s: SessionState, sel: string, nickname: string)
    requires s.step == Some(ADD_METHOD_TYPE) && sel == "Pago Móvil"
    ensures var s1 := After(s, TextMessage(sel));
      && s1.step == Some(ADD_NICKNAME)
      && Next(s1, TextMessage(nickname)).Handled?
      && Next(s1, TextMessage(nickname)).replies == []
      && After(s1, TextMessage(nickname)).step == Some(ADD_NICKNAME)
  {
    PagoMovilLosesItsSpace(sel);
    assert sel in ValidSelections;
    SelectPagoMovil(s, sel, nickname);
  }

  lemma {:induction false} SelectPagoMovil(s: SessionState, sel: string, nickname: string)
    requires s.step == Some(ADD_METHOD_TYPE)
    requires sel in ValidSelections && ReplaceFirst(sel, ' ') == "PagoMóvil"
    ensures var s1 := After(s, TextMessage(sel));
      && s1.step == Some(ADD_NICKNAME)
      && Next(s1, TextMessage(nickname)).Handled?
      && Next(s1, TextMessage(nickname)).replies == []
      && After(s1, TextMessage(nickname)).step == Some(ADD_NICKNAME)
  {
    var d := NewPaymentData(sel);
    var s1 := s.(paymentData := Some(d), step := Some(ADD_NICKNAME));
    MethodTypeStep(s, TextMessage(sel));
    NicknameStep(s1, nickname);
    UnknownTypeWaits(s1, d.(nickname := Some(nickname)));
  }

  /** In `add_nickname` the nickname is stored and `askForDetails` decides. */
  lemma {:induction false} NicknameStep(s: SessionState, nickname: string)
    requires s.step == Some(ADD_NICKNAME) && s.paymentData.Some?
    ensures Next(s, TextMessage(nickname)) == DetailsStep(s, s.paymentData.value.(nickname := Some(nickname)))
  {
  }

  /** A method type `askForDetails` does not know leaves the step as it is and
      asks nothing. */
  lemma {:induction false} UnknownTypeWaits(s: SessionState, d: PaymentData)
    requires d.methodType !in {Some("PayPal"), Some("Zinli"), Some("PagoMovil")}
    ensures DetailsStep(s, d) == Handled(s.(paymentData := Some(d)), [], None)
  {
  }

  /** A message saves a record exactly when the flow is at one of the two
      final steps with a record in progress; the record saved is the one in
      progress with the message's field filled in, and the flow is cleared. */
  lemma {:induction false} SaveStep(s: SessionState, m: Message)
    ensures var o := Next(s, m);
      && (o.Handled? && o.saved.Some? <==>
            s.step in {Some(ADD_DETAILS_PAYPAL_ZINLI), Some(ADD_DETAILS_PM_BANK)} && s.paymentData.Some?)
      && (s.step == Some(ADD_DETAILS_PAYPAL_ZINLI) && s.paymentData.Some? ==>
            o.saved == Some(s.paymentData.value.(accountDetails := TextOf(m))))
      && (s.step == Some(ADD_DETAILS_PM_BANK) && s.paymentData.Some? ==>
            o.saved == Some(s.paymentData.value.(pmBankName := TextOf(m))))
      && (o.Handled? && o.saved.Some? ==>
            o.state.flow.None? && o.state.step.None? && o.state.paymentData.None?)
  {
  }

  /** The PayPal chain: selection, nickname, e-mail. One record is saved, with
      those three values, and the flow ends. */
  lemma {:induction false} PayPalChain(s: SessionState, nickname: string, email: string)
    requires s.step == Some(ADD_METHOD_TYPE)
    ensures var ms := [TextMessage("PayPal"), TextMessage(nickname), TextMessage(email)];
      && RunSaved(s, ms) == [PaymentData(Some("PayPal"), Some(nickname), Some(email), None, None, None)]
      && Run(s, ms) == s.(flow := None, step := None, paymentData := None)
  {
    assert ReplaceFirst("PayPal", ' ') == "PayPal";
    assert "PayPal" in ValidSelections;
    var d := PaymentData(Some("PayPal"), None, None, None, None, None);
    var s1 := s.(paymentData := Some(d), step := Some(ADD_NICKNAME));
    MethodTypeStep(s, TextMessage("PayPal"));
    var s2 := s1.(paymentData := Some(d.(nickname := Some(nickname))), step := Some(ADD_DETAILS_PAYPAL_ZINLI));
    NicknameStep(s1, nickname);
    assert After(s1, TextMessage(nickname)) == s2;
    RunThree(s, TextMessage("PayPal"), TextMessage(nickname), TextMessage(email));
  }

  /** The Pago Móvil detail chain: identity card, phone, bank, each stored in
      the record, which is then saved once and the flow ends. */
  lemma {:induction false} PagoMovilDetailsChain(s: SessionState, card: string, phone: string, bank: string)
    requires s.step == Some(ADD_DETAILS_PM_IDENTITY) && s.paymentData.Some?
    ensures var ms := [TextMessage(card), TextMessage(phone), TextMessage(bank)];
      && RunSaved(s, ms) == [s.paymentData.value.(pmIdentityCard := Some(card), pmPhoneNumber := Some(phone),
                                                  pmBankName := Some(bank))]
      && Run(s, ms) == s.(flow := None, step := None, paymentData := None)
  {
    var d := s.paymentData.value;
    var s1 := s.(paymentData := Some(d.(pmIdentityCard := Some(card))), step := Some(ADD_DETAILS_PM_PHONE));
    var s2 := s1.(paymentData := Some(d.(pmIdentityCard := Some(card), pmPhoneNumber := Some(phone))),
                  step := Some(ADD_DETAILS_PM_BANK));
    assert After(s, TextMessage(card)) == s1 && SavedBy(s, TextMessage(card)) == [];
    assert After(s1, TextMessage(phone)) == s2 && SavedBy(s1, TextMessage(phone)) == [];
    RunThree(s, TextMessage(card), TextMessage(phone), TextMessage(bank));
  }

  /** A step the switch does not list changes nothing, sends nothing and saves
      nothing. */
  lemma {:induction false} UnknownStepIsInert(s: SessionState, m: Message)
    requires s.step !in {Some(ADD_METHOD_TYPE), Some(ADD_NICKNAME), Some(ADD_DETAILS_PAYPAL_ZINLI),
                         Some(ADD_DETAILS_PM_IDENTITY), Some(ADD_DETAILS_PM_PHONE), Some(ADD_DETAILS_PM_BANK)}
    ensures Next(s, m) == Handled(s, [], None)
  {
  }
}
