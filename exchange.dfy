/** The exchange conversation: buy or sell, an amount, a confirmation with the
    price breakdown, then a payment-proof photo. `Next` says what one message
    does to the session; `Handle` is the handler that updates the session in
    place and is proved to do exactly that. */
module Exchange {
  import opened JsString
  import opened BotContext
  import ImageService

  const FLOW := "exchange"
  const ACTION := "action"
  const SELECT_AMOUNT := "select_amount"
  const CUSTOM_AMOUNT := "custom_amount"
  const CONFIRM := "confirm"
  const PAYMENT := "payment"

  /** `TASA_BOLIVAR`: bolivars per US dollar. */
  const RateBs := 196
  /** `COMISION_USD`: the fixed service fee in US dollars. */
  const CommissionUsd := 1

  /** The breakdown `showConfirmation` presents for an amount. */
  function PriceQuote(amount: int): (q: Quote)
    ensures q.amountUsd == amount && q.commissionUsd == 1 && q.rateBs == 196
    ensures q.totalUsd == q.amountUsd + q.commissionUsd
    ensures q.totalBs == q.totalUsd * q.rateBs
  {
    var total := amount + CommissionUsd;
    Quote(amount, CommissionUsd, total, RateBs, total * RateBs)
  }

  /** The buy-ten-dollars example: 11 dollars, or 2156 bolivars, to pay. */
  lemma {:induction false} QuoteForTen()
    ensures PriceQuote(10).totalUsd == 11 && PriceQuote(10).totalBs == 2156
  {
  }

  /** Every extra dollar asked for costs exactly one rate more in bolivars. */
  lemma {:induction false} QuoteIsAffine(a: int, b: int)
    ensures PriceQuote(b).totalBs - PriceQuote(a).totalBs == (b - a) * RateBs
    ensures a < b ==> PriceQuote(a).totalBs < PriceQuote(b).totalBs
  {
  }

  /** What `start` does to the session. */
  function StartState(s: SessionState): (r: SessionState)
    ensures r.flow == Some(FLOW) && r.step == Some(ACTION)
    ensures r.(flow := s.flow, step := s.step) == s
  {
    s.(flow := Some(FLOW), step := Some(ACTION))
  }

  /** The result of handling one message: the new session and the replies, or a
      TypeError (reading `text` of a photo) that changes nothing. */
  datatype Outcome = Handled(state: SessionState, replies: seq<Reply>) | Threw

  /** The `handle` switch on `session.step`. */
  function Next(s: SessionState, m: Message): (o: Outcome)
    ensures o.Threw? <==> m.PhotoMessage? && s.step in {Some(ACTION), Some(SELECT_AMOUNT), Some(CONFIRM)}
    ensures o.Handled? ==> |o.replies| <= 1
    ensures o.Handled? ==> o.state.(flow := s.flow, step := s.step, action := s.action, amount := s.amount) == s
  {
    if s.step == Some(ACTION) then
      if m.PhotoMessage? then Threw
      else
        var action := if Includes(m.text, "Comprar") then "Comprar" else "Vender";
        Handled(s.(action := Some(action), step := Some(SELECT_AMOUNT)), [AskAmount(action)])
    else if s.step == Some(SELECT_AMOUNT) then
      if m.PhotoMessage? then Threw
      else if m.text == "Otro monto" then
        Handled(s.(step := Some(CUSTOM_AMOUNT)), [AskCustomAmount])
      else
        var amount := ParseInt(ReplaceFirst(m.text, '$'));
        if amount.None? then Handled(s, [ChooseValidAmount])
        else Handled(s.(amount := amount, step := Some(CONFIRM)),
                     [Summary(s.action, PriceQuote(amount.value))])
    else if s.step == Some(CUSTOM_AMOUNT) then
      // parseInt of an undefined text is NaN
      var amount := if m.PhotoMessage? then None else ParseInt(m.text);
      if amount.None? || amount.value <= 0 then Handled(s, [InvalidAmount])
      else Handled(s.(amount := amount, step := Some(CONFIRM)),
                   [Summary(s.action, PriceQuote(amount.value))])
    else if s.step == Some(CONFIRM) then
      if m.PhotoMessage? then Threw
      else if Includes(m.text, "Sí") then Handled(s.(step := Some(PAYMENT)), [AskPayment])
      else Handled(s.(flow := None, step := None), [Cancelled])
    else if s.step == Some(PAYMENT) then
      if m.TextMessage? then Handled(s, [AskProof])
      else Handled(s, [ProcessingProof])
    else
      Handled(s, [])
  }

  /** The session after a message: unchanged when the handler threw. */
  function After(s: SessionState, m: Message): SessionState {
    var o := Next(s, m);
    if o.Threw? then s else o.state
  }

  /** The session after a sequence of messages, each handled in turn. */
  function Run(s: SessionState, ms: seq<Message>): SessionState
    decreases |ms|
  {
    if ms == [] then s else Run(After(s, ms[0]), ms[1..])
  }

  /** The replies sent while handling a sequence of messages. */
  function RunReplies(s: SessionState, ms: seq<Message>): seq<Reply>
    decreases |ms|
  {
    if ms == [] then []
    else
      Replies(s, ms[0]) + RunReplies(After(s, ms[0]), ms[1..])
  }

  /** The replies sent while handling one message: none when it threw. */
  function Replies(s: SessionState, m: Message): seq<Reply> {
    var o := Next(s, m);
    if o.Threw? then [] else o.replies
  }

  // ---- the handlers, updating the session in place ----

  /** `exchangeFlow.start`. */
  method Start(ctx: Context)
    requires ctx.session != null
    modifies ctx, ctx.session
    ensures ctx.session == old(ctx.session)
    ensures ctx.session.State() == StartState(old(ctx.session.State()))
    ensures ctx.replies == old(ctx.replies) + [ExchangeWelcome]
  {
    ctx.session.flow := Some(FLOW);
    ctx.session.step := Some(ACTION);
    ctx.Respond(ExchangeWelcome);
  }

  /** `showConfirmation`: sends the breakdown for the session's amount. */
  method ShowConfirmation(ctx: Context)
    requires ctx.session != null && ctx.session.amount.Some?
    modifies ctx
    ensures ctx.session == old(ctx.session)
    ensures ctx.replies == old(ctx.replies)
      + [Summary(ctx.session.action, PriceQuote(ctx.session.amount.value))]
  {
    var amountToReceive := ctx.session.amount.value;
    var totalInUsd := amountToReceive + CommissionUsd;
    var totalInBolivares := totalInUsd * RateBs;
    ctx.Respond(Summary(ctx.session.action,
      Quote(amountToReceive, CommissionUsd, totalInUsd, RateBs, totalInBolivares)));
  }

  /** `exchangeFlow.handle`: returns whether it threw. */
  method Handle(ctx: Context) returns (threw: bool)
    requires ctx.session != null
    modifies ctx, ctx.session
    ensures ctx.session == old(ctx.session)
    ensures var o := Next(old(ctx.session.State()), ctx.message);
      if o.Threw? then
        threw && ctx.session.State() == old(ctx.session.State()) && ctx.replies == old(ctx.replies)
      else
        !threw && ctx.session.State() == o.state && ctx.replies == old(ctx.replies) + o.replies
  {
    var session := ctx.session;
    var msg := ctx.message;
    threw := false;
    if session.step == Some(ACTION) {
      if msg.PhotoMessage? { return true; }
      session.action := if Includes(msg.text, "Comprar") then Some("Comprar") else Some("Vender");
      session.step := Some(SELECT_AMOUNT);
      ctx.Respond(AskAmount(session.action.value));
    } else if session.step == Some(SELECT_AMOUNT) {
      if msg.PhotoMessage? { return true; }
      if msg.text == "Otro monto" {
        session.step := Some(CUSTOM_AMOUNT);
        ctx.Respond(AskCustomAmount);
      } else {
        var amount := ParseInt(ReplaceFirst(msg.text, '$'));
        if amount.None? {
          ctx.Respond(ChooseValidAmount);
          return;
        }
        session.amount := amount;
        ShowConfirmation(ctx);
        session.step := Some(CONFIRM);
      }
    } else if session.step == Some(CUSTOM_AMOUNT) {
      var customAmount := if msg.PhotoMessage? then None else ParseInt(msg.text);
      if customAmount.None? || customAmount.value <= 0 {
        ctx.Respond(InvalidAmount);
        return;
      }
      session.amount := customAmount;
      ShowConfirmation(ctx);
      session.step := Some(CONFIRM);
    } else if session.step == Some(CONFIRM) {
      if msg.PhotoMessage? { return true; }
      if Includes(msg.text, "Sí") {
        session.step := Some(PAYMENT);
        ctx.Respond(AskPayment);
      } else {
        session.flow := None;
        session.step := None;
        ctx.Respond(Cancelled);
      }
    } else if session.step == Some(PAYMENT) {
      if !msg.PhotoMessage? {
        ctx.Respond(AskProof);
        return;
      }
      // the file link, the recognition and its reply happen later, in a
      // promise callback that assigns no session field
      ctx.Respond(ProcessingProof);
    }
  }

  // ---- properties of the state machine ----

  /** In `action`, the action is "Comprar" exactly when the text contains
      "Comprar", and the step always advances to `select_amount`. */
  lemma {:induction false} ActionStep(s: SessionState, t: string)
    requires s.step == Some(ACTION)
    ensures Next(s, TextMessage(t)).Handled?
    ensures After(s, TextMessage(t)).step == Some(SELECT_AMOUNT)
    ensures After(s, TextMessage(t)).action == Some("Comprar") <==> Includes(t, "Comprar")
    ensures After(s, TextMessage(t)).action == Some("Vender") <==> !Includes(t, "Comprar")
    ensures After(s, TextMessage(t)).amount == s.amount
  {
  }

  /** In `select_amount`: "Otro monto" leads to `custom_amount`; otherwise the
      step becomes `confirm` exactly when the text, less its first '$', parses,
      and then the amount is that number; else nothing changes. */
  lemma {:induction false} SelectAmountStep(s: SessionState, t: string)
    requires s.step == Some(SELECT_AMOUNT)
    ensures t == "Otro monto" ==> After(s, TextMessage(t)) == s.(step := Some(CUSTOM_AMOUNT))
    ensures t != "Otro monto" ==>
      var n := ParseInt(ReplaceFirst(t, '$'));
      && (After(s, TextMessage(t)).step == Some(CONFIRM) <==> n.Some?)
      && (n.Some? ==> After(s, TextMessage(t)) == s.(amount := n, step := Some(CONFIRM)))
      && (n.None? ==> After(s, TextMessage(t)) == s)
  {
  }

  /** There is no positivity check in `select_amount`: a dollar sign before
      any integer, zero and negative ones included, is accepted as the
      amount. */
  lemma {:induction false} SelectAmountAcceptsAnyDollarAmount(s: SessionState, n: int)
    requires s.step == Some(SELECT_AMOUNT)
    ensures Next(s, TextMessage("$" + IntToDecimal(n)))
      == Handled(s.(amount := Some(n), step := Some(CONFIRM)), [Summary(s.action, PriceQuote(n))])
  {
    DollarAmountParses(n);
    SelectParsed(s, "$" + IntToDecimal(n), n);
  }

  lemma {:induction false} DollarAmountParses(n: int)
    ensures var t := "$" + IntToDecimal(n);
      t != "Otro monto" && ParseInt(ReplaceFirst(t, '$')) == Some(n)
  {
    var t := "$" + IntToDecimal(n);
    assert t[0] == '$' && t[..0] == [];
    IndexOfIs(t, '$', 0);
    assert ReplaceFirst(t, '$') == IntToDecimal(n);
    ParseIntOfDecimal(n);
    assert t != "Otro monto" by { assert "Otro monto"[0] == 'O'; }
  }

  lemma {:induction false} SelectParsed(s: SessionState, t: string, n: int)
    requires s.step == Some(SELECT_AMOUNT)
    requires t != "Otro monto" && ParseInt(ReplaceFirst(t, '$')) == Some(n)
    ensures Next(s, TextMessage(t))
      == Handled(s.(amount := Some(n), step := Some(CONFIRM)), [Summary(s.action, PriceQuote(n))])
  {
  }

  /** In particular "$0" is accepted. */
  lemma {:induction false} SelectAmountAcceptsZero(s: SessionState)
    requires s.step == Some(SELECT_AMOUNT)
    ensures After(s, TextMessage("$0")) == s.(amount := Some(0), step := Some(CONFIRM))
  {
    assert "$" + IntToDecimal(0) == "$0";
    SelectAmountAcceptsAnyDollarAmount(s, 0);
  }

  /** In `custom_amount`, the step becomes `confirm` exactly when the text parses
      to a positive number, which becomes the amount; otherwise nothing changes. */
  lemma {:induction false} CustomAmountStep(s: SessionState, m: Message)
    requires s.step == Some(CUSTOM_AMOUNT)
    ensures var n := if m.PhotoMessage? then None else ParseInt(m.text);
      && (After(s, m).step == Some(CONFIRM) <==> n.Some? && n.value > 0)
      && (After(s, m).step == Some(CONFIRM) ==> After(s, m) == s.(amount := n, step := Some(CONFIRM)))
      && (After(s, m).step != Some(CONFIRM) ==> After(s, m) == s && Next(s, m).replies == [InvalidAmount])
  {
  }

  /** In `confirm`, a text containing "Sí" moves to `payment`; any other text
      ends the flow, leaving action and amount in the session. */
  lemma {:induction false} ConfirmStep(s: SessionState, t: string)
    requires s.step == Some(CONFIRM)
    ensures Includes(t, "Sí") ==> After(s, TextMessage(t)) == s.(step := Some(PAYMENT))
    ensures !Includes(t, "Sí") ==> After(s, TextMessage(t)) == s.(flow := None, step := None)
  {
  }

  /** A step the switch does not list changes nothing and sends nothing. */
  lemma {:induction false} UnknownStepIsInert(s: SessionState, m: Message)
    requires s.step !in {Some(ACTION), Some(SELECT_AMOUNT), Some(CUSTOM_AMOUNT), Some(CONFIRM), Some(PAYMENT)}
    ensures Next(s, m) == Handled(s, [])
  {
  }

  /** Once in `payment`, no sequence of messages changes the session: a photo
      only starts the background processing, and nothing ever clears the
      session or leaves the step. */
  lemma {:induction false} PaymentIsAbsorbing(s: SessionState, ms: seq<Message>)
    requires s.step == Some(PAYMENT)
    ensures Run(s, ms) == s
    decreases |ms|
  {
    if ms != [] {
      assert After(s, ms[0]) == s;
      PaymentIsAbsorbing(s, ms[1..]);
    }
  }

  /** What the steps promise each other: past `action` the action is known, and
      in `confirm` and `payment` an amount is known. */
  predicate Consistent(s: SessionState) {
    && (s.step in {Some(SELECT_AMOUNT), Some(CUSTOM_AMOUNT), Some(CONFIRM), Some(PAYMENT)} ==>
          s.action in {Some("Comprar"), Some("Vender")})
    && (s.step in {Some(CONFIRM), Some(PAYMENT)} ==> s.amount.Some?)
  }

  lemma {:induction false} RunKeepsConsistent(s: SessionState, ms: seq<Message>)
    requires Consistent(s)
    ensures Consistent(Run(s, ms))
    decreases |ms|
  {
    if ms != [] {
      assert Consistent(After(s, ms[0]));
      RunKeepsConsistent(After(s, ms[0]), ms[1..]);
    }
  }

  /** Starting the flow from any session gives a consistent one. */
  lemma {:induction false} StartIsConsistent(s: SessionState)
    ensures Consistent(StartState(s))
  {
  }

  /** A whole purchase from `start`: a button text containing "Comprar", a
      dollar amount from the keyboard, and a confirmation containing "Sí"
      leave the session in `payment` with the amount recorded, after asking
      for the amount, showing the quote and asking for the payment. */
  lemma {:induction false} BuyingScenario(s: SessionState, buy: string, n: int, yes: string, i: int, j: int)
    requires OccursAt(buy, "Comprar", i) && OccursAt(yes, "Sí", j)
    ensures var ms := [TextMessage(buy), TextMessage("$" + IntToDecimal(n)), TextMessage(yes)];
      && Run(StartState(s), ms) == StartState(s).(action := Some("Comprar"), amount := Some(n), step := Some(PAYMENT))
      && RunReplies(StartState(s), ms)
           == [AskAmount("Comprar"), Summary(Some("Comprar"), PriceQuote(n)), AskPayment]
  {
    var s0 := StartState(s);
    var m1, m2, m3 := TextMessage(buy), TextMessage("$" + IntToDecimal(n)), TextMessage(yes);
    BuyingBy(s0, buy, i);
    var s1 := s0.(action := Some("Comprar"), step := Some(SELECT_AMOUNT));
    HandledStep(s0, m1, s1, [AskAmount("Comprar")]);
    SelectAmountAcceptsAnyDollarAmount(s1, n);
    var s2 := s1.(amount := Some(n), step := Some(CONFIRM));
    HandledStep(s1, m2, s2, [Summary(Some("Comprar"), PriceQuote(n))]);
    ConfirmedBy(s2, yes, j);
    HandledStep(s2, m3, s2.(step := Some(PAYMENT)), [AskPayment]);
    RunThreeMessages(s0, m1, m2, m3);
  }

  lemma {:induction false} HandledStep(s: SessionState, m: Message, s': SessionState, r: seq<Reply>)
    requires Next(s, m) == Handled(s', r)
    ensures After(s, m) == s' && Replies(s, m) == r
  {
  }

  /** Three messages are handled one after the other. */
  lemma {:induction false} RunThreeMessages(s: SessionState, m1: Message, m2: Message, m3: Message)
    ensures var s1 := After(s, m1); var s2 := After(s1, m2);
      && Run(s, [m1, m2, m3]) == After(s2, m3)
      && RunReplies(s, [m1, m2, m3]) == Replies(s, m1) + Replies(s1, m2) + Replies(s2, m3)
  {
    var s1 := After(s, m1);
    var s2 := After(s1, m2);
    RunOneMore(s2, m3, []);
    RunOneMore(s1, m2, [m3]);
    RunOneMore(s, m1, [m2, m3]);
    assert [m1] + [m2, m3] == [m1, m2, m3] && [m2] + [m3] == [m2, m3] && [m3] + [] == [m3];
  }

  lemma {:induction false} RunOneMore(s: SessionState, m: Message, ms: seq<Message>)
    ensures Run(s, [m] + ms) == Run(After(s, m), ms)
    ensures RunReplies(s, [m] + ms) == Replies(s, m) + RunReplies(After(s, m), ms)
  {
    assert ([m] + ms)[0] == m && ([m] + ms)[1..] == ms;
  }

  lemma {:induction false} BuyChosen(s: SessionState)
    requires s.step == Some(ACTION)
    ensures Next(s, TextMessage("📈 Comprar Zinli"))
      == Handled(s.(action := Some("Comprar"), step := Some(SELECT_AMOUNT)), [AskAmount("Comprar")])
  {
    assert "📈 Comprar Zinli"[2..9] == "Comprar";
    BuyingBy(s, "📈 Comprar Zinli", 2);
  }

  lemma {:induction false} BuyingBy(s: SessionState, t: string, k: int)
    requires s.step == Some(ACTION) && OccursAt(t, "Comprar", k)
    ensures Next(s, TextMessage(t))
      == Handled(s.(action := Some("Comprar"), step := Some(SELECT_AMOUNT)), [AskAmount("Comprar")])
  {
    IncludesIff(t, "Comprar");
  }

  lemma {:induction false} TenDollarsChosen(s: SessionState)
    requires s.step == Some(SELECT_AMOUNT)
    ensures Next(s, TextMessage("$10"))
      == Handled(s.(amount := Some(10), step := Some(CONFIRM)), [Summary(s.action, PriceQuote(10))])
  {
    assert "$" + IntToDecimal(10) == "$10";
    SelectAmountAcceptsAnyDollarAmount(s, 10);
  }

  lemma {:induction false} YesConfirms(s: SessionState)
    requires s.step == Some(CONFIRM)
    ensures Next(s, TextMessage("👍 Sí, confirmar")) == Handled(s.(step := Some(PAYMENT)), [AskPayment])
  {
    assert "👍 Sí, confirmar"[2..4] == "Sí";
    ConfirmedBy(s, "👍 Sí, confirmar", 2);
  }

  lemma {:induction false} ConfirmedBy(s: SessionState, t: string, k: int)
    requires s.step == Some(CONFIRM) && OccursAt(t, "Sí", k)
    ensures Next(s, TextMessage(t)) == Handled(s.(step := Some(PAYMENT)), [AskPayment])
  {
    IncludesIff(t, "Sí");
  }

  // ---- the payment proof, answered later from a promise callback ----

  /** The reply the `getFileLink` callback sends, given what it reads
      `success` from: `None` when that is a promise still pending (it has no
      `success` property), otherwise the settled result. On success the
      message is the header followed by `result.success`, a boolean that
      prints as "true". */
  function CallbackReply(seen: Option<ImageService.ExtractionResult>): (r: Reply)
    ensures r.ProofVerified? <==> seen.Some? && seen.value.success
    ensures r.ProofVerified? ==> r.detail == "true"
  {
    if seen.Some? && seen.value.success then ProofVerified("true") else ProofRejected
  }

  /** As written: `processPaymentImage` is called without `await`, so the
      callback sees the pending promise whatever the recognition yields. */
  function ProofReplyAsWritten(result: ImageService.ExtractionResult): (r: Reply)
    ensures r == ProofRejected
  {
    CallbackReply(None)
  }

  /** A receipt whose reference is found is still answered as unconfirmed. */
  lemma {:induction false} ValidReceiptIsRejected(t: string, d: string)
    requires t == ImageService.ReceiptLabel + d && 6 <= |d| <= 20 && AllDigits(d)
    ensures ImageService.ExtractReference(t).success
    ensures ProofReplyAsWritten(ImageService.ExtractReference(t)) == ProofRejected
  {
    ImageService.LabelledReference(t, d);
  }

  /** Even with the result awaited, the success message shows "true" and not
      the reference that was found. */
  lemma {:induction false} AwaitedReplyShowsTrue(t: string, d: string)
    requires t == ImageService.ReceiptLabel + d && 6 <= |d| <= 20 && AllDigits(d)
    ensures CallbackReply(Some(ImageService.ExtractReference(t))) == ProofVerified("true")
    ensures ImageService.ExtractReference(t).referenceId == Some(d) && d != "true"
  {
    ImageService.LabelledReference(t, d);
    assert !IsDigit("true"[0]);
    assert d[0] != "true"[0];
  }

  /** Corrected: the result is awaited and the reply reports the reference. */
  function ProofReply(result: ImageService.ExtractionResult): (r: Reply)
    ensures r.ProofVerified? <==> result.success && result.referenceId.Some?
    ensures r.ProofVerified? ==> result.referenceId == Some(r.detail)
  {
    if result.success && result.referenceId.Some? then ProofVerified(result.referenceId.value) else ProofRejected
  }

  /** With the correction, a verification reports a reference of 6 to 20
      digits, and only for text holding six digits in a row; for a receipt
      line "Numero de Referencia: " followed by 6 to 20 digits, it reports
      those digits. */
  lemma {:induction false} ProofReplyReportsReference(text: string)
    ensures ProofReply(ImageService.ExtractReference(text)).ProofVerified? ==>
      var ref := ProofReply(ImageService.ExtractReference(text)).detail;
      && 6 <= |ref| <= 20 && AllDigits(ref)
      && exists q :: ImageService.SixDigitsAt(text, q)
  {
    ImageService.ReferenceNeedsSixDigits(text);
  }

  lemma {:induction false} LabelledReceiptIsVerified(t: string, d: string)
    requires t == ImageService.ReceiptLabel + d && 6 <= |d| <= 20 && AllDigits(d)
    ensures ProofReply(ImageService.ExtractReference(t)) == ProofVerified(d)
  {
    ImageService.LabelledReference(t, d);
  }
}
