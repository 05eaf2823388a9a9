/** The bot's dispatcher: which handler an incoming text or photo reaches,
    the guard in front of the exchange flow, and the administrator's
    broadcast with its tally of deliveries. Handlers are tried in the order
    they are registered; the first that matches handles the update. */
module App {
  import opened JsString
  import opened BotContext
  import Exchange
  import Register

  /** The labels of the reply keyboards, which `on('text')` does not answer
      with "not sure". */
  const MenuLabels: seq<string> :=
    ["👤 Registrarme", "💹 Realizar Cambio", "ℹ️ Ayuda", "💳 Mis Métodos de Pago", "📜 Mi Historial"]

  predicate IsWordChar(c: char) {
    ('a' <= c <= 'z') || ('A' <= c <= 'Z') || ('0' <= c <= '9') || c == '_'
  }

  /** The text starts with the command `/name`, not followed by more of a
      command name. */
  predicate IsCommand(text: string, name: string) {
    var cmd := "/" + name;
    |cmd| <= |text| && text[..|cmd|] == cmd && (|text| == |cmd| || !IsWordChar(text[|cmd|]))
  }

  /** The handler a text message reaches. */
  datatype TextRoute =
    | StartCommand | HistoryHandler | HelpReply | BroadcastCommand
    | RegisterStart | RealizarCambio | ToRegister | ToExchange | NotSureReply | Unhandled

  /** `bot.on('text')`: by the session's flow, and otherwise "not sure" unless
      the text is a keyboard label. */
  function OnTextRoute(flow: Option<string>, text: string): (r: TextRoute)
    ensures r in {ToRegister, ToExchange, NotSureReply, Unhandled}
  {
    if flow == Some(Register.FLOW) then ToRegister
    else if flow == Some(Exchange.FLOW) then ToExchange
    else if text !in MenuLabels then NotSureReply
    else Unhandled
  }

  /** The handlers in the order they are registered: `start`, the history
      command and label, `help` and its label, `broadcast`, the two flow
      labels, then `on('text')`. */
  function RouteText(flow: Option<string>, text: string): (r: TextRoute)
    ensures r == NotSureReply ==>
      text !in MenuLabels && flow != Some(Register.FLOW) && flow != Some(Exchange.FLOW)
  {
    if IsCommand(text, "start") then StartCommand
    else if IsCommand(text, "historial") || text == "📜 Mi Historial" then HistoryHandler
    else if IsCommand(text, "help") || text == "ℹ️ Ayuda" then HelpReply
    else if IsCommand(text, "broadcast") then BroadcastCommand
    else if text == "👤 Registrarme" then RegisterStart
    else if text == "💹 Realizar Cambio" then RealizarCambio
    else OnTextRoute(flow, text)
  }

  /** The handler a photo reaches: the exchange flow in its payment step, or
      the generic reply. */
  function RoutePhoto(flow: Option<string>, step: Option<string>): (toExchange: bool)
  {
    flow == Some(Exchange.FLOW) && step == Some(Exchange.PAYMENT)
  }

  // ---- properties of the routing ----

  /** No text ever reaches the payment-methods handler: a user left in that
      flow gets the "not sure" reply or a menu handler. */
  lemma {:induction false} PaymentMethodsFlowIsNotRouted(text: string)
    ensures RouteText(Some("payment_methods"), text) !in {ToRegister, ToExchange}
    ensures (text !in MenuLabels && !IsCommand(text, "start") && !IsCommand(text, "historial")
             && !IsCommand(text, "help") && !IsCommand(text, "broadcast")) ==>
      RouteText(Some("payment_methods"), text) == NotSureReply
  {
  }

  /** A text that does not start with "/" is no command. */
  lemma {:induction false} NoCommandWithoutSlash(text: string, name: string)
    requires text == [] || text[0] != '/'
    ensures !IsCommand(text, name)
  {
    var cmd := "/" + name;
    if |cmd| <= |text| {
      assert text[..|cmd|][0] == text[0] && cmd[0] == '/';
    }
  }

  /** A text that does not start with "/" is routed by the keyboard labels
      heard before `on('text')`, and otherwise by `on('text')`. */
  lemma {:induction false} NonCommandRouting(flow: Option<string>, text: string)
    requires text == [] || text[0] != '/'
    ensures text == "📜 Mi Historial" ==> RouteText(flow, text) == HistoryHandler
    ensures text == "ℹ️ Ayuda" ==> RouteText(flow, text) == HelpReply
    ensures text == "👤 Registrarme" ==> RouteText(flow, text) == RegisterStart
    ensures text == "💹 Realizar Cambio" ==> RouteText(flow, text) == RealizarCambio
    ensures text !in {"📜 Mi Historial", "ℹ️ Ayuda", "👤 Registrarme", "💹 Realizar Cambio"} ==>
      RouteText(flow, text) == OnTextRoute(flow, text)
  {
    NoCommandWithoutSlash(text, "start");
    NoCommandWithoutSlash(text, "historial");
    NoCommandWithoutSlash(text, "help");
    NoCommandWithoutSlash(text, "broadcast");
  }

  /** The payment-methods label has no handler of its own: outside the two
      routed flows it is silently ignored, and inside them it is taken as an
      answer. */
  lemma {:induction false} PaymentMethodsLabelIsUnhandled(flow: Option<string>, text: string)
    requires text == "💳 Mis Métodos de Pago"
    ensures RouteText(flow, text) == OnTextRoute(flow, text)
    ensures flow != Some("register") && flow != Some("exchange") ==> RouteText(flow, text) == Unhandled
  {
    NonCommandRouting(flow, text);
    assert text in MenuLabels;
  }

  /** The flow labels are heard before `on('text')`: in the middle of a
      registration or an exchange, "💹 Realizar Cambio" restarts the exchange
      guard and "👤 Registrarme" restarts the registration, rather than being
      taken as an answer. */
  lemma {:induction false} LabelsPrecedeFlows(flow: Option<string>, exchange: string, register: string)
    requires exchange == "💹 Realizar Cambio" && register == "👤 Registrarme"
    ensures RouteText(flow, exchange) == RealizarCambio
    ensures RouteText(flow, register) == RegisterStart
  {
    NonCommandRouting(flow, exchange);
    NonCommandRouting(flow, register);
  }

  /** A fresh session (the middleware's default) has no flow, so free text
      gets the "not sure" reply. */
  lemma {:induction false} FreshSessionText(text: string)
    requires RouteText(EmptySession.flow, text) !in {StartCommand, HistoryHandler, HelpReply,
                                                     BroadcastCommand, RegisterStart, RealizarCambio}
    ensures RouteText(EmptySession.flow, text) == (if text in MenuLabels then Unhandled else NotSureReply)
  {
  }

  /** A user in the middle of a registration or an exchange is never told
      "not sure" and never ignored: some handler takes every text, and a text
      that is neither a command nor one of the four labels heard earlier is an
      answer to that flow. */
  lemma {:induction false} FlowUsersAreAnswered(flow: Option<string>, text: string)
    requires flow == Some("register") || flow == Some("exchange")
    ensures RouteText(flow, text) != NotSureReply && RouteText(flow, text) != Unhandled
    ensures ((text == [] || text[0] != '/')
             && text !in {"📜 Mi Historial", "ℹ️ Ayuda", "👤 Registrarme", "💹 Realizar Cambio"}) ==>
      RouteText(flow, text) == (if flow == Some("register") then ToRegister else ToExchange)
  {
    if text == [] || text[0] != '/' {
      NonCommandRouting(flow, text);
    }
  }

  /** Whatever the session, a photo leaves it as it was: outside the payment
      step it only gets the generic reply, and in the payment step the
      exchange handler only acknowledges it. */
  lemma {:induction false} PhotoKeepsSession(s: SessionState)
    ensures RoutePhoto(s.flow, s.step) ==>
      Exchange.Next(s, PhotoMessage) == Exchange.Handled(s, [ProcessingProof])
  {
  }

  // ---- the broadcast command ----

  /** `ADMIN_ID`: the environment value, or "0" when it is unset or empty,
      read by `parseInt`; `None` is `NaN`. */
  function AdminId(env: Option<string>): Option<int> {
    ParseInt(if env.None? || env.value == "" then "0" else env.value)
  }

  lemma {:induction false} AdminIdDefaultsToZero(env: Option<string>)
    requires env.None? || env == Some("")
    ensures AdminId(env) == Some(0)
  {
    ParseIntOfDecimal(0);
    assert IntToDecimal(0) == "0";
  }

  /** The text after "/broadcast", without surrounding white space. */
  function BroadcastText(text: string): string {
    Trim(Slice(text, |"/broadcast"|))
  }

  datatype BroadcastDecision = NotAdmin | Usage | Send(message: string)

  /** The guard of the broadcast command: only the administrator may use it,
      and only with a non-blank message. */
  function DecideBroadcast(senderId: int, adminId: Option<int>, text: string): BroadcastDecision {
    if adminId != Some(senderId) then NotAdmin
    else if BroadcastText(text) == "" then Usage
    else Send(BroadcastText(text))
  }

  /** Something is sent exactly when the sender is the administrator and the
      text after the command is not all white space. With a `NaN`
      administrator id, nobody may broadcast. */
  lemma {:induction false} BroadcastGuard(senderId: int, adminId: Option<int>, text: string)
    ensures DecideBroadcast(senderId, adminId, text).Send? <==>
      adminId == Some(senderId) && exists i :: 10 <= i < |text| && !IsJsWhitespace(text[i])
    ensures adminId.None? ==> DecideBroadcast(senderId, adminId, text) == NotAdmin
  {
    BlankBroadcastText(text);
  }

  /** The text after the command trims to nothing exactly when it is all
      white space. */
  lemma {:induction false} BlankBroadcastText(text: string)
    ensures BroadcastText(text) == "" <==> forall i :: 10 <= i < |text| ==> IsJsWhitespace(text[i])
  {
    var rest := Slice(text, 10);
    TrimEmptyIff(rest);
    if BroadcastText(text) == "" {
      forall i | 10 <= i < |text| ensures IsJsWhitespace(text[i]) {
        assert rest[i - 10] == text[i];
      }
    }
    if forall i :: 10 <= i < |text| ==> IsJsWhitespace(text[i]) {
      forall j | 0 <= j < |rest| ensures IsJsWhitespace(rest[j]) {
        assert rest[j] == text[10 + j];
      }
    }
  }

  /** What is sent is the text after the command with no white space at
      either end. */
  lemma {:induction false} BroadcastMessageIsTrimmed(senderId: int, adminId: Option<int>, text: string)
    requires DecideBroadcast(senderId, adminId, text).Send?
    ensures var m := DecideBroadcast(senderId, adminId, text).message;
      m != [] && !IsJsWhitespace(m[0]) && !IsJsWhitespace(m[|m| - 1])
  {
    TrimEdges(Slice(text, 10));
  }

  /** Counts the attempts that succeeded. */
  function CountTrue(outcomes: seq<bool>): nat
    decreases |outcomes|
  {
    if outcomes == [] then 0
    else CountTrue(outcomes[..|outcomes| - 1]) + (if outcomes[|outcomes| - 1] then 1 else 0)
  }

  /** Counts the attempts that failed. */
  function CountFalse(outcomes: seq<bool>): nat
    decreases |outcomes|
  {
    if outcomes == [] then 0
    else CountFalse(outcomes[..|outcomes| - 1]) + (if outcomes[|outcomes| - 1] then 0 else 1)
  }

  /** Every attempt is counted once, as a success or as an error. */
  lemma {:induction false} TallyAddsUp(outcomes: seq<bool>)
    ensures CountTrue(outcomes) + CountFalse(outcomes) == |outcomes|
    decreases |outcomes|
  {
    if outcomes != [] {
      TallyAddsUp(outcomes[..|outcomes| - 1]);
    }
  }

  /** One message sent through the chat platform. */
  datatype Delivery = Delivery(chatId: int, text: string)

  /** The messages the bot sends to users directly, in order. */
  class Outbox {
    var sent: seq<Delivery>

    constructor ()
      ensures sent == []
    {
      sent := [];
    }

    /** `ctx.telegram.sendMessage`: the attempt is made; whether it is
        delivered is the platform's answer, passed in. */
    method SendMessage(chatId: int, text: string, delivered: bool) returns (ok: bool)
      modifies this
      ensures sent == old(sent) + [Delivery(chatId, text)] && ok == delivered
    {
      sent := sent + [Delivery(chatId, text)];
      ok := delivered;
    }
  }

  /** The deliveries a broadcast attempts: one per user id, in order. */
  function Deliveries(userIds: seq<int>, message: string): (ds: seq<Delivery>)
    ensures |ds| == |userIds|
    ensures forall i :: 0 <= i < |ds| ==> ds[i] == Delivery(userIds[i], message)
  {
    seq(|userIds|, i requires 0 <= i < |userIds| => Delivery(userIds[i], message))
  }

  /** `broadcastMessage`: announce, attempt each user once in order, counting
      successes and errors, then report the tally. `outcomes[i]` is the
      platform's answer to the i-th attempt. */
  method BroadcastMessage(ctx: Context, outbox: Outbox, message: string, userIds: seq<int>, outcomes: seq<bool>)
    requires |outcomes| == |userIds|
    modifies ctx, outbox
    ensures ctx.session == old(ctx.session)
    ensures outbox.sent == old(outbox.sent) + Deliveries(userIds, message)
    ensures ctx.replies == old(ctx.replies) + [BroadcastStarted, BroadcastDone(CountTrue(outcomes), CountFalse(outcomes))]
  {
    ctx.Respond(BroadcastStarted);
    var successCount, errorCount := 0, 0;
    var i := 0;
    while i < |userIds|
      invariant 0 <= i <= |userIds|
      invariant outbox.sent == old(outbox.sent) + Deliveries(userIds[..i], message)
      invariant successCount == CountTrue(outcomes[..i]) && errorCount == CountFalse(outcomes[..i])
      invariant ctx.replies == old(ctx.replies) + [BroadcastStarted] && ctx.session == old(ctx.session)
    {
      var ok := outbox.SendMessage(userIds[i], message, outcomes[i]);
      if ok {
        successCount := successCount + 1;
      } else {
        errorCount := errorCount + 1;
      }
      assert outcomes[..i + 1][..i] == outcomes[..i];
      assert Deliveries(userIds[..i + 1], message) == Deliveries(userIds[..i], message) + [Delivery(userIds[i], message)];
      i := i + 1;
    }
    assert userIds[..i] == userIds && outcomes[..i] == outcomes;
    ctx.Respond(BroadcastDone(successCount, errorCount));
  }

  /** The broadcast command's handler. */
  method Broadcast(ctx: Context, outbox: Outbox, adminId: Option<int>, userIds: seq<int>, outcomes: seq<bool>)
    requires ctx.message.TextMessage? && |outcomes| == |userIds|
    modifies ctx, outbox
    ensures ctx.session == old(ctx.session)
    ensures var d := DecideBroadcast(ctx.from.id, adminId, ctx.message.text);
      && (d == NotAdmin ==> ctx.replies == old(ctx.replies) + [NoPermission] && outbox.sent == old(outbox.sent))
      && (d == Usage ==> ctx.replies == old(ctx.replies) + [BroadcastUsage] && outbox.sent == old(outbox.sent))
      && (d.Send? ==>
            && outbox.sent == old(outbox.sent) + Deliveries(userIds, d.message)
            && ctx.replies == old(ctx.replies)
                 + [BroadcastStarted, BroadcastDone(CountTrue(outcomes), CountFalse(outcomes))])
  {
    if adminId != Some(ctx.from.id) {
      ctx.Respond(NoPermission);
      return;
    }
    var message := Trim(Slice(ctx.message.text, |"/broadcast"|));
    if message == "" {
      ctx.Respond(BroadcastUsage);
      return;
    }
    BroadcastMessage(ctx, outbox, message, userIds, outcomes);
  }

  // ---- the handlers ----

  /** The `'💹 Realizar Cambio'` handler: only a registered user starts the
      exchange; `registered` is the database's answer. */
  method RealizarCambioHandler(ctx: Context, registered: bool)
    requires ctx.session != null
    modifies ctx, ctx.session
    ensures ctx.session == old(ctx.session)
    ensures registered ==>
      ctx.session.State() == Exchange.StartState(old(ctx.session.State()))
      && ctx.replies == old(ctx.replies) + [ExchangeWelcome]
    ensures !registered ==>
      ctx.session.State() == old(ctx.session.State()) && ctx.replies == old(ctx.replies) + [MustRegisterFirst]
  {
    if !registered {
      ctx.Respond(MustRegisterFirst);
      return;
    }
    Exchange.Start(ctx);
  }

  /** `bot.on('text')`, reached by a text no earlier handler took. */
  method OnText(ctx: Context, db: Database)
    requires ctx.session != null && ctx.message.TextMessage?
    modifies ctx, ctx.session, db
    ensures db.paymentMethods == old(db.paymentMethods)
    ensures var route := OnTextRoute(old(ctx.session.flow), ctx.message.text);
      && (route == ToRegister ==>
            var o := Register.Next(ctx.from, old(ctx.session.State()), ctx.message);
            && ctx.replies == old(ctx.replies) + o.replies
            && (o.session.Some? ==> ctx.session == old(ctx.session) && ctx.session.State() == o.session.value)
            && (o.session.None? ==> ctx.session == null)
            && db.users == old(db.users) + (if o.user.Some? then [o.user.value] else []))
      && (route == ToExchange ==>
            var o := Exchange.Next(old(ctx.session.State()), ctx.message);
            && ctx.session == old(ctx.session) && db.users == old(db.users)
            && ctx.session.State() == (if o.Threw? then old(ctx.session.State()) else o.state)
            && ctx.replies == old(ctx.replies) + (if o.Threw? then [] else o.replies))
      && (route in {NotSureReply, Unhandled} ==>
            && ctx.session == old(ctx.session) && ctx.session.State() == old(ctx.session.State())
            && db.users == old(db.users)
            && ctx.replies == old(ctx.replies) + (if route == NotSureReply then [Reply.NotSure] else []))
  {
    var text := ctx.message.text;
    if ctx.session.flow == Some(Register.FLOW) {
      Register.Handle(ctx, db);
    } else if ctx.session.flow == Some(Exchange.FLOW) {
      var _ := Exchange.Handle(ctx);
    } else if text !in MenuLabels {
      ctx.Respond(Reply.NotSure);
    }
  }

  /** `bot.on('photo')`. */
  method OnPhoto(ctx: Context)
    requires ctx.session != null && ctx.message.PhotoMessage?
    modifies ctx, ctx.session
    ensures ctx.session == old(ctx.session)
    ensures RoutePhoto(old(ctx.session.flow), old(ctx.session.step)) ==>
      var o := Exchange.Next(old(ctx.session.State()), ctx.message);
      o.Handled? && ctx.session.State() == o.state && ctx.replies == old(ctx.replies) + o.replies
    ensures !RoutePhoto(old(ctx.session.flow), old(ctx.session.step)) ==>
      ctx.session.State() == old(ctx.session.State()) && ctx.replies == old(ctx.replies) + [UnknownImage]
    ensures ctx.session.State() == old(ctx.session.State())
    ensures ctx.replies == old(ctx.replies)
      + [if RoutePhoto(old(ctx.session.flow), old(ctx.session.step)) then ProcessingProof else UnknownImage]
  {
    if ctx.session.flow == Some(Exchange.FLOW) && ctx.session.step == Some(Exchange.PAYMENT) {
      PhotoKeepsSession(ctx.session.State());
      var _ := Exchange.Handle(ctx);
    } else {
      ctx.Respond(UnknownImage);
    }
  }
}
