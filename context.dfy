/** What every handler works on: the update's context (`ctx`) with its sender,
    message and per-user session, the log of replies sent back, and the
    recorder standing in for the database. */
module BotContext {
  import opened JsString

  /** An incoming chat update: a text message, or a photo (whose `text` is undefined). */
  datatype Message = TextMessage(text: string) | PhotoMessage

  /** `ctx.message.text`: `None` (undefined) on a photo. */
  function TextOf(m: Message): (t: Option<string>)
    ensures t.Some? <==> m.TextMessage?
  {
    if m.TextMessage? then Some(m.text) else None
  }

  /** The sender's profile on the chat platform (`ctx.from`). */
  datatype Profile = Profile(id: int, username: Option<string>, firstName: string, lastName: Option<string>)

  /** The fields the payment-methods flow fills in `session.paymentData`. */
  datatype PaymentData = PaymentData(
    methodType: Option<string>,
    nickname: Option<string>,
    accountDetails: Option<string>,
    pmIdentityCard: Option<string>,
    pmPhoneNumber: Option<string>,
    pmBankName: Option<string>)

  /** The cost breakdown shown before an exchange is confirmed. */
  datatype Quote = Quote(amountUsd: int, commissionUsd: int, totalUsd: int, rateBs: int, totalBs: int)

  /** The kinds of reply the bot sends; texts and keyboards are not modelled. */
  datatype Reply =
    // exchange flow
    | ExchangeWelcome | AskAmount(action: string) | AskCustomAmount | ChooseValidAmount
    | InvalidAmount | Summary(shownAction: Option<string>, quote: Quote) | AskPayment | Cancelled
    | AskProof | ProcessingProof | ProofVerified(detail: string) | ProofRejected
    // payment-methods flow
    | PaymentMethodsMenu | ChooseValidOption | AskNickname | AskAccountEmail(methodType: string)
    | AskIdentityCard | AskPmPhone | AskPmBank | MethodSaved | MainMenu
    // registration flow
    | AskName | AskEmail | AskPhone | RegistrationComplete
    // dispatcher and commands
    | NotSure | UnknownImage | MustRegisterFirst | NoPermission | BroadcastUsage
    | BroadcastStarted | BroadcastDone(successCount: nat, errorCount: nat)

  /** A snapshot of the session's fields; `None` is JavaScript's null or undefined. */
  datatype SessionState = SessionState(
    flow: Option<string>,
    step: Option<string>,
    action: Option<string>,
    amount: Option<int>,
    name: Option<string>,
    email: Option<string>,
    phone: Option<string>,
    paymentData: Option<PaymentData>)

  /** The session a user starts with: `{ flow: null, step: null }`. */
  const EmptySession := SessionState(None, None, None, None, None, None, None, None)

  /** The per-user session object that the handlers update field by field. */
  class Session {
    var flow: Option<string>
    var step: Option<string>
    var action: Option<string>
    var amount: Option<int>
    var name: Option<string>
    var email: Option<string>
    var phone: Option<string>
    var paymentData: Option<PaymentData>

    function State(): SessionState
      reads this
    {
      SessionState(flow, step, action, amount, name, email, phone, paymentData)
    }

    /** The session middleware's `defaultSession`. */
    constructor Default()
      ensures State() == EmptySession
    {
      flow, step, action, amount := None, None, None, None;
      name, email, phone, paymentData := None, None, None, None;
    }
  }

  /** One update's context: who sent it, what was sent, the session (which a
      handler may set to null) and the replies sent so far. */
  class Context {
    const from: Profile
    const message: Message
    var session: Session?
    var replies: seq<Reply>

    constructor (from: Profile, message: Message, session: Session?)
      ensures this.from == from && this.message == message
      ensures this.session == session && replies == []
    {
      this.from := from;
      this.message := message;
      this.session := session;
      replies := [];
    }

    /** `ctx.reply(...)`. */
    method Respond(r: Reply)
      modifies this
      ensures replies == old(replies) + [r] && session == old(session)
    {
      replies := replies + [r];
    }
  }

  /** The record handed to `addUser`. */
  datatype UserData = UserData(
    telegramId: int,
    username: string,
    firstName: string,
    lastName: string,
    email: Option<string>,
    phone: Option<string>)

  /** The arguments of one `addPaymentMethod` call. */
  datatype SavedMethod = SavedMethod(userId: int, data: PaymentData)

  /** The persistence layer, reduced to the calls the flows make on it, in order. */
  class Database {
    var users: seq<UserData>
    var paymentMethods: seq<SavedMethod>

    constructor ()
      ensures users == [] && paymentMethods == []
    {
      users, paymentMethods := [], [];
    }

    method AddUser(u: UserData)
      modifies this
      ensures users == old(users) + [u] && paymentMethods == old(paymentMethods)
    {
      users := users + [u];
    }

    method AddPaymentMethod(userId: int, data: PaymentData)
      modifies this
      ensures paymentMethods == old(paymentMethods) + [SavedMethod(userId, data)]
      ensures users == old(users)
    {
      paymentMethods := paymentMethods + [SavedMethod(userId, data)];
    }
  }
}
