/**
 * The bot's funnel (bot.py:73-227) as transitions over a snapshot of its
 * state: the aiogram FSM sessions (bot.py:35-36), the `users` table
 * (bot.py:38-43) and the log of what the bot sent, requested or scheduled.
 *
 * Calls to the language model are outside the model: each handler that
 * makes one takes its outcome as a parameter, and the log records that the
 * request was made and with which birth data.
 */
module Funnel {
  import opened Wrappers
  import opened BirthData

  /** The states of `Form` (bot.py:35-36); a session never set, or cleared, is Idle. */
  datatype FormState = Idle | WaitingBirthdata

  /** aiogram keys FSM sessions by chat and user. */
  datatype SessionKey = SessionKey(chat: int, user: int)

  /** A row of `users` (bot.py:40-42), keyed by `user_id`. */
  datatype UserRow = UserRow(birthData: string, paid: int)

  /** What a call to the language model gave back: its text, or an exception. */
  datatype Generation = Generated(text: string) | GenerationFailed

  /** The short reading after the birth data (bot.py:133-138) and the paid 2026 forecast (bot.py:219-224). */
  datatype Tier = Preview | Full

  /** The replies the bot sends, told apart without their Russian text. */
  datatype Reply =
    | Welcome                                  // bot.py:78-84
    | FormatPrompt                             // bot.py:89-93
    | FormatHint                               // bot.py:102-103
    | PreviewText(birthData: string, text: string)  // bot.py:141-142
    | NoData                                   // bot.py:186-187
    | ForecastText(text: string)               // bot.py:226-227

  /** The Telegram Stars invoice of bot.py:162-169. */
  datatype Invoice = Invoice(payload: string, currency: string, priceLabel: string, amount: int)

  const PriceStars := 99
  const AstroInvoice := Invoice("astro2026", "XTR", "XTR", PriceStars)

  /** One entry of the effect log. */
  datatype Effect =
    | Sent(chat: int, reply: Reply)
    | InvoiceSent(chat: int, invoice: Invoice)
    | PreCheckoutAnswered(user: int, ok: bool)
    | GenerationRequested(tier: Tier, birthData: string)
    | FollowUpScheduled(chat: int)

  /** The bot's state: sessions, the users table and the effect log. */
  datatype State = State(sessions: map<SessionKey, FormState>, users: map<int, UserRow>, outbox: seq<Effect>)

  const Initial := State(map[], map[], [])

  /**
   * What reaches the dispatcher. `StartCommand` is every message the
   * `CommandStart` filter (bot.py:73) accepts, in any of its forms ("/start",
   * "/start" with a deep-link argument, a caption holding the command).
   * `TextMessage` stands for a text that filter rejects, so its `text` is
   * never a `/start` command. A message may also carry a successful payment
   * (and no text), or be something else without text (a photo, a sticker).
   * A pre-checkout query has no chat; aiogram keys it by the user alone.
   */
  datatype Update =
    | StartCommand(key: SessionKey)
    | TextMessage(key: SessionKey, text: string)
    | PaymentMessage(key: SessionKey, payload: string)
    | OtherMessage(key: SessionKey)
    | Callback(key: SessionKey, data: string)
    | PreCheckoutQuery(key: SessionKey, payload: string)

  /** The handlers, and Unhandled for an update that none of them takes. */
  datatype Handler =
    | CmdStart | AskBirthdata | HandleBirthdata | SendInvoice | PreCheckout | OnSuccessfulPayment | Unhandled

  function SessionOf(st: State, key: SessionKey): FormState {
    if key in st.sessions then st.sessions[key] else Idle
  }

  /** Callbacks go by their data (bot.py:86, 160); other data has no handler. */
  function RouteCallback(data: string): Handler {
    if data == "get_forecast" then AskBirthdata
    else if data == "buy_astro2026" then SendInvoice
    else Unhandled
  }

  /**
   * The dispatcher as registered: message handlers are tried in the order
   * of bot.py, `cmd_start` (bot.py:73), then `handle_birthdata`, filtered on
   * the state alone (bot.py:97), then `on_successful_payment` (bot.py:178).
   */
  function RouteAsWritten(u: Update, s: FormState): Handler {
    match u
    case StartCommand(_) => CmdStart
    case TextMessage(_, _) => if s == WaitingBirthdata then HandleBirthdata else Unhandled
    case PaymentMessage(_, _) => if s == WaitingBirthdata then HandleBirthdata else OnSuccessfulPayment
    case OtherMessage(_) => if s == WaitingBirthdata then HandleBirthdata else Unhandled
    case Callback(_, data) => RouteCallback(data)
    case PreCheckoutQuery(_, _) => PreCheckout
  }

  /** The dispatcher with `handle_birthdata` also filtered on the message having text. */
  function Route(u: Update, s: FormState): Handler {
    match u
    case StartCommand(_) => CmdStart
    case TextMessage(_, _) => if s == WaitingBirthdata then HandleBirthdata else Unhandled
    case PaymentMessage(_, _) => OnSuccessfulPayment
    case OtherMessage(_) => Unhandled
    case Callback(_, data) => RouteCallback(data)
    case PreCheckoutQuery(_, _) => PreCheckout
  }

  /** `cmd_start` (bot.py:73-84): the welcome reply, nothing else. */
  function StartStep(st: State, chat: int): State {
    st.(outbox := st.outbox + [Sent(chat, Welcome)])
  }

  /** `ask_birthdata` (bot.py:86-95): the format prompt, then the session waits for the birth data. */
  function AskStep(st: State, key: SessionKey): State {
    st.(sessions := st.sessions[key := WaitingBirthdata], outbox := st.outbox + [Sent(key.chat, FormatPrompt)])
  }

  /**
   * What `handle_birthdata` (bot.py:97-143) adds to the log once the row is
   * stored: the preview request, then on success the reply and one follow-up.
   */
  function PreviewEffects(chat: int, birthData: string, gen: Generation): seq<Effect> {
    [GenerationRequested(Preview, birthData)]
    + (if gen.Generated? then [Sent(chat, PreviewText(birthData, gen.text)), FollowUpScheduled(chat)] else [])
  }

  /**
   * `handle_birthdata` once `parse_birthdata` has answered `parsed`: a hint
   * when it gave None (bot.py:100-104); otherwise the row is replaced with
   * `paid` 0 (bot.py:106-110), the session is cleared (bot.py:112) and the
   * preview is requested.
   */
  function BirthdataStep(st: State, key: SessionKey, parsed: Option<string>, gen: Generation): State {
    match parsed
    case None => st.(outbox := st.outbox + [Sent(key.chat, FormatHint)])
    case Some(b) =>
      State(st.sessions[key := Idle], st.users[key.user := UserRow(b, 0)], st.outbox + PreviewEffects(key.chat, b, gen))
  }

  /** `send_invoice` (bot.py:160-171): the invoice goes to the user's own chat. */
  function InvoiceStep(st: State, user: int): State {
    st.(outbox := st.outbox + [InvoiceSent(user, AstroInvoice)])
  }

  /** `pre_checkout` (bot.py:173-176): every query is approved. */
  function PreCheckoutStep(st: State, user: int): State {
    st.(outbox := st.outbox + [PreCheckoutAnswered(user, true)])
  }

  /** What `on_successful_payment` (bot.py:178-227) adds to the log, given the user's row if there is one. */
  function PaymentEffects(chat: int, row: Option<UserRow>, gen: Generation): seq<Effect> {
    match row
    case None => [Sent(chat, NoData)]
    case Some(r) =>
      [GenerationRequested(Full, r.birthData)] + (if gen.Generated? then [Sent(chat, ForecastText(gen.text))] else [])
  }

  function RowOf(users: map<int, UserRow>, user: int): Option<UserRow> {
    if user in users then Some(users[user]) else None
  }

  /** `on_successful_payment`: looks the sender up in `users` and nothing else. */
  function PaymentStep(st: State, key: SessionKey, gen: Generation): State {
    st.(outbox := st.outbox + PaymentEffects(key.chat, RowOf(st.users, key.user), gen))
  }

  /** Runs handler `h` on update `u`. */
  function Apply(st: State, h: Handler, u: Update, gen: Generation): State {
    match h
    case CmdStart => StartStep(st, u.key.chat)
    case AskBirthdata => AskStep(st, u.key)
    case HandleBirthdata =>
      // parse_birthdata(None) raises TypeError inside re.search: the handler stops before any effect.
      if u.TextMessage? then BirthdataStep(st, u.key, ParseBirthData(u.text), gen) else st
    case SendInvoice => InvoiceStep(st, u.key.user)
    case PreCheckout => PreCheckoutStep(st, u.key.user)
    case OnSuccessfulPayment => PaymentStep(st, u.key, gen)
    case Unhandled => st
  }

  /** One update, routed as bot.py registers its handlers. */
  function StepAsWritten(st: State, u: Update, gen: Generation): State {
    Apply(st, RouteAsWritten(u, SessionOf(st, u.key)), u, gen)
  }

  /** One update, routed with the text filter on `handle_birthdata`. */
  function Step(st: State, u: Update, gen: Generation): State {
    Apply(st, Route(u, SessionOf(st, u.key)), u, gen)
  }

  /**
   * A process restart: the FSM sessions live in aiogram's MemoryStorage
   * (bot.py:29) and are lost, while the rows of `users.db` survive, since
   * `init_db` only creates the table when it is missing (bot.py:38-43).
   * The log of what was already sent stays as it is.
   */
  function RestartStep(st: State): State {
    st.(sessions := map[])
  }

  /** An update together with what the language model answers while it is handled. */
  datatype Event = Event(update: Update, gen: Generation)

  function Run(st: State, events: seq<Event>): State
    decreases |events|
  {
    if |events| == 0 then st else Run(Step(st, events[0].update, events[0].gen), events[1..])
  }

  /** A run with the handlers in the order bot.py registers them. */
  function RunAsWritten(st: State, events: seq<Event>): State
    decreases |events|
  {
    if |events| == 0 then st else RunAsWritten(StepAsWritten(st, events[0].update, events[0].gen), events[1..])
  }
}
