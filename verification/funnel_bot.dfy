/**
 * The running bot: the FSM sessions, the `users` table and the effect log
 * as mutable fields, one method per handler of bot.py:73-227, and the
 * dispatcher. Each method is proved to move the snapshot exactly as the
 * matching step of Funnel does, so everything FunnelProps proves about the
 * steps holds of the object.
 */
module FunnelBot {
  import opened Wrappers
  import opened BirthData
  import opened Funnel
  import opened FunnelProps

  class Bot {
    var sessions: map<SessionKey, FormState>
    var users: map<int, UserRow>
    var outbox: seq<Effect>

    /** The very first start: no session, a freshly created empty table (bot.py:38-43), nothing sent. */
    constructor ()
      ensures Snapshot() == Initial
      ensures Invariant(Snapshot())
    {
      sessions := map[];
      users := map[];
      outbox := [];
    }

    /**
     * The bot started again over an existing `users.db` (bot.py:38-43):
     * its rows are there, while the in-memory FSM sessions (bot.py:29) start
     * empty and nothing has been sent yet by this process.
     */
    constructor Resume(users0: map<int, UserRow>)
      requires StoreInvariant(State(map[], users0, []))
      ensures Snapshot() == State(map[], users0, [])
      ensures Invariant(Snapshot())
    {
      sessions := map[];
      users := users0;
      outbox := [];
    }

    function Snapshot(): State
      reads this
    {
      State(sessions, users, outbox)
    }

    /** The process restarts: the sessions are lost, the table and the log stay. */
    method Restart()
      requires Invariant(Snapshot())
      modifies this
      ensures Snapshot() == RestartStep(old(Snapshot()))
      ensures Invariant(Snapshot())
    {
      RestartKeepsStore(Snapshot());
      sessions := map[];
    }

    /** `cmd_start` (bot.py:73-84). */
    method CmdStart(chat: int)
      requires Invariant(Snapshot())
      modifies this
      ensures Snapshot() == StartStep(old(Snapshot()), chat)
      ensures Invariant(Snapshot())
    {
      LogInvariantAppend(outbox, [Sent(chat, Welcome)]);
      outbox := outbox + [Sent(chat, Welcome)];
    }

    /** `ask_birthdata` (bot.py:86-95): the prompt is sent, then the state is set. */
    method AskBirthdata(key: SessionKey)
      requires Invariant(Snapshot())
      modifies this
      ensures Snapshot() == AskStep(old(Snapshot()), key)
      ensures Invariant(Snapshot())
    {
      LogInvariantAppend(outbox, [Sent(key.chat, FormatPrompt)]);
      outbox := outbox + [Sent(key.chat, FormatPrompt)];
      sessions := sessions[key := WaitingBirthdata];
    }

    /**
     * `handle_birthdata` (bot.py:97-143) on a message whose text is `text`
     * (None for a message without text, where `parse_birthdata` raises
     * before anything happens).
     */
    method HandleBirthdata(key: SessionKey, text: Option<string>, gen: Generation)
      requires Invariant(Snapshot())
      modifies this
      ensures text.None? ==> Snapshot() == old(Snapshot())
      ensures text.Some? ==> Snapshot() == BirthdataStep(old(Snapshot()), key, ParseBirthData(text.value), gen)
      ensures Invariant(Snapshot())
    {
      if text.None? {
        return;
      }
      var birthData := ParseBirthData(text.value);
      ParseNormalized(text.value);
      StoreBirthdata(key, birthData, gen);
    }

    /**
     * The rest of `handle_birthdata` once `parse_birthdata` has answered
     * `birthData`; like the source, it is only ever given the parser's
     * output, which is normalised.
     */
    method StoreBirthdata(key: SessionKey, birthData: Option<string>, gen: Generation)
      requires Invariant(Snapshot())
      requires birthData.Some? ==> IsNormalized(birthData.value)
      modifies this
      ensures Snapshot() == BirthdataStep(old(Snapshot()), key, birthData, gen)
      ensures Invariant(Snapshot())
    {
      BirthdataStepPreserves(Snapshot(), key, birthData, gen);
      if birthData.None? {
        outbox := outbox + [Sent(key.chat, FormatHint)];
        return;
      }
      var b := birthData.value;
      users := users[key.user := UserRow(b, 0)];
      sessions := sessions[key := Idle];
      outbox := outbox + [GenerationRequested(Preview, b)];
      match gen
      case GenerationFailed =>
      case Generated(reading) =>
        outbox := outbox + [Sent(key.chat, PreviewText(b, reading))];
        outbox := outbox + [FollowUpScheduled(key.chat)];
    }

    /** `send_invoice` (bot.py:160-171). */
    method SendInvoice(user: int)
      requires Invariant(Snapshot())
      modifies this
      ensures Snapshot() == InvoiceStep(old(Snapshot()), user)
      ensures Invariant(Snapshot())
    {
      LogInvariantAppend(outbox, [InvoiceSent(user, AstroInvoice)]);
      var price := PriceStars;
      outbox := outbox + [InvoiceSent(user, Invoice("astro2026", "XTR", "XTR", price))];
    }

    /** `pre_checkout` (bot.py:173-176). */
    method PreCheckout(user: int)
      requires Invariant(Snapshot())
      modifies this
      ensures Snapshot() == PreCheckoutStep(old(Snapshot()), user)
      ensures Invariant(Snapshot())
    {
      LogInvariantAppend(outbox, [PreCheckoutAnswered(user, true)]);
      outbox := outbox + [PreCheckoutAnswered(user, true)];
    }

    /** `on_successful_payment` (bot.py:178-227). */
    method OnSuccessfulPayment(key: SessionKey, gen: Generation)
      requires Invariant(Snapshot())
      modifies this
      ensures Snapshot() == PaymentStep(old(Snapshot()), key, gen)
      ensures Invariant(Snapshot())
    {
      PaymentStepPreserves(Snapshot(), key, gen);
      if key.user !in users {
        outbox := outbox + [Sent(key.chat, NoData)];
        return;
      }
      var b := users[key.user].birthData;
      outbox := outbox + [GenerationRequested(Full, b)];
      if gen.Generated? {
        outbox := outbox + [Sent(key.chat, ForecastText(gen.text))];
      }
    }

    /** Runs handler `h` on `u`. */
    method Handle(h: Handler, u: Update, gen: Generation)
      requires Invariant(Snapshot())
      modifies this
      ensures Snapshot() == Apply(old(Snapshot()), h, u, gen)
      ensures Invariant(Snapshot())
    {
      match h
      case CmdStart => CmdStart(u.key.chat);
      case AskBirthdata => AskBirthdata(u.key);
      case HandleBirthdata =>
        HandleBirthdata(u.key, if u.TextMessage? then Some(u.text) else None, gen);
      case SendInvoice => SendInvoice(u.key.user);
      case PreCheckout => PreCheckout(u.key.user);
      case OnSuccessfulPayment => OnSuccessfulPayment(u.key, gen);
      case Unhandled =>
    }

    /** One update through the dispatcher with the text filter on `handle_birthdata`; the invariant is kept. */
    method Dispatch(u: Update, gen: Generation)
      requires Invariant(Snapshot())
      modifies this
      ensures Snapshot() == Step(old(Snapshot()), u, gen)
      ensures Invariant(Snapshot())
    {
      var state := if u.key in sessions then sessions[u.key] else Idle;
      Handle(Route(u, state), u, gen);
    }

    /** One update through the dispatcher in the order bot.py registers its handlers; the invariant is kept. */
    method DispatchAsWritten(u: Update, gen: Generation)
      requires Invariant(Snapshot())
      modifies this
      ensures Snapshot() == StepAsWritten(old(Snapshot()), u, gen)
      ensures Invariant(Snapshot())
    {
      var state := if u.key in sessions then sessions[u.key] else Idle;
      Handle(RouteAsWritten(u, state), u, gen);
    }
  }
}
