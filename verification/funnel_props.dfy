/**
 * What the funnel promises, stated over the Funnel snapshot: what each kind
 * of update does to the sessions, the users table and the effect log, what
 * stays true over any run, and how the registered handler order differs
 * from the intended routing.
 */
module FunnelProps {
  import opened Wrappers
  import opened BirthData
  import opened BirthDataProps
  import opened Funnel

  /** The chats a follow-up was scheduled for, in log order. */
  function FollowUps(log: seq<Effect>): seq<int>
    decreases |log|
  {
    if |log| == 0 then []
    else (if log[0].FollowUpScheduled? then [log[0].chat] else []) + FollowUps(log[1..])
  }

  /** The generation requests in the log, in order. */
  function Requests(log: seq<Effect>): seq<(Tier, string)>
    decreases |log|
  {
    if |log| == 0 then []
    else (if log[0].GenerationRequested? then [(log[0].tier, log[0].birthData)] else []) + Requests(log[1..])
  }

  lemma {:induction false} FollowUpsAppend(a: seq<Effect>, b: seq<Effect>)
    ensures FollowUps(a + b) == FollowUps(a) + FollowUps(b)
    decreases |a|
  {
    if |a| > 0 {
      assert (a + b)[0] == a[0];
      assert (a + b)[1..] == a[1..] + b;
      FollowUpsAppend(a[1..], b);
    } else {
      assert a + b == b;
    }
  }

  lemma {:induction false} RequestsAppend(a: seq<Effect>, b: seq<Effect>)
    ensures Requests(a + b) == Requests(a) + Requests(b)
    decreases |a|
  {
    if |a| > 0 {
      assert (a + b)[0] == a[0];
      assert (a + b)[1..] == a[1..] + b;
      RequestsAppend(a[1..], b);
    } else {
      assert a + b == b;
    }
  }

  lemma FollowUpsOne(e: Effect)
    ensures FollowUps([e]) == if e.FollowUpScheduled? then [e.chat] else []
  {
    assert [e][1..] == [];
  }

  lemma RequestsOne(e: Effect)
    ensures Requests([e]) == if e.GenerationRequested? then [(e.tier, e.birthData)] else []
  {
    assert [e][1..] == [];
  }

  /** `/start` only replies: in any session state, sessions and the table are unchanged, under either routing. */
  lemma StartKeepsSession(st: State, key: SessionKey, gen: Generation)
    ensures Step(st, StartCommand(key), gen) == st.(outbox := st.outbox + [Sent(key.chat, Welcome)])
    ensures StepAsWritten(st, StartCommand(key), gen) == Step(st, StartCommand(key), gen)
  {
  }

  /** The `get_forecast` button makes this session wait, whatever it was; nothing else changes but the prompt. */
  lemma GetForecastWaits(st: State, key: SessionKey, gen: Generation)
    ensures var st' := Step(st, Callback(key, "get_forecast"), gen);
      && SessionOf(st', key) == WaitingBirthdata
      && (forall k :: k != key ==> SessionOf(st', k) == SessionOf(st, k))
      && st'.users == st.users && st'.outbox == st.outbox + [Sent(key.chat, FormatPrompt)]
  {
  }

  /** A text while the session is idle has no handler. */
  lemma IdleTextIgnored(st: State, key: SessionKey, text: string, gen: Generation)
    requires SessionOf(st, key) == Idle
    ensures Step(st, TextMessage(key, text), gen) == st
  {
  }

  /** A text that does not parse, while waiting: the hint, and the session keeps waiting with the table untouched. */
  lemma BadInputKeepsWaiting(st: State, key: SessionKey, text: string, gen: Generation)
    requires SessionOf(st, key) == WaitingBirthdata && ParseBirthData(text).None?
    ensures var st' := Step(st, TextMessage(key, text), gen);
      && SessionOf(st', key) == WaitingBirthdata && st'.sessions == st.sessions
      && st'.users == st.users
      && st'.outbox == st.outbox + [Sent(key.chat, FormatHint)]
  {
    assert Step(st, TextMessage(key, text), gen) == BirthdataStep(st, key, None, gen);
  }

  /**
   * A text that parses, while waiting: the sender's row becomes the parsed
   * string with `paid` 0 whatever it was before, every other row stays,
   * the session becomes idle, and exactly one follow-up is scheduled for
   * the chat when the preview was generated (none when the call failed).
   */
  lemma GoodInputUpserts(st: State, key: SessionKey, text: string, b: string, gen: Generation)
    requires SessionOf(st, key) == WaitingBirthdata && ParseBirthData(text) == Some(b)
    ensures var st' := Step(st, TextMessage(key, text), gen);
      && RowOf(st'.users, key.user) == Some(UserRow(b, 0))
      && (forall u :: u != key.user ==> RowOf(st'.users, u) == RowOf(st.users, u))
      && SessionOf(st', key) == Idle
      && (forall k :: k != key ==> SessionOf(st', k) == SessionOf(st, k))
      && FollowUps(st'.outbox) == FollowUps(st.outbox) + (if gen.Generated? then [key.chat] else [])
      && Requests(st'.outbox) == Requests(st.outbox) + [(Preview, b)]
  {
    assert Step(st, TextMessage(key, text), gen) == BirthdataStep(st, key, Some(b), gen);
    StoredAfterParse(st, key, b, gen);
  }

  /** `handle_birthdata` after a successful parse, stated on the step itself. */
  lemma StoredAfterParse(st: State, key: SessionKey, b: string, gen: Generation)
    ensures var st' := BirthdataStep(st, key, Some(b), gen);
      && RowOf(st'.users, key.user) == Some(UserRow(b, 0))
      && (forall u :: u != key.user ==> RowOf(st'.users, u) == RowOf(st.users, u))
      && SessionOf(st', key) == Idle
      && (forall k :: k != key ==> SessionOf(st', k) == SessionOf(st, k))
      && FollowUps(st'.outbox) == FollowUps(st.outbox) + (if gen.Generated? then [key.chat] else [])
      && Requests(st'.outbox) == Requests(st.outbox) + [(Preview, b)]
  {
    var extra := PreviewEffects(key.chat, b, gen);
    FollowUpsAppend(st.outbox, extra);
    RequestsAppend(st.outbox, extra);
    if gen.Generated? {
      PreviewEffectsGenerated(key.chat, b, gen.text);
    } else {
      assert extra == [GenerationRequested(Preview, b)];
      FollowUpsOne(GenerationRequested(Preview, b));
      RequestsOne(GenerationRequested(Preview, b));
    }
  }

  lemma PreviewEffectsGenerated(chat: int, b: string, text: string)
    ensures FollowUps(PreviewEffects(chat, b, Generated(text))) == [chat]
    ensures Requests(PreviewEffects(chat, b, Generated(text))) == [(Preview, b)]
  {
    var g, r, f := GenerationRequested(Preview, b), Sent(chat, PreviewText(b, text)), FollowUpScheduled(chat);
    assert PreviewEffects(chat, b, Generated(text)) == [g] + ([r] + [f]);
    FollowUpsAppend([g], [r] + [f]);
    FollowUpsAppend([r], [f]);
    RequestsAppend([g], [r] + [f]);
    RequestsAppend([r], [f]);
    FollowUpsOne(g);
    FollowUpsOne(r);
    FollowUpsOne(f);
    RequestsOne(g);
    RequestsOne(r);
    RequestsOne(f);
  }

  /** Payment confirmation never reads or writes the sessions: any session map gives the same effects. */
  lemma PaymentIgnoresSession(st: State, sessions: map<SessionKey, FormState>, key: SessionKey, payload: string, gen: Generation)
    ensures Step(st, PaymentMessage(key, payload), gen).sessions == st.sessions
    ensures Step(st, PaymentMessage(key, payload), gen).users == st.users
    ensures Step(st.(sessions := sessions), PaymentMessage(key, payload), gen)
         == Step(st, PaymentMessage(key, payload), gen).(sessions := sessions)
  {
  }

  /** Payment from a user with no row: the "no data" reply and no generation request. */
  lemma PaymentWithoutRecord(st: State, key: SessionKey, payload: string, gen: Generation)
    requires key.user !in st.users
    ensures var st' := Step(st, PaymentMessage(key, payload), gen);
      && st' == st.(outbox := st.outbox + [Sent(key.chat, NoData)])
      && Requests(st'.outbox) == Requests(st.outbox)
  {
    RequestsAppend(st.outbox, [Sent(key.chat, NoData)]);
  }

  /** Payment from a user with a row: one full-forecast request, with exactly the stored birth data. */
  lemma PaymentWithRecord(st: State, key: SessionKey, payload: string, gen: Generation)
    requires key.user in st.users
    ensures var st' := Step(st, PaymentMessage(key, payload), gen);
      && Requests(st'.outbox) == Requests(st.outbox) + [(Full, st.users[key.user].birthData)]
      && (gen.Generated? ==> st'.outbox[|st'.outbox| - 1] == Sent(key.chat, ForecastText(gen.text)))
      && FollowUps(st'.outbox) == FollowUps(st.outbox)
  {
    var extra := PaymentEffects(key.chat, RowOf(st.users, key.user), gen);
    RequestsAppend(st.outbox, extra);
    FollowUpsAppend(st.outbox, extra);
    var b := st.users[key.user].birthData;
    var g := GenerationRequested(Full, b);
    FollowUpsOne(g);
    RequestsOne(g);
    if gen.Generated? {
      var r := Sent(key.chat, ForecastText(gen.text));
      assert extra == [g] + [r];
      FollowUpsAppend([g], [r]);
      RequestsAppend([g], [r]);
      FollowUpsOne(r);
      RequestsOne(r);
    } else {
      assert extra == [g];
    }
  }

  /** Every pre-checkout query is approved, whatever its payload. */
  lemma PreCheckoutApproves(st: State, key: SessionKey, payload: string, gen: Generation)
    ensures Step(st, PreCheckoutQuery(key, payload), gen) == st.(outbox := st.outbox + [PreCheckoutAnswered(key.user, true)])
  {
  }

  /** The buy button sends one invoice to the user: payload "astro2026", 99 in currency XTR. */
  lemma InvoiceTerms(st: State, key: SessionKey, gen: Generation)
    ensures var st' := Step(st, Callback(key, "buy_astro2026"), gen);
      && st'.sessions == st.sessions && st'.users == st.users
      && st'.outbox == st.outbox + [InvoiceSent(key.user, Invoice("astro2026", "XTR", "XTR", 99))]
  {
  }

  /** Birth data sent while waiting, then a payment: the forecast is requested for exactly the parsed string. */
  lemma BirthDataThenPayment(st: State, key: SessionKey, text: string, payload: string, g1: Generation, g2: Generation)
    requires SessionOf(st, key) == WaitingBirthdata && ParseBirthData(text).Some?
    ensures var st1 := Step(st, TextMessage(key, text), g1); var st2 := Step(st1, PaymentMessage(key, payload), g2);
      Requests(st2.outbox) == Requests(st1.outbox) + [(Full, ParseBirthData(text).value)]
  {
    var st1 := Step(st, TextMessage(key, text), g1);
    GoodInputUpserts(st, key, text, ParseBirthData(text).value, g1);
    PaymentWithRecord(st1, key, payload, g2);
  }

  /** Every stored row has `paid` 0 and a normalised birth date: no code path sets `paid` to anything else. */
  predicate StoreInvariant(st: State) {
    forall u :: u in st.users ==> st.users[u].paid == 0 && IsNormalized(st.users[u].birthData)
  }

  /** Every invoice has the fixed terms, every pre-checkout answer is ok, every generation request is for normalised data. */
  predicate LogInvariant(log: seq<Effect>) {
    forall i :: 0 <= i < |log| ==>
      && (log[i].InvoiceSent? ==> log[i].invoice == AstroInvoice)
      && (log[i].PreCheckoutAnswered? ==> log[i].ok)
      && (log[i].GenerationRequested? ==> IsNormalized(log[i].birthData))
  }

  predicate Invariant(st: State) {
    StoreInvariant(st) && LogInvariant(st.outbox)
  }

  lemma InitialInvariant()
    ensures Invariant(Initial)
  {
  }

  lemma LogInvariantAppend(a: seq<Effect>, b: seq<Effect>)
    requires LogInvariant(a) && LogInvariant(b)
    ensures LogInvariant(a + b)
  {
    assert forall i :: |a| <= i < |a + b| ==> (a + b)[i] == b[i - |a|];
  }

  /** `handle_birthdata` keeps the invariant whenever what it stores is normalised. */
  lemma BirthdataStepPreserves(st: State, key: SessionKey, parsed: Option<string>, gen: Generation)
    requires Invariant(st) && (parsed.Some? ==> IsNormalized(parsed.value))
    ensures Invariant(BirthdataStep(st, key, parsed, gen))
  {
    match parsed
    case None =>
      LogInvariantAppend(st.outbox, [Sent(key.chat, FormatHint)]);
    case Some(b) =>
      LogInvariantAppend(st.outbox, PreviewEffects(key.chat, b, gen));
  }

  /** `on_successful_payment` keeps the invariant: it requests only data read from the table. */
  lemma PaymentStepPreserves(st: State, key: SessionKey, gen: Generation)
    requires Invariant(st)
    ensures Invariant(PaymentStep(st, key, gen))
  {
    LogInvariantAppend(st.outbox, PaymentEffects(key.chat, RowOf(st.users, key.user), gen));
  }

  /** Each handler keeps the invariant, under either routing. */
  lemma ApplyPreservesInvariant(st: State, h: Handler, u: Update, gen: Generation)
    requires Invariant(st)
    ensures Invariant(Apply(st, h, u, gen))
  {
    match h
    case HandleBirthdata =>
      if u.TextMessage? {
        ParseNormalized(u.text);
        BirthdataStepPreserves(st, u.key, ParseBirthData(u.text), gen);
      }
    case OnSuccessfulPayment =>
      PaymentStepPreserves(st, u.key, gen);
    case CmdStart =>
      LogInvariantAppend(st.outbox, [Sent(u.key.chat, Welcome)]);
    case AskBirthdata =>
      LogInvariantAppend(st.outbox, [Sent(u.key.chat, FormatPrompt)]);
    case SendInvoice =>
      LogInvariantAppend(st.outbox, [InvoiceSent(u.key.user, AstroInvoice)]);
    case PreCheckout =>
      LogInvariantAppend(st.outbox, [PreCheckoutAnswered(u.key.user, true)]);
    case Unhandled =>
  }

  lemma StepPreservesInvariant(st: State, u: Update, gen: Generation)
    requires Invariant(st)
    ensures Invariant(Step(st, u, gen)) && Invariant(StepAsWritten(st, u, gen))
  {
    ApplyPreservesInvariant(st, Route(u, SessionOf(st, u.key)), u, gen);
    ApplyPreservesInvariant(st, RouteAsWritten(u, SessionOf(st, u.key)), u, gen);
  }

  /** From the empty state, every run keeps the invariant. */
  lemma {:induction false} RunPreservesInvariant(st: State, events: seq<Event>)
    requires Invariant(st)
    ensures Invariant(Run(st, events))
    decreases |events|
  {
    if |events| > 0 {
      StepPreservesInvariant(st, events[0].update, events[0].gen);
      RunPreservesInvariant(Step(st, events[0].update, events[0].gen), events[1..]);
    }
  }

  lemma RunFromInitial(events: seq<Event>)
    ensures Invariant(Run(Initial, events))
  {
    InitialInvariant();
    RunPreservesInvariant(Initial, events);
  }

  /** The same invariant over runs with the handlers in registration order. */
  lemma {:induction false} RunAsWrittenPreservesInvariant(st: State, events: seq<Event>)
    requires Invariant(st)
    ensures Invariant(RunAsWritten(st, events))
    decreases |events|
  {
    if |events| > 0 {
      StepPreservesInvariant(st, events[0].update, events[0].gen);
      RunAsWrittenPreservesInvariant(StepAsWritten(st, events[0].update, events[0].gen), events[1..]);
    }
  }

  /** A restart forgets every session, keeps every row and the log, and keeps the invariant. */
  lemma RestartKeepsStore(st: State)
    ensures var st' := RestartStep(st);
      && (forall k :: SessionOf(st', k) == Idle)
      && st'.users == st.users && st'.outbox == st.outbox
      && (Invariant(st) ==> Invariant(st'))
  {
  }

  /**
   * After a restart, a user who already sent birth data can pay and get the
   * forecast under either routing: the stored row is found and the lost
   * session no longer diverts the payment.
   */
  lemma PaymentAfterRestart(st: State, key: SessionKey, payload: string, gen: Generation)
    requires key.user in st.users
    ensures var st' := RestartStep(st);
      && StepAsWritten(st', PaymentMessage(key, payload), gen) == PaymentStep(st', key, gen)
      && Requests(StepAsWritten(st', PaymentMessage(key, payload), gen).outbox)
         == Requests(st.outbox) + [(Full, st.users[key.user].birthData)]
  {
    PaymentWithRecord(RestartStep(st), key, payload, gen);
  }

  /**
   * The two routings differ exactly on a message without text while the
   * session waits: as registered, `handle_birthdata` takes it.
   */
  lemma RoutesDifferOnlyOnTextless(u: Update, s: FormState)
    ensures Route(u, s) != RouteAsWritten(u, s) <==> s == WaitingBirthdata && (u.PaymentMessage? || u.OtherMessage?)
    ensures s == WaitingBirthdata && (u.PaymentMessage? || u.OtherMessage?) ==> RouteAsWritten(u, s) == HandleBirthdata
  {
  }

  /** As registered, a successful payment while the session waits is absorbed with no effect at all. */
  lemma PaymentLostWhileWaiting(st: State, key: SessionKey, payload: string, gen: Generation)
    requires SessionOf(st, key) == WaitingBirthdata
    ensures StepAsWritten(st, PaymentMessage(key, payload), gen) == st
  {
  }

  /** As registered, a successful payment outside the waiting state reaches `on_successful_payment`. */
  lemma PaymentHandledWhenNotWaiting(st: State, key: SessionKey, payload: string, gen: Generation)
    requires SessionOf(st, key) != WaitingBirthdata
    ensures StepAsWritten(st, PaymentMessage(key, payload), gen) == PaymentStep(st, key, gen)
  {
  }

  /** With the text filter, a successful payment reaches `on_successful_payment` in every session state. */
  lemma PaymentAlwaysHandled(st: State, key: SessionKey, payload: string, gen: Generation)
    ensures Step(st, PaymentMessage(key, payload), gen) == PaymentStep(st, key, gen)
  {
  }

  /** A user who pressed "get forecast" again after paying: the payment goes unserved as registered, and is served with the filter. */
  lemma PaidWhileWaitingExample()
    ensures var key := SessionKey(7, 7);
      var st := State(map[key := WaitingBirthdata], map[7 := UserRow("15.03.1990 12:00", 0)], []);
      var u := PaymentMessage(key, "astro2026");
      && Requests(StepAsWritten(st, u, GenerationFailed).outbox) == []
      && Requests(Step(st, u, GenerationFailed).outbox) == [(Full, "15.03.1990 12:00")]
  {
    var key := SessionKey(7, 7);
    var st := State(map[key := WaitingBirthdata], map[7 := UserRow("15.03.1990 12:00", 0)], []);
    PaymentWithRecord(st, key, "astro2026", GenerationFailed);
  }
}
