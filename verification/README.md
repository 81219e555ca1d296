# astro_bot: the birth-data parser and the payment funnel, in Dafny

`bot.py` is a Telegram bot that sells an astrological forecast. Two parts
of it are logic rather than transport, and this project models both.

- **`parse_birthdata`** (bot.py:45-71) is a pure function. It finds the
  first `D.M.YYYY` in free text, optionally followed by `,` and a time. It
  lets `datetime.strptime("%d.%m.%Y")` judge the date. It then prints the
  result as `DD.MM.YYYY <time>`, with "12:00" as the default time.
  - Modules `Digits`, `Calendar` and `BirthData` model it.
  - `BirthData` models Python's `re.search` as its backtracking matcher
    behaves:
    - positions are tried from left to right;
    - `\d{1,2}` is greedy and gives a digit back when no dot follows;
    - the optional `(?:,\s*(\d{1,2}:\d{2}))?` group is tried once at the
      end of the year.
  - `Calendar` models the two stages of `strptime`. The format regex of
    `%d`, `%m` and `%Y` must match the whole string. Then
    `datetime.date` checks the date: year 1..9999, month 1..12, and the
    day against the month length with Gregorian leap years.
  - `BirthDataProps` states what the parser does. Four of its lemmas
    are stated on the text, with no reference to the search:
    - `ParseLeftmostDate`: the leftmost date decides the result; the time
      it copies is the time group's capture `OptionalTime`;
    - `TimeGroupCaptures`: the time group captures exactly when a comma,
      whitespace and a time token follow the year;
    - `ParseNoDate`: a text without a date gives None;
    - `ParseIdempotent`: what a second parse gives.
    - the others (`SearchFindsFirst`, `ParseAccepted`, `ParseRejected`,
      `ParseResultDate` and their helpers) are stated through the matcher
      (`MatchAt`, `Search`, `OptionalTime`), whose own lemmas relate it
      to the text.
  - `BirthDataExamples` proves the parser's behaviour on particular
    inputs. Each example is assembled from one-fact lemmas (where the
    date stands, what the time group captures, what strptime says); those
    have no rows of their own below.
- **The funnel** is made of the handlers `cmd_start`, `ask_birthdata`,
  `handle_birthdata`, `send_invoice`, `pre_checkout` and
  `on_successful_payment` (bot.py:73-227).
  - `Funnel` models them as pure steps over a snapshot of the bot's state:
    - the aiogram FSM sessions, keyed by (chat, user);
    - the `users` table (`user_id` → `birth_data`, `paid`);
    - a log of the effects the bot produces: replies, invoices,
      pre-checkout answers, generation requests and scheduled follow-ups.
  - `FunnelBot.Bot` is the imperative form of the same thing:
    - a class whose fields are the session map, the table and the log;
    - one method per handler, each proved to move the state exactly as
      its step does and to keep the store invariant;
    - a dispatcher method that does the same for one update.
  - `FunnelProps` proves the orchestration rules, an invariant over every
    run, and the routing discrepancy reported under "## Findings".

Calls to the language model are a parameter, `Generation`: each update
comes with the text the model returns, or with `GenerationFailed` when the
call raises. The log records only that a request was made, for which tier
and with which birth data.

## Model

| member | source | states |
|---|---|---|
| Digits.Value | bot.py:60-66 | the number a one- or two-digit field denotes, as `strptime` converts it, digit by digit |
| Digits.LeadingZero | bot.py:68-69 | a leading "0" does not change the number a digit string denotes |
| Calendar.DaysInMonth | bot.py:60-66 | the month lengths `datetime.date` checks: 31 for months 1, 3, 5, 7, 8, 10 and 12; 30 for 4, 6, 9 and 11; 29 or 28 for February, by the Gregorian leap rule |
| Calendar.DayFieldRange | bot.py:60-63 | on one or two digits, the `%d` directive accepts exactly the values 1..31 |
| Calendar.MonthFieldRange | bot.py:60-63 | on one or two digits, the `%m` directive accepts exactly the values 1..12 |
| Calendar.StrptimeIsCalendarCheck | bot.py:60-66 | on the captured fields, strptime raises no ValueError exactly when year, month and day form a real date with year 1..9999 |
| BirthData.DigitsBeforeDotSpec | bot.py:47 | `\d{1,2}\.` at a position succeeds exactly with the digits that stand before a dot there, two when it can |
| BirthData.SkipSpace | bot.py:48 | `\s*` consumes a run of whitespace and stops at the first non-space character |
| BirthData.TimeAtSpec | bot.py:48 | `\d{1,2}:\d{2}` at a position captures a time token that stands there, two hour digits when it can |
| BirthData.OptionalTimeSound | bot.py:48-59 | a captured time follows the year as a comma, whitespace and a token |
| BirthData.MatchAtSound | bot.py:46-50 | a match at a position is a `D.M.YYYY` standing at that position |
| BirthData.DatePrefixFromSteps | bot.py:47 | the two `\d{1,2}\.` steps and four year digits spell a `D.M.YYYY` |
| BirthData.SearchFrom | bot.py:50 | a match found from position i starts at or after i, and the pattern matches there |
| BirthData.SearchFromLeftmost | bot.py:50 | `re.search` returns the leftmost match, and nothing when no position matches |
| BirthData.ZFill2 | bot.py:68-69 | `zfill(2)` gives at least two digits with the same value, ending in the original string |
| BirthData.ZFillDay | bot.py:68 | a zero-filled day is two digits that `%d` still accepts, with the same value |
| BirthData.ZFillMonth | bot.py:69 | a zero-filled month is two digits that `%m` still accepts, with the same value |
| BirthData.FieldsOfLayout | bot.py:67-71 | where the dots, the space and the fields stand in `DD.MM.YYYY <time>` |
| BirthData.FormatNormalized | bot.py:67-71 | an accepted date and a time token print as a normalised string |
| BirthData.ParseNormalized | bot.py:45-71 | every result is `DD.MM.YYYY` (a real date, fixed width), a space and a time token |
| BirthDataProps.TimeGroupCaptures | bot.py:48-59 | the time group captures a token exactly when the token follows the year after `,` and optional whitespace |
| BirthDataProps.MatchAtComplete | bot.py:46-50 | wherever `D.M.YYYY` stands, the pattern matches there with those groups |
| BirthDataProps.DigitsAt | bot.py:47 | one or two digits before a dot are what `\d{1,2}\.` captures |
| BirthDataProps.MatchAtIff | bot.py:46-50 | the pattern matches at a position exactly when some `D.M.YYYY` stands there |
| BirthDataProps.ParseLeftmostDate | bot.py:45-71 | for the leftmost `D.M.YYYY`: None when strptime rejects it, even when a later date is valid; otherwise the zero-padded date with the comma-introduced time or "12:00" |
| BirthDataProps.SearchFindsFirst | bot.py:50 | the search stops at the first position holding a `D.M.YYYY` |
| BirthDataProps.ParseAccepted | bot.py:45-71 | the result for the leftmost date when strptime accepts it |
| BirthDataProps.ParseRejected | bot.py:50-66 | None when the leftmost date is not a real date |
| BirthDataProps.DatePrefixExtends | bot.py:50 | text appended after a date does not move or change it |
| BirthDataProps.ParseNoDate | bot.py:50-52 | text holding no `D.M.YYYY` anywhere gives None |
| BirthDataProps.ParseResultDate | bot.py:45-71 | every result is the zero-padded form of a `D.M.YYYY` found in the text, with a valid calendar date |
| BirthDataProps.ReparseNormalized | bot.py:45-71 | re-parsing a result keeps its date and resets its time to "12:00", because the output has a space, not a comma, before the time |
| BirthDataProps.ReparseFromFields | bot.py:45-71 | re-parsing a normalised string, from its fields |
| BirthDataProps.FormatOfNormalized | bot.py:56-71 | a normalised string has no comma-introduced time, and reprinting its fields gives it back with "12:00" |
| BirthDataProps.PrefixOfNormalized | bot.py:47 | a normalised string starts with a `D.M.YYYY` |
| BirthDataProps.HeadOfNormalized | bot.py:67-71 | the first eleven characters of a normalised string are its fields, two dots and a space |
| BirthDataProps.ParseIdempotent | bot.py:45-71 | a result is its own parse exactly when its time is "12:00", and parsing twice reaches a fixed point |
| BirthDataProps.DefaultTimeSplice | bot.py:56-59 | setting the time of a normalised string to "12:00" keeps it normalised, and changes it exactly when its time was another |
| BirthDataExamples.BareDate | bot.py:56-59 | "15.03.1990" gives "15.03.1990 12:00" |
| BirthDataExamples.TimeWithoutComma | bot.py:48-59 | "15.03.1990 14:30, Москва" gives "15.03.1990 12:00": a time after a space is not captured |
| BirthDataExamples.TimeAfterComma | bot.py:48-57 | "15.03.1990, 14:30" gives "15.03.1990 14:30" |
| BirthDataExamples.TimeVerbatim | bot.py:56-71 | "5.3.1990,7:99" gives "05.03.1990 7:99": day and month padded, the time copied unchecked |
| BirthDataExamples.February31Rejected | bot.py:60-66 | "31.02.2000" gives None |
| BirthDataExamples.LeapDays | bot.py:60-66 | 29.02.2000 is accepted and 29.02.1900 is rejected |
| BirthDataExamples.OutOfRangeFields | bot.py:60-66 | month 13, day 0 and year 0000 are rejected |
| BirthDataExamples.DayFromDigitRun | bot.py:50 | "115.03.1990" gives "15.03.1990 12:00": the day is the tail of a longer digit run |
| BirthDataExamples.FirstDateDecides | bot.py:50-66 | "31.02.2000 15.03.1990" gives None: the later valid date is never tried |
| FunnelProps.FollowUpsAppend | bot.py:143 | the follow-ups of a log are those of its parts, in order |
| FunnelProps.RequestsAppend | bot.py:133-138 | the generation requests of a log are those of its parts, in order |
| FunnelProps.StartKeepsSession | bot.py:73-84 | `/start` sends the welcome and changes neither sessions nor the table, in any state, under either routing |
| FunnelProps.GetForecastWaits | bot.py:86-95 | `get_forecast` sets the session to WaitingBirthdata whatever it was; other sessions and the table stay |
| FunnelProps.IdleTextIgnored | bot.py:97 | a text while idle reaches no handler and changes nothing |
| FunnelProps.BadInputKeepsWaiting | bot.py:99-104 | text that does not parse gives the format hint; the session keeps waiting and the table is unchanged |
| FunnelProps.GoodInputUpserts | bot.py:99-143 | text that parses replaces the sender's row with (parsed, 0), keeps other rows, makes the session idle, requests one preview and schedules exactly one follow-up when generation succeeds |
| FunnelProps.StoredAfterParse | bot.py:106-143 | the same, for `handle_birthdata` after a successful parse |
| FunnelProps.PreviewEffectsGenerated | bot.py:141-143 | a successful preview requests one generation and schedules one follow-up |
| FunnelProps.PaymentIgnoresSession | bot.py:178-227 | payment confirmation neither reads nor writes sessions, and leaves the table unchanged |
| FunnelProps.PaymentWithoutRecord | bot.py:182-188 | with no stored row: the "no data" reply and no generation request |
| FunnelProps.PaymentWithRecord | bot.py:182-227 | with a row: exactly one full-forecast request with the stored birth data, the forecast as the last reply when generated, no follow-up |
| FunnelProps.PreCheckoutApproves | bot.py:173-176 | every pre-checkout query is approved |
| FunnelProps.InvoiceTerms | bot.py:160-171 | the buy button sends one invoice to the user: payload "astro2026", currency XTR, amount 99 |
| FunnelProps.BirthDataThenPayment | bot.py:106-189 | a payment after good input requests the forecast for exactly the parsed string |
| FunnelProps.InitialInvariant | bot.py:38-43 | the invariant holds of the empty table |
| FunnelProps.LogInvariantAppend | bot.py:160-176 | the log invariant is kept by concatenation |
| FunnelProps.BirthdataStepPreserves | bot.py:106-110 | `handle_birthdata` keeps every row at `paid` 0 with normalised data, since it stores only parser output |
| FunnelProps.PaymentStepPreserves | bot.py:182-224 | `on_successful_payment` keeps the invariant: it requests only stored data |
| FunnelProps.ApplyPreservesInvariant | bot.py:73-227 | every handler keeps the invariant: no row ever gets `paid` other than 0, every invoice has the fixed terms, every pre-checkout answer is ok, every generation request carries normalised data |
| FunnelProps.StepPreservesInvariant | bot.py:73-227 | one update keeps the invariant under either routing |
| FunnelProps.RunPreservesInvariant | bot.py:73-227 | any sequence of updates keeps the invariant |
| FunnelProps.RunAsWrittenPreservesInvariant | bot.py:73-227 | any sequence of updates routed in registration order keeps the invariant |
| FunnelProps.RestartKeepsStore | bot.py:29-43 | a restart makes every session idle and keeps every row and the log, so it keeps the invariant |
| FunnelProps.PaymentAfterRestart | bot.py:178-189 | after a restart, a payment from a user with a row is served in registration order too, with one full-forecast request for the stored birth data |
| FunnelProps.RunFromInitial | bot.py:38-227 | every run from the empty state satisfies the invariant |
| FunnelProps.RoutesDifferOnlyOnTextless | bot.py:97-178 | registered order and the text-filtered routing differ exactly on a textless message while waiting, which the registered order gives to `handle_birthdata` |
| FunnelProps.PaymentLostWhileWaiting | bot.py:97-178 | as registered, a successful payment while waiting has no effect at all |
| FunnelProps.PaymentHandledWhenNotWaiting | bot.py:178-189 | in registration order, a successful payment outside the waiting state reaches `on_successful_payment`, so the no-data and stored-data guarantees hold there |
| FunnelProps.PaymentAlwaysHandled | bot.py:178-227 | with the text filter, a successful payment reaches `on_successful_payment` in every session state |
| FunnelProps.PaidWhileWaitingExample | bot.py:86-189 | a user with a row who pressed "get forecast" again and then paid: as registered, no forecast is requested; with the filter, one is |
| FunnelBot.Bot.constructor | bot.py:38-43 | the very first start, when `init_db` creates an empty table: no sessions, no rows, an empty log, and the invariant holds |
| FunnelBot.Bot.Resume | bot.py:38-43 | a start over an existing `users.db`: the rows are kept, the sessions start empty, and the invariant holds of any table whose rows satisfy it |
| FunnelBot.Bot.Restart | bot.py:29-43 | a restart of the running bot: the fields move as `RestartStep`, so the sessions are emptied while the table and the log stay, and the invariant is kept |
| FunnelBot.Bot.CmdStart | bot.py:73-84 | the fields move exactly as the `/start` step, and the invariant is kept |
| FunnelBot.Bot.AskBirthdata | bot.py:86-95 | the prompt is logged and the session set to waiting, as the step, and the invariant is kept |
| FunnelBot.Bot.HandleBirthdata | bot.py:97-143 | no change for a textless message; otherwise the fields move as `handle_birthdata` with the parser's answer; the invariant is kept |
| FunnelBot.Bot.StoreBirthdata | bot.py:100-143 | given the parser's answer (a normalised string or None), the hint, or the upsert, session clear, preview request, reply and follow-up, in the source's order; the invariant is kept |
| FunnelBot.Bot.SendInvoice | bot.py:160-171 | the invoice with the fixed terms is logged, and the invariant is kept |
| FunnelBot.Bot.PreCheckout | bot.py:173-176 | the approval is logged, and the invariant is kept |
| FunnelBot.Bot.OnSuccessfulPayment | bot.py:178-227 | the table lookup, then the "no data" reply or the forecast request and reply; the invariant is kept |
| FunnelBot.Bot.Handle | bot.py:73-227 | runs one handler, moving the fields as the matching step and keeping the invariant |
| FunnelBot.Bot.Dispatch | bot.py:73-227 | one update through the text-filtered routing; the invariant is kept |
| FunnelBot.Bot.DispatchAsWritten | bot.py:73-227 | one update through the handlers in registration order; the invariant is kept |

## Left out

- The OpenAI calls (bot.py:114-140, 191-226) are left out: the prompts, the model name, `max_tokens` and temperature. Each call becomes the `Generation` parameter, and the log records the request. An empty `content` (None) from the API is not modelled.
- The zodiac-sign table exists only as text inside the prompts; no sign is computed.
- `send_upsell` (bot.py:145-158) is left out: `asyncio.create_task`, the 20-second sleep and the message it finally sends. The model records only that one follow-up was scheduled for the chat (bot.py:143).
- The aiogram transport is left out: keyboards, `answer_callback_query`, the invoice title, description and `start_parameter`, and the Russian texts. Replies are told apart by kind only.
- `/start` parsing by `CommandStart` is abstracted as the `StartCommand` update.
- aiosqlite connection handling and I/O errors are left out. The table is a map, and `INSERT OR REPLACE` is a map update.
- `.env` loading, the startup secret check (bot.py:18-30), `init_db` as I/O and `main`/polling (bot.py:229-235) are left out.
- Concurrency between handlers is left out: updates are processed one at a time.
- Funnel.Run: a run is a sequence of updates without restarts. A restart is modelled as its own step (`RestartStep`, `FunnelBot.Bot.Restart`) with its own invariant lemma, not as an event of the run.
- There is no operation that sets `paid = 1`, because the source has none.
- Digits.IsDigit: `\d` in a Python `str` pattern also matches non-ASCII decimal digits, such as Arabic-Indic ones. The model accepts only 0-9, so texts using other digits are outside it.
- BirthData.ZFill2: Python's `zfill` also handles a sign character. The parser only applies it to captured digit strings, so that case is not modelled.
- Funnel.SessionKey: aiogram's default FSM key is (chat, user); a pre-checkout query, which has no chat, is keyed by the user in both places.

## Findings

| source | as written | input that shows it | evidently intended | confidence | as-written member | corrected member |
|---|---|---|---|---|---|---|
| bot.py:97-178 | `handle_birthdata` is registered before `on_successful_payment` and filtered only on the FSM state. aiogram tries message handlers in registration order, so while the session waits, every message other than `/start` (which `cmd_start`, registered first, takes in any state) goes to `handle_birthdata`, including the successful-payment message, which has no text. There `parse_birthdata(None)` raises TypeError inside `re.search`, so the paid forecast is never requested. | a user with a stored row presses "get forecast" again, then completes a payment: `PaymentMessage` arrives while `WaitingBirthdata` | a successful payment is always served by `on_successful_payment`, i.e. `handle_birthdata` also filters on `F.text` | not executed | FunnelProps.PaymentLostWhileWaiting | FunnelProps.PaymentAlwaysHandled |

`Funnel.RouteAsWritten` and `Funnel.StepAsWritten` model the registered
order. `Funnel.Route` and `Funnel.Step` model the corrected one, which
`Run` and `FunnelBot.Bot.Dispatch` use. The invariant is proved for both
routings (`RunPreservesInvariant`, `RunAsWrittenPreservesInvariant`), and
`PaymentHandledWhenNotWaiting` shows that the registered order serves a
payment correctly outside the waiting state.
`FunnelProps.PaidWhileWaitingExample` shows the discrepancy on a concrete
state.
