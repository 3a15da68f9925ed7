# homework_bot in Dafny

A model of the homework-review notification bot (`homework.py`). The bot polls
a review-status API, checks the shape of the answer, turns the status of the
most recent submission into a Russian notification sentence, and sends it to a
Telegram chat. It keeps a timestamp cursor and a one-shot flag that stops
repeated reports of fetch failures.

The model has four modules:

- `JsonValue` (`json_value.dfy`): Python's `None`-able values (`Option`), the
  decoded JSON answer (`Json`), Python truthiness, `dict.get`, and the `str()`
  an f-string applies to a value.
- `Tokens` (`tokens.dfy`): `check_tokens`. It lists the configuration
  variables that are `None`, joins their names with `", "`, and decides whether
  to stop (exit code 0) or go on. The joined text is proved to split back into
  exactly the missing names, in the fixed order.
- `Homework` (`homework.dfy`): the verdict table `HOMEWORK_VERDICTS`, the
  exceptions the loop can see, `check_response` and `parse_status`. Both
  return an `Outcome`, which is either a returned value or a raised exception.
- `PollLoop` (`poll_loop.dfy`): one pass of `main`'s `while True` body. `Next`
  is the pass as a function on the loop's locals. The class `Bot` holds those
  locals as fields. Its `Step` method runs one pass and is proved to compute
  `Next`, and `Poll` runs the loop over a finite list of fetch outcomes.
  Lemmas about `Next` and `Run` state the cursor, flag and notification
  behaviour.

Behaviour of the code that the model keeps as written:

- An answer with an empty `homeworks` list does not move the cursor, since the
  cursor is assigned only inside `if check:` (homework.py:180-184).
- The flag is re-armed by any truthy fetched answer (homework.py:177-178), even
  one that then fails validation.
- A fetch failure with the flag armed sends the previously fetched answer
  object (`api_response`, homework.py:190), not the error text. On the first
  pass that object is unbound, and the process dies with `UnboundLocalError`.
  The model returns "crashed" (`Next` gives `None`, `Step` returns `true`).
- A configuration variable is missing only when it is `None` (homework.py:64).
  An empty string counts as present.
- `check_response` also raises `TypeError` when `homeworks[0]` is not a dict
  or lacks a non-null `homework_name` or `status` (homework.py:122-133).
- `parse_status` reads `homework['status']` by indexing. A missing status
  therefore raises `KeyError` (homework.py:139), not the assistant error. A list
  or dict status makes `dict.get` raise `TypeError` (unhashable). A falsy name
  is reported before an unknown status (homework.py:140-148).
- An `AssistantException` from `parse_status` is the parent class of
  `ApiAnswerException`, not a subclass. It reaches the generic handler and is
  reported on every pass (homework.py:192-195).
- The cursor takes whatever `current_date` holds (any non-null JSON value), so
  `timestamp` is modelled as a `Json`. It starts as `JInt(now)`.

## Model

| member | source | states |
|---|---|---|
| `JsonValue.Get` | homework.py:110-111 | `d.get(k)` is `None` exactly when `k` is absent or bound to null, and is the bound value when `k` is present |
| `Tokens.Missing` | homework.py:63-65 | the names whose value is `None` are exactly the names in the result, kept in their original order (a subsequence of the names) |
| `Tokens.MissingNames` | homework.py:58-65 | each of PRACTICUM_TOKEN, TELEGRAM_TOKEN, TELEGRAM_CHAT_ID is listed iff its value is `None`; nothing else is listed; the order is the fixed one |
| `Tokens.Join` | homework.py:63 | `', '.join` gives the empty text for no names, and for non-empty names only then |
| `Tokens.SplitJoin` | homework.py:63-65 | joining comma-free names with ", " and splitting again at ", " gives back exactly the names |
| `Tokens.CheckTokens` | homework.py:56-71 | stops iff some variable is `None` (an empty string is present); the stop text, split at ", ", is exactly the missing names in order |
| `Tokens.AllMissing` | homework.py:58-71 | with all three unset the stop text is "PRACTICUM_TOKEN, TELEGRAM_TOKEN, TELEGRAM_CHAT_ID" |
| `Homework.CheckResponse` | homework.py:104-134 | `True` iff the answer is a dict with non-null `current_date` whose `homeworks` list starts with a dict holding non-null `homework_name` and `status`; `False` iff `homeworks` is `[]`; otherwise `TypeError` and no other exception; a non-dict fails the dict check first, a missing or null key fails the key check before the list check |
| `Homework.OnlyFirstRecordInspected` | homework.py:119-134 | neither the records after `homeworks[0]` nor any key other than `homeworks` and `current_date` ever changes the outcome of the check |
| `Homework.FirstRecord` | homework.py:181 | the first record of a checked answer has non-null `status` and `homework_name` |
| `Homework.Verdict` | homework.py:31-35 | the table lookup finds a verdict exactly for the three known status strings, and it is that status's sentence |
| `Homework.ParseStatus` | homework.py:137-152 | a missing status raises `KeyError` before anything else; a list or dict status raises `TypeError`; a falsy name raises the assistant error before an unknown status does; an unknown status raises the assistant error carrying that status; a message is returned iff the name is truthy and the status known, and it starts with the fixed sentence and ends with the status's verdict |
| `Homework.KnownStatusMessage` | homework.py:137-152 | for any record, whatever other keys it holds, whose name is a non-empty string and whose status is known, the message is exactly `Изменился статус проверки работы "<name>". <verdict>` |
| `Homework.VerdictsDistinct` | homework.py:31-35 | the verdict table is injective: two statuses with the same verdict sentence are the same status |
| `Homework.MessageDeterminesStatus` | homework.py:149-152 | for the same name, equal messages come only from equal statuses |
| `Homework.ParseAfterCheck` | homework.py:179-181 | after the check returned `True`, translating the first record never raises `KeyError`; it can fail only on a falsy name, an unknown status or an unhashable status |
| `PollLoop.Initial` | homework.py:159-161 | the loop starts with the cursor at the start time, an armed flag, no answer bound, no messages, and a consistent state |
| `PollLoop.Catch` | homework.py:186-195 | the two handlers: `ApiAnswerException` crashes iff the flag is armed and no answer is bound, otherwise sends the stale answer object only when armed and always leaves the flag disarmed; any other exception sends one error report and leaves the flag alone; neither touches the cursor or the stored answer |
| `PollLoop.Next` | homework.py:164-195 | one pass: a fetched answer never crashes and is stored as `api_response`; a fetch failure goes to the `ApiAnswerException` handler; a pass keeps the earlier messages and adds at most one |
| `PollLoop.Run` | homework.py:163 | repeated passes keep the earlier messages and add at most one per pass; passes over fetched answers only never crash |
| `PollLoop.NextCrashesOnlyUnbound` | homework.py:186-191 | in a consistent state a pass dies exactly on a fetch failure before any answer was fetched; otherwise a consistent state stays consistent |
| `PollLoop.CursorMovesOnlyOnDelivery` | homework.py:177-184 | after a pass the cursor is the answer's non-null `current_date` if the check returned `True` and the status translated, and otherwise unchanged (empty list, falsy answer, any exception) |
| `PollLoop.FetchFailureSuppressed` | homework.py:186-191 | a fetch failure with the flag armed sends the previous answer object once and disarms the flag; with it disarmed nothing changes |
| `PollLoop.FalsyAnswerSkipped` | homework.py:177-178 | a falsy answer only replaces the stored answer: no message, flag and cursor unchanged |
| `PollLoop.TruthyAnswerRearms` | homework.py:177-178 | any truthy answer re-arms the flag, whatever follows |
| `PollLoop.OtherErrorsAlwaysReported` | homework.py:192-195 | an exception from the check or the translation sends one error report on every pass, whatever the flag was |
| `PollLoop.DeliveredSends` | homework.py:177-184 | for every delivered pass (truthy answer, check `True`, status translated) the new state is exactly: the answer stored, the flag armed, the translated status of `homeworks[0]` appended as the one message, the cursor at `current_date` |
| `PollLoop.NoUpdatesSendsNothing` | homework.py:177-184 | for every answer whose `homeworks` is `[]` with a non-null `current_date`, the pass only stores the answer and arms the flag: nothing is sent and the cursor stays |
| `PollLoop.ConsecutiveFailuresSendOnce` | homework.py:186-191 | any run of one or more consecutive fetch failures from an armed flag sends exactly one message |
| `PollLoop.FailuresChangeNothing` | homework.py:189-191 | with the flag disarmed, any number of fetch failures changes nothing |
| `PollLoop.EmptyAnswerKeepsCursor` | homework.py:119-121 | the answer `{"homeworks": [], "current_date": 1000198500}` sends nothing and leaves the cursor unchanged |
| `PollLoop.ApprovedAnnounced` | homework.py:177-184 | the answer with `hw1` approved sends the approved sentence for `hw1` and moves the cursor to 1000198991 |
| `PollLoop.SuppressionRearmed` | homework.py:177-191 | failure, failure, answer, failure sends two messages; the second is the object of the answer in between |
| `PollLoop.RunConcat` | homework.py:163 | running two sequences of outcomes one after the other is running their concatenation; a crash in the first ends the run |
| `PollLoop.RunCrashed` | homework.py:163 | once a prefix of the passes crashes, the whole run has crashed |
| `PollLoop.Bot.constructor` | homework.py:159-161 | the fields hold the initial state: cursor at the start time, flag armed |
| `PollLoop.Bot.SendMessage` | homework.py:74-83 | the message is appended to those sent, and no other field changes |
| `PollLoop.Bot.Step` | homework.py:164-195 | one pass: crashes iff `Next` does, that is iff the fetch failed before any answer was fetched (then nothing changes); otherwise the new fields are `Next` of the old ones, and the state stays consistent |
| `PollLoop.Bot.Poll` | homework.py:163-196 | the loop over the given outcomes ends in `Run` of the initial fields, or crashes exactly when `Run` does |

## Left out

- `get_api_answer` (homework.py:86-101): the HTTP request, headers, status code and JSON decoding are network I/O. A fetch is an input, either `Fetched(json)` or `FetchFailed`. Every failure there ends as one `ApiAnswerException`, so one variant covers them all.
- `send_message` (homework.py:74-83): Telegram delivery is left out. Its failures are swallowed, so sending is modelled as appending to `sent`.
- Logging (homework.py:13-21 and every `logger` call) and the stray `print` (homework.py:116) produce no state the bot reads.
- `load_dotenv` and `os.getenv` (homework.py:11, 23-25): the three values are parameters of `CheckTokens`.
- `sys.exit(0)` (homework.py:71): it is the `Stop` outcome, with `StopExitCode` = 0.
- `time.time()` and `time.sleep(RETRY_PERIOD)` (homework.py:159, 196): the start time is a constructor parameter, and the sleep has no effect on state.
- The unbounded `while True` (homework.py:163): `Poll` runs it over a finite list of fetch outcomes.
- Exception message texts: they embed Python reprs of dicts and are only logged or sent. `ErrorReport(e)` stands for the "Сбой в работе программы: " text of exception `e`. The error variant and, for an unknown status, the status value are kept.
- JsonValue.Display: the `str()` of a list or dict `homework_name` (a Python repr) is not modelled and is rendered as a placeholder. Strings, integers, booleans and null are rendered as Python does.
- JSON floating-point numbers are not part of `Json`. Such a `current_date` would behave like any other non-null value.
- What Telegram shows for the answer object sent on a fetch failure: the object itself is recorded (`StaleResponse`).
- `exceptions.py` is not part of this model. The bot does not import it and defines its own classes (homework.py:38-53).
- `tests/fixtures/fixture_data.py` is not part of this model. It holds random test fixtures for a module that is not shown.
