# homework_bot: the poll-and-notify core, in Dafny

The bot asks the homework-review API for the student's submissions on a
fixed `from_date`. It checks the shape of the answer and turns the latest
record's status into a sentence. It then sends that sentence to one chat,
unless the same text was sent before. Errors that the loop catches are
sent as text under the same no-repeat rule.

The model has three modules:

- `PyValues` (`pyvalues.dfy`): a decoded JSON value (`Json`), dict lookup
  (`Get`), and the text Python's `str()` produces for a value. That text is
  what the f-strings insert for a status, a homework name or a status code.
  It also holds decimal printing of integers, with its read-back.
- `Homework` (`homework.dfy`): the pure steps, with exceptions as values
  (`Exc`, `Result`).
  - `GetApiAnswer` models the error wrapping of `get_api_answer`.
  - `CheckResponse` models `check_response`.
  - `ParseStatus` and `Verdicts` model `parse_status` and `HOMEWORK_VERDICTS`.
- `Poll` (`poll.dfy`): the loop body of `main`.
  - `Cycle` is one pass as a function. `Run` is a finite stretch of the
    loop.
  - `Poller` is a class holding the module-level `message_list` (`sent`)
    and the start-up timestamp (`fromDate`). Its ghost logs record every
    text handed to the bot, every delivered text and every requested
    `from_date`.
  - `Poller.Step` runs one pass in place and is proved equal to `Cycle`.
    `Poller.SendMessage` models `send_message`, and `Poller.Notify` the
    repeated "send unless already in the list, then append" step. `Start`
    models `main` up to the loop.

The network answer and the bot are inputs of a cycle. `Fetch` is what the
GET request for a given `from_date` returned: a transport exception's
text, or a status code plus a decoded body (or the decoder's exception
text). A function `string -> Delivery` says, for each text, whether the
bot delivers it or raises, and with what text.

Three behaviours of the code are easy to misread; the model follows the
code:

- A failed send on the happy path does not end the process. `send_message`
  raises `ExceptionErrors` inside the loop's `try`, so the loop's
  `except (ExceptionErrors, TypeError)` catches it. The loop then tries to
  send the failure text, under the no-repeat rule. Only a failure of that
  second send escapes. In every case the failed text is not added to
  `message_list`.
- A homework record that is not a dict, or whose `status` is a list or a
  dict, makes Python raise `TypeError`. The loop catches that too and
  sends its text. A dict record without `status` raises `KeyError`, which
  the loop does not catch, so the process ends.
- A non-200 answer is wrapped twice. The inner `ExceptionErrors` is caught
  by `get_api_answer`'s own `except Exception`. The text that reaches the
  chat is therefore `Другие ошибки с доступом Сервер не отвечает <code>`.

The `from_date` is taken once at start-up and never advanced. The model
keeps this. `Poller.Valid` states that every request used it.

## Model

| member | source | states |
|---|---|---|
| `PyValues.Get` | homework.py:93-95 | a key is absent exactly when no member has it; otherwise the value of its last member, as a decoded dict keeps it |
| `PyValues.IntToStringRoundTrip` | homework.py:76 | the decimal text that `str()` writes for a status code reads back to the same integer |
| `PyValues.IntToString` | homework.py:76 | `str()` of an int is non-empty, starts with `-` exactly for a negative number, is otherwise all decimal digits, and has no leading zero; `PyValues.IntToStringRoundTrip` reads it back |
| `PyValues.Repr` | homework.py:111-112 | `repr()` of an int reads back to that int; of a str is wrapped in one kind of quote; of a list is wrapped in `[`…`]`; of a dict in `{`…`}` |
| `PyValues.Str` | homework.py:111-112 | `str()` of a string is the string itself, and `str()` of an int reads back to that int |
| `Homework.GetApiAnswer` | homework.py:68-82 | succeeds exactly on a 200 answer with a decodable body and returns the decoded value unchanged; every failure is an `ExceptionErrors` starting `Другие ошибки с доступом `; a non-200 code gives the doubly wrapped `Сервер не отвечает <code>` text |
| `Homework.NoAnswerMessageNamesCode` | homework.py:75-82 | the status code can be read back from the non-200 error text |
| `Homework.NoAnswerMessagesDiffer` | homework.py:75-82 | two different status codes never give the same error text, so a new code is reported again |
| `Homework.CheckResponse` | homework.py:85-101 | each of the four rules (a dict, has `homeworks`, it is a list, it is non-empty) fails with its own `TypeError` text exactly when the rules before it hold; success exactly when all four hold, returning the first record |
| `Homework.ShapeMessagesDistinct` | homework.py:91-98 | the four `TypeError` texts are pairwise different |
| `Homework.CheckResponseIgnoresRecord` | homework.py:99-101 | the first record is returned as it is, whatever it holds; replacing it changes only the value returned |
| `Homework.GetPastLast` | homework.py:93-95 | members after the last one with a given key do not change the lookup |
| `Homework.ParseStatus` | homework.py:104-119 | a non-dict record raises Python's `TypeError`; a missing `status` raises `KeyError('status')`; an unhashable status raises `TypeError`; an unknown status raises the error embedding `str(status)` whatever the name; a known status without a name raises the missing-name error; success exactly for a known status with a name, giving the template with the table's verdict |
| `Homework.NotSubscriptableMessage` | homework.py:110 | the `TypeError` text for subscripting a non-dict record is non-empty and cannot be mistaken for a status notification (its first character differs) |
| `Homework.UnhashableMessage` | homework.py:110 | the `TypeError` text for a list or dict status in `status not in HOMEWORK_VERDICTS` is non-empty and does not start like a status notification |
| `Homework.Message` | homework.py:142 | `f'{error}'` of a `KeyError` is its key wrapped in one kind of quote; for caught errors see `Poll.CaughtErrorText` and `Poll.ErrorTextsAreNotNotifications` |
| `Homework.VerdictsDistinct` | homework.py:36-40 | the verdict table gives each of the three statuses a different sentence |
| `Homework.StatusChangedParts` | homework.py:117-119 | a notification starts with the fixed prefix, holds the name right after it and ends with the verdict |
| `Homework.StatusChangeGivesNewMessage` | homework.py:110-119 | for the same name, two notifications are equal exactly when the statuses are equal, so a status change is never suppressed as a repeat |
| `Homework.UnknownStatusNamesValue` | homework.py:110-112 | the unknown-status error ends with `str()` of the offending status |
| `Poll.SendFailure` | homework.py:62-65 | the exception raised for a failed send is an `ExceptionErrors` whose text is the fixed prefix, then the message, then the fixed middle, then the bot's error text; it is longer than the message, so it never equals it |
| `Poll.CheckTokens` | homework.py:43-52 | the bot stops exactly when one of the three secrets is unset or empty |
| `Poll.Start` | homework.py:122-128 | no poller (the process stops) exactly when a token is missing; otherwise a fresh poller with an empty list, no requests and nothing handed to the bot yet, and `from_date` fixed to the start-up time |
| `Poll.Attempt` | homework.py:131-134 | a successful fetch-check-format gives a text with the notification prefix; the only error the loop does not catch is the `KeyError` for `status` |
| `Poll.ErrorTextsAreNotNotifications` | homework.py:131-146 | every caught error text of a cycle, and every send-failure text, is non-empty and starts differently from a status notification, so an error can never suppress a later notification as a repeat |
| `Poll.Report` | homework.py:141-146 | an uncaught error ends the cycle with nothing sent; a caught error's text is handed to the bot exactly when it is not in the list yet; a text already listed sends nothing and the cycle ends normally; the list gains that text exactly when the bot delivered it, and the cycle then ends normally; when that send fails, the cycle crashes with the send-failure `ExceptionErrors` and the list is unchanged |
| `Poll.Cycle` | homework.py:130-148 | at most two texts are handed to the bot per cycle; the list is only extended, by at most one text; a crashing cycle leaves it unchanged; each case is stated outright by one of the `Cycle…` lemmas below |
| `Poll.CaughtErrorText` | homework.py:141-142 | the text sent for a caught exception does not depend on its class, so an `ExceptionErrors` and a `TypeError` with the same text are one entry of `message_list` |
| `Poll.CycleReportsNewError` | homework.py:141-146 | a caught error whose text is new and which the bot delivers is sent once, appended once, and the cycle ends normally |
| `Poll.CycleErrorSendFailureEscapes` | homework.py:141-146 | when the send of a new caught-error text fails, the raised `ExceptionErrors` ends the process (that send is outside the `try`) and the list is unchanged |
| `Poll.CycleHappySendFailureIsReported` | homework.py:131-146 | when the send of a new status text fails, its `ExceptionErrors` is caught inside the `try` and the cycle continues as the report of that error, after the failed attempt |
| `Poll.CycleHappySendFailureKnown` | homework.py:131-148 | when the send of a new status text fails and that failure's text is already in the list, nothing more is sent, the list is unchanged and the loop goes on to the sleep |
| `Poll.CycleSkipsKnownMessage` | homework.py:135-139 | a status text already in `message_list` is neither sent nor added |
| `Poll.CycleSkipsKnownError` | homework.py:141-146 | a caught error whose text is already in `message_list` is neither sent nor added |
| `Poll.CycleSendsNewMessageOnce` | homework.py:135-137 | a new status text that the bot delivers is sent once and appended once |
| `Poll.CycleUncaughtEscapes` | homework.py:131-141 | an exception other than `ExceptionErrors`/`TypeError` escapes the cycle before anything is sent, leaving the list unchanged |
| `Poll.CycleAppendsOnlyDelivered` | homework.py:131-146 | at most two sends per cycle, none of a text already in the list; only delivered texts are appended and every delivered text is; at most one text is appended; an escaping exception leaves the list unchanged |
| `Poll.CycleKeepsNoDup` | homework.py:135-146 | a cycle keeps `message_list` free of duplicates, only extends it, and grows it by at most one |
| `Poll.CycleIdempotent` | homework.py:130-148 | repeating a cycle on the same answer and the same bot behaviour delivers nothing and leaves the list unchanged |
| `Poll.Run` | homework.py:128-148 | a run of cycles only extends the list, by at most one text per cycle |
| `Poll.RunKeepsNoDup` | homework.py:128-148 | over any number of cycles on the fixed `from_date`, the list never holds a text twice, only grows, and by at most one text per cycle |
| `Poll.RunOnRepeatedAnswer` | homework.py:128-148 | when every cycle gets the same answer, the run ends where the first cycle left it |
| `Poll.RepeatAfterFirst` | homework.py:130-148 | after one cycle on an answer, further cycles on the same answer leave the list unchanged and end the same way |
| `Poll.Poller.constructor` | homework.py:33 | starts with an empty `message_list`, nothing sent, nothing requested, and `from_date` fixed to the given time |
| `Poll.Poller.SendMessage` | homework.py:55-65 | hands the text to the bot; a delivery is recorded; a failure returns the wrapped `ExceptionErrors` and records no delivery |
| `Poll.Poller.Notify` | homework.py:135-137 | a text already in `message_list` is not handed to the bot; a new one is; it is appended exactly when the bot delivered it, and a failed send returns the wrapped `ExceptionErrors` |
| `Poll.Poller.Step` | homework.py:130-148 | requests with the start-up `from_date`; the new `message_list`, the texts handed to the bot and the outcome are those of `Cycle`; keeps the invariant that the list equals the delivered texts, has no duplicates, and every request used `from_date` |
| `Poll.ApprovedHomeworkIsAnnounced` | homework.py:130-137 | `{"homeworks": [{"status": "approved", "homework_name": "hw1"}]}` sends and records exactly the approved notification for `hw1` |
| `Poll.EmptyListReportedOnce` | homework.py:97-98 | `{"homeworks": []}` sends the empty-list error once; the same answer in the next cycle sends nothing |
| `Poll.ServiceUnavailableReportedOnce` | homework.py:75-82 | a 503 answer sends `Другие ошибки с доступом Сервер не отвечает 503` once; a second 503 sends nothing |

## Left out

- The HTTP request (`requests.get`) and `response.json()` are not modelled. Their results are the `Fetch` input: a transport exception's text, or a status code with a decoded body or the decoder's exception text.
- `telegram.Bot` and the real `bot.send_message` are not modelled. A send is a `string -> Delivery` input that delivers or raises with a given text.
- Logging setup and all `logging` calls are output only and do not affect the logic.
- `load_dotenv` and `os.getenv` are left out. The three secrets are `Option<string>` parameters. `sys.exit` is `Start` returning `null`.
- `time.time`, `time.sleep` and the endless `while True` are left out. The start-up time is a parameter. One pass is `Poller.Step`, and a finite stretch of passes is `Run`.
- JSON floating-point numbers are not modelled. `Json` has no float variant, so `str()` of a float status or name is not covered.
- `PyValues.Repr` (and so `PyValues.Str`): Python's `repr` escaping is modelled only for backslash, the chosen quote, newline, carriage return and tab. Other non-printable characters are shown unescaped.
- `PyValues.Repr` (and so `PyValues.Str`): for a JSON object with a duplicated key, the model prints every member in order. Python shows the key once, at its first position, with the last value.
- `Homework.ParseStatus`: the `TypeError` texts for subscripting a non-dict use CPython 3.9 wording. Python 3.11 and later word the string case differently.
- The `exceptions` module is not part of this model. `ExceptionErrors` is taken to be a plain exception whose `str()` is its message.
- Exceptions from outside the program (interrupts, out of memory) are not modelled.
