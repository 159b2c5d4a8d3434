# homework_bot: the notification-decision logic, in Dafny

The bot polls the homework-status API of Yandex Practicum and tells a
Telegram chat when the review status of a homework changes. This project
models the decision logic in `homework.py`:

- the credential check (`check_tokens`);
- the three outcomes of one API request (a decoded body, a status code other
  than 200, or a transport or decoding error that is logged and swallowed);
- `check_response`, which takes `response["homeworks"][0]`;
- `parse_status`, which maps the record's status through the closed table
  `HOMEWORK_VERDICTS` and builds the chat text;
- the body of `main`'s `while True` loop, a state machine over `tmp_status`
  (starts at `"reviewing"`) and the one-shot flag `errors` (starts true),
  with a fixed request cursor `timestamp`.

Files and modules:

- `wrappers.dfy` (`Wrappers`): `Option` and `Result`.
- `pyjson.dfy` (`PyJson`): decoded JSON values, and the Python operations the
  bot applies to them. This covers `d.get(k)`, subscription `x[k]` with the
  exception each container type raises, hashability, and `str`/`repr`.
  Python's `None` and JSON `null` are one value, `JNull`.
- `homework.py` constants and pure functions are in `homework.dfy` (`Homework`).
- The loop is in `polling.dfy` (`Polling`). `Next` is one pass of the loop
  as a function on a `LoopState`, and `Run` is many passes. The class `Bot`
  holds the loop variables, the chat log `sent` and the log of request
  cursors `requests`. Its `Step` and `Poll` methods are proved against `Next`
  and `Run`.

Behaviour of the loop that the lemmas pin down:

- `tmp_status` starts at `"reviewing"`, so a first record under review sends
  nothing (`FirstReviewingIsSilent`), and a reviewing-then-approved sequence
  sends only the approval (`ReviewingThenApproved`).
- `errors` is never set back to true, so the process sends at most one error
  message in its lifetime (`AtMostOneErrorMessage`).
- The cursor is never advanced: every request carries the start time
  (`Bot.timestamp` is a `const`, and `Bot.Valid` holds for every entry of
  `requests`).
- Only the first record of `homeworks` is looked at.
- An unknown status passes `check_response`, which only logs it; the pass then
  raises KeyError at the dictionary lookup in `parse_status`, and the error
  message carries that status (`UnknownStatusReported`). A non-empty record
  without a `status` key raises KeyError('status') at the comparison in the
  loop (`MissingStatusReported`); an empty record `{}` is falsy and the pass
  is quiet.
- An empty `homeworks` list, what the fixed cursor brings back whenever
  nothing has changed, raises IndexError in `check_response`; the first such
  pass uses up the one error message (`EmptyHomeworksReported`).

## Model

| member | source | states |
|---|---|---|
| `Homework.CheckTokens` | homework.py:54-70 | true iff all three credentials are set (an empty string counts as set); each missing one independently forces false and names itself in the critical-log list |
| `Homework.GetApiAnswer` | homework.py:85-104 | only a status code other than 200 raises, and then TheAnswerIsNot200Error with that code; a decoded body is returned as is; a swallowed transport or decoding error returns None |
| `Homework.CheckResponse` | homework.py:107-122 | succeeds iff the response is an object whose `homeworks` is a non-empty list starting with an object whose status can be a dict key, and then returns that first object; any string status, documented or not, passes; a missing `homeworks` raises KeyError, an empty list IndexError, a None response TypeError |
| `Homework.ParseStatus` | homework.py:125-138 | raises UndocumentedStatusError iff the status is absent or None; succeeds iff the status is a key of the verdict table, with exactly `Изменился статус проверки работы "<name>". <verdict>`; any other hashable status raises KeyError on that status |
| `Homework.ParseStatusForEveryVerdict` | homework.py:25-29 | every key of the verdict table, with a string name, yields its own verdict's message |
| `Polling.Init` | homework.py:149-151 | on entry to the loop `tmp_status` is "reviewing" (a documented status), `errors` is true, and only the start message has been sent, so no error message yet |
| `Polling.Cycle` | homework.py:153-159 | the `try` block: a status change is reported only for a documented status different from `tmp_status`, with parse_status's text for the record check_response returned; a quiet pass means a record was obtained |
| `Polling.Next` | homework.py:152-168 | one pass keeps `tmp_status` a documented status, never sets `errors` back to true, and appends at most one message to the chat log without altering earlier ones |
| `Polling.Run` | homework.py:152-168 | the passes of the `while True` loop in order: `errors` is never set back to true, each pass appends at most one message, and earlier messages are kept |
| `Polling.CycleMeaning` | homework.py:153-159 | whether a pass raises does not depend on `tmp_status`; a status message goes out iff the record is non-empty and its documented status differs from `tmp_status`, and carries parse_status's text and the new status |
| `Polling.SuccessfulStep` | homework.py:155-160 | in a pass that does not raise, a status message is sent iff the homework is truthy and its status differs from `tmp_status`; after sending, `tmp_status` is that status; otherwise the state is unchanged |
| `Polling.FailedStep` | homework.py:162-168 | in a pass that raises, `tmp_status` is kept, `errors` becomes false, and one message beginning with the error prefix is appended exactly when `errors` was true |
| `Polling.Non200Failure` | homework.py:91-97 | with `errors` set, a code other than 200 clears `errors` and sends exactly the error prefix followed by TheAnswerIsNot200Error's text with the endpoint and the code; `tmp_status` is kept |
| `Polling.SwallowedFailure` | homework.py:99-112 | with `errors` set, a swallowed request error (None returned) makes check_response raise TypeError; `errors` is cleared and that error's text is sent after the prefix; `tmp_status` is kept |
| `Polling.UnknownStatusReported` | homework.py:116-166 | in any record, a string status outside the table passes check_response and then raises KeyError at the lookup; with `errors` set the message is the prefix followed by the quoted status and `errors` is cleared; afterwards the same record changes nothing |
| `Polling.MissingStatusReported` | homework.py:112-166 | a non-empty record without `status` passes check_response and raises KeyError('status') at the loop's comparison; with `errors` set that is the message sent; afterwards nothing changes |
| `Polling.EmptyHomeworksReported` | homework.py:112-166 | with `errors` set, an answer whose `homeworks` is empty sends the prefix followed by "list index out of range" and clears `errors`; once cleared, it changes nothing |
| `Polling.StatusMessageIsNoError` | homework.py:138 | neither a status message nor the start message begins with the error prefix |
| `Polling.NextErrorsFlag` | homework.py:162-165 | `errors` stays set through one pass iff that pass does not raise |
| `Polling.NextErrorCount` | homework.py:162-166 | one pass adds an error message iff it raises while `errors` is set |
| `Polling.NextIdempotent` | homework.py:156-159 | running a pass again on the same answer changes nothing |
| `Polling.FirstReviewingIsSilent` | homework.py:150-159 | from the start state, a first record with status "reviewing" sends nothing and changes nothing |
| `Polling.ReviewingThenApproved` | homework.py:150-159 | a reviewing record followed by an approved one sends only the start message and the approval message |
| `Polling.RunKeepsKnown` | homework.py:156-159 | across any run, `tmp_status` is always a key of the verdict table |
| `Polling.ReplayIdempotent` | homework.py:152-159 | replaying one answer N >= 1 times ends in the state of a single pass, so at most the first change is announced |
| `Polling.RunErrorsFlag` | homework.py:151-165 | after any run, `errors` is still true iff it started true and no pass raised |
| `Polling.ErrorDamping` | homework.py:162-166 | over any run, the number of error messages grows by exactly one if `errors` was set and some pass raised, and by zero otherwise |
| `Polling.AtMostOneErrorMessage` | homework.py:149-166 | from start-up, the process sends exactly one error message if some pass raised and none otherwise |
| `Polling.Bot.constructor` | homework.py:146-151 | the cursor is fixed at the start time, the start message is sent, `tmp_status` is "reviewing" and `errors` is true |
| `Polling.Bot.Step` | homework.py:153-168 | one pass updates the bot as `Next` says and records one request whose cursor is the start time |
| `Polling.Bot.Poll` | homework.py:147-168 | the loop over a finite prefix of answers ends in `Run`'s state; every request carried the start time; at most one more error message was sent |
| `Polling.Launch` | homework.py:144-151 | no bot is started iff a credential is missing; otherwise the bot is in its start state |

## Left out

- The HTTP request at homework.py:85-104 is not modelled. Its three outcomes are the input `FetchOutcome` of each pass.
- The Telegram client and `send_message` (homework.py:73-82) are not modelled. A send is an append to `sent`, and every send is taken to succeed. A `BadRequest` that `send_message` logs, or another send error that would reach `main`'s `except` block, is not modelled.
- Logging, `time.sleep(RETRY_PERIOD)`, `load_dotenv`/`os.getenv`, `time.time()`, `datetime.now()` and its formatting, and `exit()` are not modelled. Credentials, the start time and the formatted start date are parameters.
- `Bot.Poll` covers a finite prefix of the `while True` loop, with the answers given in advance.
- `PyJson.Str` and `PyJson.Repr`: a list or dict is rendered as `[...]` or `{...}`, not as Python's repr. A string's repr always uses single quotes and no escaping.
- The texts of Python's built-in exceptions (KeyError, IndexError, TypeError, AttributeError) follow CPython 3.11 wording. The model does not follow other versions.
- JSON numbers are integers. Floats are not modelled.
- The exception classes `EmptyDictionaryOrListError` and `RequestExceptionError` (homework.py:42-51) are never raised, so they are not modelled. exceptions.py is not imported by homework.py and is not part of this model.
- The missing-`homeworks` log at homework.py:113-115 is not modelled. It only logs, and it cannot fire, because line 112 has already indexed `homeworks`.
