# fail2ban smtp action — a Dafny model

This project models fail2ban's Python action `smtp.py`. The action mails the
administrator in three cases: when a jail starts, when it stops, and when an
address is banned. The model has two halves.

**Composing a notification** is pure and is modelled with datatypes, functions and lemmas.

- `templates.dfy` models a message template as a sequence of literal pieces and
  named placeholders, `%(key)s` and `%(key)i`. `Render` is Python's `%` operator
  applied with a mapping:
  - a missing key gives `KeyError`;
  - `%i` applied to a string gives `TypeError`;
  - otherwise each placeholder is filled, with an integer written in decimal.
- `messages.dfy` holds the rest of this half:
  - the action's template table and subject formats;
  - the ban body, which is head, then the section `matches` selects, then tail;
  - the action's context values (jail name, host name, ban time);
  - the `dict.update` that merges those values into the ban event's information.
- `recipients.dfy` models how the `dest` setting is split on `", "` into
  recipients, and the matching join.

**Sending a notification** works step by step and is modelled with classes and methods.

- `transport.dfy` has these parts:
  - The SMTP session is a `Session` class. It records each request it is given
    (connect, login, sendmail, quit).
  - The relay's answers come from a `Relay` value, one scripted answer per request.
  - `Exchange` specifies the whole `try` / `except` / `else` / `finally` structure
    of `_sendMessage`: which requests are made, what is logged, and what the call
    raises.
- `action.dfy` has the `SMTPAction` class, which holds its settings:
  - `SendMessage` drives one fresh session and is proved to behave as `Exchange` says.
  - `Start`, `Stop` and `Ban` compose a notification and send it.
  - `Ban` updates the caller's `ActionInfo` dictionary in place, as the source's
    `aInfo.update(...)` does.

How `ban` treats its inputs:

- `aInfo.update(self.message_values)` overwrites the keys `jailname`, `hostname`
  and `bantime` when the caller already set them, so the context's values are
  the ones the notification shows.
- Beyond the documented "matches", "ipmatches" and "ipjailmatches",
  `messages['ban'].get(self.matches, "")` also accepts the table's own keys
  "head" and "tail" as `matches` settings. They repeat the head or the tail.
- Any other `matches` value (or none) selects an empty section.

Reading the source this way brought out two facts, both stated in the model:

- An error that is not an SMTP error raises without being logged, because no
  `except` clause matches it. A plain socket error while connecting is one example.
- A disconnect raised by the first three requests is logged as a send failure.
  This is because `SMTPServerDisconnected` is caught by the generic
  `SMTPException` clause.

## Model

| member | source | states |
|---|---|---|
| Templates.Render | config/action.d/smtp.py:220-223 | `template % values` succeeds exactly when every placeholder's key is present and every `%i` finds an integer; a failure names a key the template uses, and is `KeyError` (MissingKey) when that key is absent and `TypeError` (NotANumber) when it holds a string under `%i` |
| Templates.RenderAppend | config/action.d/smtp.py:215-223 | formatting the joined body template equals formatting head, section and tail separately and joining, the first error winning |
| Templates.RenderDependsOnKeys | config/action.d/smtp.py:220-223 | two maps that agree on the keys a template names format it identically |
| Templates.DigitsRoundTrip | config/action.d/smtp.py:48-49 | the decimal numeral `%i` writes for a non-negative count reads back as that count |
| Templates.DecimalInjective | config/action.d/smtp.py:48-49 | distinct ban times or failure counts are written as distinct numerals, sign included |
| Messages.TemplateKeys | config/action.d/smtp.py:27-69 | the table's keys are head, tail, matches, ipmatches and ipjailmatches; each template names exactly its placeholders' keys; the head's ban time and failure count are `%i`, and every other placeholder of the table is `%s` |
| Messages.BanTemplate | config/action.d/smtp.py:215-219 | the joined body template holds exactly the pieces of head, selected section and tail, and its length is the sum of theirs |
| Messages.MessageValues | config/action.d/smtp.py:123-127 | the context has exactly the keys jailname, hostname and bantime, holding the jail's name, the host name and the integer ban time |
| Messages.MatchSection | config/action.d/smtp.py:217 | `messages['ban'].get(matches, "")`: each table key selects its template, and the section is empty exactly when `matches` is None or not a key of the table |
| Messages.Update | config/action.d/smtp.py:214 | `aInfo.update(values)`: keys are the union, context keys take the context's values, every other key keeps its value |
| Messages.Compose | config/action.d/smtp.py:220-223 | subject and body are formatted from one map, subject first; it succeeds exactly when both can be filled; a subject error is the one raised, and when the subject fills, the body's error is raised |
| Messages.ComposeStart | config/action.d/smtp.py:192-195 | `start` never raises a formatting error: the context fills its subject and text |
| Messages.ComposeStop | config/action.d/smtp.py:200-203 | `stop` never raises a formatting error: the context fills its subject and text |
| Messages.ComposeBan | config/action.d/smtp.py:215-223 | a ban composes exactly when the subject, the head and the selected section can be filled from the merged information |
| Messages.StartText | config/action.d/smtp.py:189-195 | `start` always composes: subject "[Fail2Ban] <jail>: started on <host>" and the start text with the jail name |
| Messages.StopText | config/action.d/smtp.py:197-203 | `stop` always composes: subject "[Fail2Ban] <jail>: stopped on <host>" and the stop text with the jail name |
| Messages.BanBodyParts | config/action.d/smtp.py:215-223 | a composed ban body is exactly formatted head, then formatted selected section, then formatted tail |
| Messages.BanSubjectText | config/action.d/smtp.py:221-222 | the ban subject is "[Fail2Ban] <jail>: banned <ip> from <host>" |
| Messages.BanHeadText | config/action.d/smtp.py:45-50 | the ban head holds the address, the ban time and failure count in decimal, and the jail name, at their places in the fixed text |
| Messages.BanComposesIff | config/action.d/smtp.py:205-223 | after the merge, a ban composes exactly when the caller supplied an address, an integer failure count and, for a selected match section, its match lines |
| Messages.BanWithoutMatchesText | config/action.d/smtp.py:214-223 | with no match section the ban notification is the fixed subject and head followed by the tail, filled from the event |
| Messages.BanExample | config/action.d/smtp.py:214-223 | the exact notification for address 10.0.0.5, 3 failures and a 600-second ban |
| Messages.BanRecomposes | config/action.d/smtp.py:214 | merging the context a second time leaves the dictionary, and so the notification, unchanged |
| Recipients.Split | config/action.d/smtp.py:162 | `toaddr.split(", ")` gives at least one piece, the first a prefix of the setting, none holding a separator |
| Recipients.JoinSplit | config/action.d/smtp.py:162 | joining the split recipients with ", " gives the `dest` setting back |
| Recipients.SplitJoin | config/action.d/smtp.py:100-102 | a list of addresses without separators joined with ", " splits back into that list |
| Recipients.DefaultRecipients | config/action.d/smtp.py:79 | the default `dest` "root" is one recipient, "root" |
| Transport.FirstMatch | config/action.d/smtp.py:163-175 | the handler chosen for an error is the first `except` clause whose class it is an instance of, and there is none exactly when no clause matches |
| Transport.Plan | config/action.d/smtp.py:158-162 | the `try` block's requests are connect to the host, login only when both credentials are set, then sendmail with the split recipients; no quit among them |
| Transport.TryBlock | config/action.d/smtp.py:156-162 | a raising connect ends the block after one request, a raising login after two; every request is made exactly when connect and any login succeed, and the block completes exactly when sendmail then returns; once connect and any login succeed, the block ends with sendmail's refusals or sendmail's own error |
| Transport.Handle | config/action.d/smtp.py:163-181 | at most one line is logged: for an error, exactly when it is an SMTP error; after a completed send, exactly when some recipient was refused |
| Transport.Finally | config/action.d/smtp.py:182-187 | a successful quit or a disconnect leaves the pending outcome; any other quit failure replaces it |
| Transport.Exchange | config/action.d/smtp.py:155-187 | the session opens with connect and ends with quit, logs at most one line, and returns normally exactly when the `try` block completed and quit did not fail other than by a disconnect |
| Transport.QuitOnceAndLast | config/action.d/smtp.py:182-187 | quit is requested exactly once, as the last request, on every path |
| Transport.StepsInOrder | config/action.d/smtp.py:155-162 | the requests are a prefix of the plan, then quit; a raising connect gives just connect and quit, a raising login connect, login and quit; sendmail is requested exactly when connect and any login succeeded |
| Transport.LoginIff | config/action.d/smtp.py:159-160 | login is requested exactly when connect succeeded and both user and password are set and non-empty |
| Transport.NoCredentialsNoLogin | config/action.d/smtp.py:159-160 | without both credentials, the relay's answer to login has no effect on the run |
| Transport.ErrorsPropagate | config/action.d/smtp.py:163-175 | an error of connect, login or sendmail is re-raised unchanged unless quit then fails with something other than a disconnect |
| Transport.Classification | config/action.d/smtp.py:163-175 | a connect error, an authentication error and any other SMTP error each log their own line once; a non-SMTP error logs nothing |
| Transport.RefusedRecipients | config/action.d/smtp.py:176-181 | when sendmail returns, a non-empty refusal map logs one warning with it, and the call returns normally unless quit fails |
| Transport.QuitFailurePropagates | config/action.d/smtp.py:182-187 | a quit failure other than a disconnect is what the call raises, whatever happened before |
| Transport.SendRecipients | config/action.d/smtp.py:161-162 | sendmail receives the sender and the `dest` setting split on ", ", which join back to the setting |
| Transport.Session.Connect | config/action.d/smtp.py:158 | the connect request is recorded and the relay's answer returned |
| Transport.Session.Login | config/action.d/smtp.py:160 | the login request with the user and password is recorded and the relay's answer returned |
| Transport.Session.SendMail | config/action.d/smtp.py:161-162 | the sendmail request with sender, recipients and message is recorded and the relay's answer returned |
| Transport.Session.Quit | config/action.d/smtp.py:185 | the quit request is recorded and the relay's answer returned |
| Action.ActionInfo.constructor | config/action.d/smtp.py:205-214 | the caller's event dictionary, which `ban` updates in place, starts with the caller's entries |
| Action.SMTPAction.constructor | config/action.d/smtp.py:77-121 | the settings are stored, with defaults localhost, no credentials, "Fail2Ban", "fail2ban", "root" and no match section |
| Action.SMTPAction.SendMessage | config/action.d/smtp.py:129-187 | one fresh session behaves as `Exchange` specifies: connect first, quit last, errors logged by the first matching clause and propagated |
| Action.SMTPAction.Start | config/action.d/smtp.py:189-195 | sends the start subject and text through `SendMessage` |
| Action.SMTPAction.Stop | config/action.d/smtp.py:197-203 | sends the stop subject and text through `SendMessage` |
| Action.SMTPAction.Ban | config/action.d/smtp.py:205-223 | the caller's dictionary gains the context values, overwriting those keys and keeping the rest; a formatting error raises before any session, otherwise the composed notification is sent through `SendMessage` |

## Left out

- MIME construction, the `From` header built by `formataddr` and the `Date` header from `formatdate`: the model keeps the subject, sender name, sender, recipient setting and body as a `Mail` record.
- The SMTP wire protocol and smtplib internals, such as parsing "host:port" and the reply codes of connect and quit: each request gets one scripted answer from a `Relay` value.
- smtplib raising `SMTPRecipientsRefused` when every recipient is refused: this is one of the relay's possible answers to sendmail, not derived from the recipients.
- `socket.gethostname` and the jail's `getBanTime`: their answers at one composition are an `Environment` parameter.
- `CallingMap`, which can resolve a callable value again on every lookup within one `%` operation: the model resolves it once per composition.
- The wording of log lines and the debug logs: the model records which warning or error is logged and with which arguments.
- Python `%` beyond `%(key)s` and `%(key)i`, and message values other than strings and integers, which these templates do not use.
- Exceptions while building the MIME message before the `try` block, and exceptions raised by the logger.
- Concurrency: the actions thread calls one action at a time.
- `ActionBase` and the `Jail` object: the jail is represented by its name, and the action's `name` is stored but otherwise unused, as in the source.
