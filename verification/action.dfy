/**
 * The smtp action itself: its settings, the send procedure that drives one
 * session, and the three notifications it sends when its jail starts, when
 * it stops and when an address is banned.
 */
module Action {
  import opened Wrappers
  import opened Templates
  import opened Messages
  import opened Transport
  import Recipients

  /** The caller's event information for one ban, a dictionary that `ban`
      updates in place, so the caller sees the change. */
  class ActionInfo {
    var items: map<string, Value>

    constructor (items: map<string, Value>)
      ensures this.items == items
    {
      this.items := items;
    }
  }

  /** What one notification came to: the message handed to the session and
      what the session did, or the formatting error raised before any
      session was opened. */
  datatype Dispatch = Dispatched(mail: Mail, run: Run) | NotComposed(error: FormatError)

  class SMTPAction {
    const jailName: string
    const name: string
    const host: string
    const user: Option<string>
    const password: Option<string>
    const fromName: string
    const fromAddr: string
    const toAddr: string
    const matches: Option<string>

    /** The action for the jail `jailName`, with the same defaults as the
        source: the local host, no credentials, sender name "Fail2Ban",
        sender "fail2ban", recipient "root" and no match section. */
    constructor (
      jailName: string, name: string, host: string := "localhost",
      user: Option<string> := None, password: Option<string> := None,
      sendername: string := "Fail2Ban", sender: string := "fail2ban",
      dest: string := Recipients.DefaultDest, matches: Option<string> := None)
      ensures this.jailName == jailName && this.name == name && this.host == host
      ensures this.user == user && this.password == password
      ensures fromName == sendername && fromAddr == sender && toAddr == dest
      ensures this.matches == matches
    {
      this.jailName := jailName;
      this.name := name;
      this.host := host;
      this.user := user;
      this.password := password;
      this.fromName := sendername;
      this.fromAddr := sender;
      this.toAddr := dest;
      this.matches := matches;
    }

    /** The delivery settings of this action. */
    function Config(): Settings
    {
      Settings(host, user, password, fromName, fromAddr, toAddr)
    }

    /** The message `_sendMessage` builds before it opens a session. */
    function MailOf(subject: string, text: string): Mail
    {
      Mail(subject, fromName, fromAddr, toAddr, text)
    }

    /** `_sendMessage`: one fresh session, connect, log in when both
        credentials are set, send to every recipient of `toAddr`, and always
        quit. It behaves as `Exchange` specifies: quit is the last request on
        every path, a failing step ends the `try` block, is logged by the
        first matching handler and propagates, and only a disconnect raised by
        quit is swallowed. */
    method SendMessage(subject: string, text: string, relay: Relay) returns (run: Run)
      ensures run == Exchange(Config(), MailOf(subject, text), relay)
      ensures |run.calls| >= 2 && run.calls[0] == Command.Connect(host) && run.calls[|run.calls| - 1] == Command.Quit
    {
      var mail := MailOf(subject, text);
      var smtp := new Session(relay);
      var log: seq<LogEntry> := [];
      var outcome: Outcome := Returned;
      // try
      var failure: Option<Failure> := None;
      var refused: map<string, Refusal> := map[];
      ghost var plan := Plan(Config(), mail);
      ghost var progress := TryBlock(Config(), mail, relay);
      var reply := smtp.Connect(host);
      if reply.Raised? {
        failure := Some(reply.error);
        assert smtp.calls == plan[..1];
      } else {
        if Truthy(user) && Truthy(password) {
          reply := smtp.Login(user.value, password.value);
          if reply.Raised? {
            failure := Some(reply.error);
            assert smtp.calls == plan[..2];
          }
        }
        if failure.None? {
          var sent := smtp.SendMail(fromAddr, Recipients.Split(toAddr), mail);
          match sent {
            case Sent(r) => refused := r;
            case SendRaised(e) => failure := Some(e);
          }
          assert smtp.calls == plan[..|plan|];
        }
      }
      assert smtp.calls == plan[..progress.taken];
      assert failure.Some? <==> progress.end.Threw?;
      assert failure.Some? ==> progress.end.error == failure.value;
      assert failure.None? ==> progress.end.refused == refused;
      match failure {
        case Some(e) =>
          // except: the first clause the error is an instance of logs it; all re-raise
          var clause := FirstMatch(e.kind, Clauses);
          if clause.Some? {
            log := log + [ClauseLog(Config(), clause.value)];
          }
          outcome := Raising(e);
        case None =>
          // else
          if |refused| > 0 {
            log := log + [RecipientsRefused(toAddr, refused)];
          }
      }
      ghost var pending := outcome;
      assert log == Handle(Config(), progress.end);
      assert pending == match progress.end case Completed(_) => Returned case Threw(e) => Raising(e);
      // finally
      reply := smtp.Quit();
      if reply.Raised? && reply.error.kind != ServerDisconnected {
        outcome := Raising(reply.error);
      }
      assert outcome == Finally(pending, relay.quit);
      run := Run(smtp.calls, log, outcome);
    }

    /** `start`: the subject "[Fail2Ban] <jail>: started on <host>" and the
        start template with the jail's name, sent as `SendMessage` sends. */
    method Start(env: Environment, relay: Relay) returns (mail: Mail, run: Run)
      ensures mail.subject == "[Fail2Ban] " + jailName + ": started on " + env.hostname
      ensures mail.body == "Hi,\n\nThe jail " + jailName + " has been started successfully.\n\nRegards,\nFail2Ban"
      ensures mail == MailOf(mail.subject, mail.body)
      ensures run == Exchange(Config(), mail, relay)
    {
      StartText(jailName, env);
      var composed := ComposeStart(jailName, env).value;
      mail := MailOf(composed.subject, composed.body);
      run := SendMessage(composed.subject, composed.body, relay);
    }

    /** `stop`: the subject "[Fail2Ban] <jail>: stopped on <host>" and the
        stop template with the jail's name, sent as `SendMessage` sends. */
    method Stop(env: Environment, relay: Relay) returns (mail: Mail, run: Run)
      ensures mail.subject == "[Fail2Ban] " + jailName + ": stopped on " + env.hostname
      ensures mail.body == "Hi,\n\nThe jail " + jailName + " has been stopped.\n\nRegards,\nFail2Ban"
      ensures mail == MailOf(mail.subject, mail.body)
      ensures run == Exchange(Config(), mail, relay)
    {
      StopText(jailName, env);
      var composed := ComposeStop(jailName, env).value;
      mail := MailOf(composed.subject, composed.body);
      run := SendMessage(composed.subject, composed.body, relay);
    }

    /** `ban`: merge the context into the caller's dictionary, which keeps the
        change; then compose the subject and the body (head, the section this
        action's `matches` selects, tail) from it, and send them. A missing
        key or a non-integer count raises before any session is opened. */
    method Ban(aInfo: ActionInfo, env: Environment, relay: Relay) returns (d: Dispatch)
      modifies aInfo
      ensures aInfo.items.Keys == old(aInfo.items).Keys + ContextKeys
      ensures aInfo.items["jailname"] == Str(jailName)
      ensures aInfo.items["hostname"] == Str(env.hostname)
      ensures aInfo.items["bantime"] == Int(env.banTime)
      ensures forall key :: key in old(aInfo.items) && key !in ContextKeys ==> aInfo.items[key] == old(aInfo.items)[key]
      ensures match ComposeBan(aInfo.items, matches)
        case Err(e) => d == NotComposed(e)
        case Ok(c) => d == Dispatched(MailOf(c.subject, c.body), Exchange(Config(), MailOf(c.subject, c.body), relay))
    {
      aInfo.items := Update(aInfo.items, MessageValues(jailName, env));
      var composed := ComposeBan(aInfo.items, matches);
      match composed {
        case Err(e) =>
          d := NotComposed(e);
        case Ok(c) =>
          var run := SendMessage(c.subject, c.body, relay);
          d := Dispatched(MailOf(c.subject, c.body), run);
      }
    }
  }
}
