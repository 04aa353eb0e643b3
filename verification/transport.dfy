/**
 * The delivery of one notification, as `_sendMessage` drives an smtplib
 * session: connect, log in only when both credentials are set, send to every
 * recipient, and quit in a `finally` clause. The relay is abstract: each step
 * either succeeds or raises a tagged error, and the model states which steps
 * are taken, in which order, what is logged and how the call ends.
 */
module Transport {
  import opened Wrappers
  import Recipients

  // ---------------------------------------------------------------------
  // Errors

  /** The exceptions a step can raise, as the handlers tell them apart:
      smtplib's SMTPConnectError, SMTPAuthenticationError and
      SMTPServerDisconnected, any other SMTPException, and exceptions outside
      that family (a socket error, for one). */
  datatype ErrorKind =
    | ConnectError
    | AuthenticationError
    | ServerDisconnected
    | OtherSmtpError
    | NotSmtpError

  /** One raised exception; `detail` stands for everything else it carries,
      so that "the same exception" can be told from "an exception of the same
      class". */
  datatype Failure = Failure(kind: ErrorKind, detail: string)

  /** The classes that the `except` clauses of `_sendMessage` name, in order. */
  datatype ExceptClass = SMTPConnectError | SMTPAuthenticationError | SMTPException

  /** Python's `isinstance`: the two specific errors and the disconnect are
      subclasses of SMTPException, so one error can match several clauses. */
  predicate IsInstance(kind: ErrorKind, cls: ExceptClass)
  {
    match cls
    case SMTPConnectError => kind == ConnectError
    case SMTPAuthenticationError => kind == AuthenticationError
    case SMTPException => kind != NotSmtpError
  }

  const Clauses: seq<ExceptClass> := [SMTPConnectError, SMTPAuthenticationError, SMTPException]

  /** The clause that handles an exception: the first one it is an instance of. */
  function FirstMatch(kind: ErrorKind, clauses: seq<ExceptClass>): (r: Option<ExceptClass>)
    ensures r.Some? ==> IsInstance(kind, r.value) && r.value in clauses
    ensures r.Some? ==> exists k :: 0 <= k < |clauses| && clauses[k] == r.value &&
                          forall j :: 0 <= j < k ==> !IsInstance(kind, clauses[j])
    ensures r.None? <==> forall j :: 0 <= j < |clauses| ==> !IsInstance(kind, clauses[j])
  {
    if clauses == [] then None
    else if IsInstance(kind, clauses[0]) then Some(clauses[0])
    else
      var r := FirstMatch(kind, clauses[1..]);
      assert r.Some? ==> exists k :: 1 <= k < |clauses| && clauses[k] == r.value &&
                           forall j :: 0 <= j < k ==> !IsInstance(kind, clauses[j]) by {
        if r.Some? {
          var k :| 0 <= k < |clauses[1..]| && clauses[1..][k] == r.value &&
                   forall j :: 0 <= j < k ==> !IsInstance(kind, clauses[1..][j]);
          assert forall j :: 0 <= j < k + 1 ==> !IsInstance(kind, clauses[j]) by {
            forall j | 0 <= j < k + 1 ensures !IsInstance(kind, clauses[j]) {
              if j > 0 { assert clauses[j] == clauses[1..][j - 1]; }
            }
          }
        }
      }
      assert r.None? ==> forall j :: 0 <= j < |clauses| ==> !IsInstance(kind, clauses[j]) by {
        if r.None? {
          forall j | 0 <= j < |clauses| ensures !IsInstance(kind, clauses[j]) {
            if j > 0 { assert clauses[j] == clauses[1..][j - 1]; }
          }
        }
      }
      assert r.Some? ==> r.value in clauses by {
        if r.Some? { assert r.value in clauses[1..]; }
      }
      r
  }

  // ---------------------------------------------------------------------
  // The relay, the message and the session

  /** A recipient the relay refused, with its reply code and text. */
  datatype Refusal = Refusal(code: int, text: string)

  /** What the relay answers to connect, login and quit. */
  datatype StepReply = Accepted | Raised(error: Failure)

  /** What the relay answers to sendmail: the recipients it refused (a
      refusal of some recipients is not an error), or an exception. */
  datatype SendReply = Sent(refused: map<string, Refusal>) | SendRaised(error: Failure)

  /** How the relay answers each step of one session. */
  datatype Relay = Relay(connect: StepReply, login: StepReply, sendmail: SendReply, quit: StepReply)

  /** The message handed to sendmail: its Subject, From (display name and
      address) and To headers and its text. */
  datatype Mail = Mail(subject: string, fromName: string, fromAddr: string, to: string, body: string)

  /** The requests a session makes of the relay. */
  datatype Command =
    | Connect(host: string)
    | Login(user: string, password: string)
    | SendMail(fromAddr: string, recipients: seq<string>, mail: Mail)
    | Quit

  /** The error and warning lines `_sendMessage` logs, without their text. */
  datatype LogEntry =
    | ConnectFailed(host: string)
    | AuthFailed(host: string, user: Option<string>)
    | SendFailed(host: string, fromAddr: string, toAddr: string)
    | RecipientsRefused(toAddr: string, refused: map<string, Refusal>)

  /** How a call ends: a normal return, or an exception propagating. */
  datatype Outcome = Returned | Raising(error: Failure)

  /** Everything a call does that the caller or the relay can observe. */
  datatype Run = Run(calls: seq<Command>, log: seq<LogEntry>, outcome: Outcome)

  /** The delivery settings of the action. */
  datatype Settings = Settings(
    host: string, user: Option<string>, password: Option<string>,
    fromName: string, fromAddr: string, toAddr: string)

  /** Python truthiness of an optional string: neither None nor empty. */
  predicate Truthy(o: Option<string>)
  {
    o.Some? && o.value != ""
  }

  /** `if self.user and self.password` */
  predicate WantsLogin(cfg: Settings)
  {
    Truthy(cfg.user) && Truthy(cfg.password)
  }

  /** A session with the relay, the stand-in for one `smtplib.SMTP` object: it
      records every request made of it and answers as `relay` does. */
  class Session {
    const relay: Relay
    var calls: seq<Command>

    constructor (relay: Relay)
      ensures this.relay == relay && calls == []
    {
      this.relay := relay;
      calls := [];
    }

    method Connect(host: string) returns (reply: StepReply)
      modifies this
      ensures calls == old(calls) + [Command.Connect(host)] && reply == relay.connect
    {
      calls := calls + [Command.Connect(host)];
      reply := relay.connect;
    }

    method Login(user: string, password: string) returns (reply: StepReply)
      modifies this
      ensures calls == old(calls) + [Command.Login(user, password)] && reply == relay.login
    {
      calls := calls + [Command.Login(user, password)];
      reply := relay.login;
    }

    method SendMail(fromAddr: string, recipients: seq<string>, mail: Mail) returns (reply: SendReply)
      modifies this
      ensures calls == old(calls) + [Command.SendMail(fromAddr, recipients, mail)] && reply == relay.sendmail
    {
      calls := calls + [Command.SendMail(fromAddr, recipients, mail)];
      reply := relay.sendmail;
    }

    method Quit() returns (reply: StepReply)
      modifies this
      ensures calls == old(calls) + [Command.Quit] && reply == relay.quit
    {
      calls := calls + [Command.Quit];
      reply := relay.quit;
    }
  }

  // ---------------------------------------------------------------------
  // The protocol

  /** The requests of the `try` block when every one succeeds, in order. */
  function Plan(cfg: Settings, mail: Mail): (p: seq<Command>)
    ensures |p| == if WantsLogin(cfg) then 3 else 2
    ensures p[0] == Connect(cfg.host) && p[|p| - 1] == SendMail(cfg.fromAddr, Recipients.Split(cfg.toAddr), mail)
    ensures forall k :: 0 <= k < |p| ==> p[k] != Quit
  {
    [Connect(cfg.host)]
    + (if WantsLogin(cfg) then [Login(cfg.user.value, cfg.password.value)] else [])
    + [SendMail(cfg.fromAddr, Recipients.Split(cfg.toAddr), mail)]
  }

  /** How the `try` block ends: sendmail returned its refusals, or a step raised. */
  datatype BlockEnd = Completed(refused: map<string, Refusal>) | Threw(error: Failure)

  /** The `try` block: how many requests of the plan it made, and how it ended. */
  datatype Progress = Progress(taken: nat, end: BlockEnd)

  function TryBlock(cfg: Settings, mail: Mail, relay: Relay): (p: Progress)
    ensures 1 <= p.taken <= |Plan(cfg, mail)|
    ensures relay.connect.Raised? ==> p == Progress(1, Threw(relay.connect.error))
    ensures relay.connect.Accepted? && WantsLogin(cfg) && relay.login.Raised? ==>
      p == Progress(2, Threw(relay.login.error))
    ensures p.taken == |Plan(cfg, mail)| <==> relay.connect.Accepted? && (!WantsLogin(cfg) || relay.login.Accepted?)
    ensures p.end.Completed? <==> p.taken == |Plan(cfg, mail)| && relay.sendmail.Sent?
    ensures relay.connect.Accepted? && (!WantsLogin(cfg) || relay.login.Accepted?) ==>
      p.end == match relay.sendmail case Sent(r) => Completed(r) case SendRaised(e) => Threw(e)
  {
    if relay.connect.Raised? then Progress(1, Threw(relay.connect.error))
    else if WantsLogin(cfg) && relay.login.Raised? then Progress(2, Threw(relay.login.error))
    else match relay.sendmail
      case Sent(refused) => Progress(|Plan(cfg, mail)|, Completed(refused))
      case SendRaised(e) => Progress(|Plan(cfg, mail)|, Threw(e))
  }

  /** The line the body of an `except` clause logs before it re-raises. */
  function ClauseLog(cfg: Settings, cls: ExceptClass): LogEntry
  {
    match cls
    case SMTPConnectError => ConnectFailed(cfg.host)
    case SMTPAuthenticationError => AuthFailed(cfg.host, cfg.user)
    case SMTPException => SendFailed(cfg.host, cfg.fromAddr, cfg.toAddr)
  }

  /** The `except` clauses and the `else` clause. */
  function Handle(cfg: Settings, end: BlockEnd): (log: seq<LogEntry>)
    ensures |log| <= 1
    ensures end.Threw? ==> (log == [] <==> end.error.kind == NotSmtpError)
    ensures end.Completed? ==> (log == [] <==> |end.refused| == 0)
  {
    match end
    case Threw(e) =>
      (match FirstMatch(e.kind, Clauses)
       case None => []
       case Some(cls) => [ClauseLog(cfg, cls)])
    case Completed(refused) =>
      if |refused| > 0 then [RecipientsRefused(cfg.toAddr, refused)] else []
  }

  /** The `finally` clause: a disconnect raised by quit is swallowed, any
      other exception from quit replaces the outcome. */
  function Finally(pending: Outcome, quit: StepReply): (r: Outcome)
    ensures quit.Accepted? || quit.error.kind == ServerDisconnected ==> r == pending
    ensures quit.Raised? && quit.error.kind != ServerDisconnected ==> r == Raising(quit.error)
  {
    if quit.Raised? && quit.error.kind != ServerDisconnected then Raising(quit.error) else pending
  }

  /** What `_sendMessage` does against `relay`: it opens with connect, ends
      with quit, logs at most one line, and returns normally exactly when the
      `try` block completed and quit did not fail other than by a disconnect. */
  function Exchange(cfg: Settings, mail: Mail, relay: Relay): (r: Run)
    ensures |r.calls| >= 2 && r.calls[0] == Connect(cfg.host) && r.calls[|r.calls| - 1] == Quit
    ensures |r.log| <= 1
    ensures r.outcome == Returned <==>
      TryBlock(cfg, mail, relay).end.Completed? && (relay.quit.Accepted? || relay.quit.error.kind == ServerDisconnected)
  {
    var p := TryBlock(cfg, mail, relay);
    var pending := match p.end case Completed(_) => Returned case Threw(e) => Raising(e);
    Run(Plan(cfg, mail)[..p.taken] + [Quit], Handle(cfg, p.end), Finally(pending, relay.quit))
  }

  // ---------------------------------------------------------------------
  // Properties of the protocol

  /** Quit is requested exactly once, as the last request, on every path. */
  lemma QuitOnceAndLast(cfg: Settings, mail: Mail, relay: Relay)
    ensures var calls := Exchange(cfg, mail, relay).calls;
      |calls| >= 2 && calls[|calls| - 1] == Quit &&
      forall k :: 0 <= k < |calls| - 1 ==> calls[k] != Quit
  {
    var calls := Exchange(cfg, mail, relay).calls;
    var p := TryBlock(cfg, mail, relay);
    var plan := Plan(cfg, mail);
    assert forall k :: 0 <= k < |plan| ==> plan[k] != Quit;
    assert forall k :: 0 <= k < |calls| - 1 ==> calls[k] == plan[k];
  }

  /** The requests made are the plan up to the step that raised (or all of
      it), then quit: connect first, login before sendmail. */
  lemma StepsInOrder(cfg: Settings, mail: Mail, relay: Relay)
    ensures exists n :: (1 <= n <= |Plan(cfg, mail)| &&
      Exchange(cfg, mail, relay).calls == Plan(cfg, mail)[..n] + [Quit])
    ensures Exchange(cfg, mail, relay).calls[0] == Connect(cfg.host)
    ensures relay.connect.Raised? ==> Exchange(cfg, mail, relay).calls == [Connect(cfg.host), Quit]
    ensures relay.connect.Accepted? && WantsLogin(cfg) && relay.login.Raised? ==>
      Exchange(cfg, mail, relay).calls == [Connect(cfg.host), Login(cfg.user.value, cfg.password.value), Quit]
    ensures (exists k :: 0 <= k < |Exchange(cfg, mail, relay).calls| && Exchange(cfg, mail, relay).calls[k].SendMail?)
      <==> relay.connect.Accepted? && (!WantsLogin(cfg) || relay.login.Accepted?)
  {
    var calls := Exchange(cfg, mail, relay).calls;
    var plan := Plan(cfg, mail);
    var p := TryBlock(cfg, mail, relay);
    assert calls == plan[..p.taken] + [Quit];
    if relay.connect.Accepted? && (!WantsLogin(cfg) || relay.login.Accepted?) {
      assert calls[|plan| - 1].SendMail?;
    } else {
      assert p.taken < |plan|;
      assert forall k :: 0 <= k < p.taken ==> !plan[k].SendMail?;
    }
  }

  /** Login is requested exactly when connect succeeded and both the user and
      the password are set and non-empty. */
  lemma LoginIff(cfg: Settings, mail: Mail, relay: Relay)
    ensures (exists k :: 0 <= k < |Exchange(cfg, mail, relay).calls| && Exchange(cfg, mail, relay).calls[k].Login?)
      <==> relay.connect.Accepted? && WantsLogin(cfg)
  {
    var calls := Exchange(cfg, mail, relay).calls;
    var plan := Plan(cfg, mail);
    var p := TryBlock(cfg, mail, relay);
    if relay.connect.Accepted? && WantsLogin(cfg) {
      assert calls[1].Login?;
    } else if relay.connect.Raised? {
      assert calls == [Connect(cfg.host), Quit];
    } else {
      assert calls == [Connect(cfg.host), SendMail(cfg.fromAddr, Recipients.Split(cfg.toAddr), mail), Quit];
    }
  }

  /** Without both credentials the relay's answer to login cannot matter: no
      authentication error can arise from login. */
  lemma NoCredentialsNoLogin(cfg: Settings, mail: Mail, relay: Relay, login: StepReply)
    requires !WantsLogin(cfg)
    ensures Exchange(cfg, mail, relay) == Exchange(cfg, mail, relay.(login := login))
  {
  }

  /** An error raised by connect, login or sendmail is never swallowed: the
      call raises it unchanged, unless quit then fails with something other
      than a disconnect, which then propagates instead. */
  lemma ErrorsPropagate(cfg: Settings, mail: Mail, relay: Relay)
    requires TryBlock(cfg, mail, relay).end.Threw?
    ensures Exchange(cfg, mail, relay).outcome.Raising?
    ensures relay.quit.Accepted? || relay.quit.error.kind == ServerDisconnected ==>
      Exchange(cfg, mail, relay).outcome == Raising(TryBlock(cfg, mail, relay).end.error)
  {
  }

  /** The error of the `try` block is logged once, by the first clause that
      names its class: a connect error as such, an authentication error as
      such, any other SMTP error (a disconnect included) as a send failure,
      and an error outside the SMTP family not at all. */
  lemma Classification(cfg: Settings, mail: Mail, relay: Relay)
    requires TryBlock(cfg, mail, relay).end.Threw?
    ensures var e := TryBlock(cfg, mail, relay).end.error;
      var log := Exchange(cfg, mail, relay).log;
      && (e.kind == ConnectError ==> log == [ConnectFailed(cfg.host)])
      && (e.kind == AuthenticationError ==> log == [AuthFailed(cfg.host, cfg.user)])
      && (e.kind in {ServerDisconnected, OtherSmtpError} ==> log == [SendFailed(cfg.host, cfg.fromAddr, cfg.toAddr)])
      && (e.kind == NotSmtpError ==> log == [])
  {
    var e := TryBlock(cfg, mail, relay).end.error;
    assert IsInstance(e.kind, Clauses[2]) ==> FirstMatch(e.kind, Clauses[2..]) == Some(SMTPException);
  }

  /** A relay that refuses some recipients but accepts the message yields one
      warning listing them, and the call returns normally unless quit fails
      with something other than a disconnect. */
  lemma RefusedRecipients(cfg: Settings, mail: Mail, relay: Relay)
    requires relay.connect.Accepted?
    requires !WantsLogin(cfg) || relay.login.Accepted?
    requires relay.sendmail.Sent?
    ensures var run := Exchange(cfg, mail, relay);
      && run.log == (if |relay.sendmail.refused| > 0
                     then [RecipientsRefused(cfg.toAddr, relay.sendmail.refused)] else [])
      && (relay.quit.Accepted? || relay.quit.error.kind == ServerDisconnected ==> run.outcome == Returned)
      && run.calls == Plan(cfg, mail) + [Quit]
  {
    assert Plan(cfg, mail)[..|Plan(cfg, mail)|] == Plan(cfg, mail);
  }

  /** A failure of quit other than a disconnect always propagates, whatever
      happened before. */
  lemma QuitFailurePropagates(cfg: Settings, mail: Mail, relay: Relay)
    requires relay.quit.Raised? && relay.quit.error.kind != ServerDisconnected
    ensures Exchange(cfg, mail, relay).outcome == Raising(relay.quit.error)
  {
  }

  /** The recipients handed to sendmail are the `dest` setting split on ", ",
      and joining them back gives the setting. */
  lemma SendRecipients(cfg: Settings, mail: Mail, relay: Relay)
    requires relay.connect.Accepted? && (!WantsLogin(cfg) || relay.login.Accepted?)
    ensures var calls := Exchange(cfg, mail, relay).calls;
      |calls| >= 2 && calls[|calls| - 2] == SendMail(cfg.fromAddr, Recipients.Split(cfg.toAddr), mail) &&
      Recipients.Join(calls[|calls| - 2].recipients) == cfg.toAddr
  {
    Recipients.JoinSplit(cfg.toAddr);
  }
}
