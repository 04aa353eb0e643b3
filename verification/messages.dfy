/**
 * Composition of the three notifications of the smtp action: the module-level
 * `messages` table, the subject formats of `start`, `stop` and `ban`, the
 * action's context values and the merge that `ban` performs on the caller's
 * event information.
 */
module Messages {
  import opened Wrappers
  import opened Templates

  // ---------------------------------------------------------------------
  // The template table

  /** `messages['start']` */
  const StartTemplate: Template :=
    [Lit("Hi,\n\nThe jail "), Field("jailname", AsString),
     Lit(" has been started successfully.\n\nRegards,\nFail2Ban")]

  /** `messages['stop']` */
  const StopTemplate: Template :=
    [Lit("Hi,\n\nThe jail "), Field("jailname", AsString),
     Lit(" has been stopped.\n\nRegards,\nFail2Ban")]

  /** `messages['ban']['head']` */
  const BanHead: Template :=
    [Lit("Hi,\n\nThe IP "), Field("ip", AsString),
     Lit(" has just been banned for "), Field("bantime", AsInteger),
     Lit(" seconds\nby Fail2Ban after "), Field("failures", AsInteger),
     Lit(" attempts against "), Field("jailname", AsString), Lit(".\n")]

  /** `messages['ban']['tail']` */
  const BanTail: Template := [Lit("\nRegards,\nFail2Ban")]

  /** `messages['ban']['matches']` */
  const MatchesSection: Template :=
    [Lit("\nMatches for this ban:\n"), Field("matches", AsString), Lit("\n")]

  /** `messages['ban']['ipmatches']` */
  const IpMatchesSection: Template :=
    [Lit("\nMatches for "), Field("ip", AsString), Lit(":\n"),
     Field("ipmatches", AsString), Lit("\n")]

  /** `messages['ban']['ipjailmatches']` */
  const IpJailMatchesSection: Template :=
    [Lit("\nMatches for "), Field("ip", AsString), Lit(" for jail "),
     Field("jailname", AsString), Lit(":\n"), Field("ipjailmatches", AsString), Lit("\n")]

  /** `messages['ban']`: the head, the tail and the three match sections, all
      under string keys of one dictionary. */
  const BanTable: map<string, Template> :=
    map["head" := BanHead, "tail" := BanTail, "matches" := MatchesSection,
        "ipmatches" := IpMatchesSection, "ipjailmatches" := IpJailMatchesSection]

  /** The subject formats of `start`, `stop` and `ban`. */
  const StartSubject: Template :=
    [Lit("[Fail2Ban] "), Field("jailname", AsString), Lit(": started on "), Field("hostname", AsString)]

  const StopSubject: Template :=
    [Lit("[Fail2Ban] "), Field("jailname", AsString), Lit(": stopped on "), Field("hostname", AsString)]

  const BanSubject: Template :=
    [Lit("[Fail2Ban] "), Field("jailname", AsString), Lit(": banned "), Field("ip", AsString),
     Lit(" from "), Field("hostname", AsString)]

  /** `messages['ban'].get(matches, "")`: the middle part of a ban body. The
      setting `None` and every string that is not a key of the table select
      nothing; the keys "head" and "tail" select those templates again. */
  function MatchSection(matches: Option<string>): (t: Template)
    ensures matches == Some("matches") ==> t == MatchesSection
    ensures matches == Some("ipmatches") ==> t == IpMatchesSection
    ensures matches == Some("ipjailmatches") ==> t == IpJailMatchesSection
    ensures matches == Some("head") ==> t == BanHead
    ensures matches == Some("tail") ==> t == BanTail
    ensures t == [] <==>
      matches.None? || matches.value !in {"head", "tail", "matches", "ipmatches", "ipjailmatches"}
  {
    if matches.Some? && matches.value in BanTable then BanTable[matches.value] else []
  }

  /** The ban body before formatting: head, then the selected section, then tail. */
  function BanTemplate(matches: Option<string>): (t: Template)
    ensures |t| == |BanHead| + |MatchSection(matches)| + |BanTail|
    ensures forall p :: p in t <==> p in BanHead || p in MatchSection(matches) || p in BanTail
  {
    BanHead + MatchSection(matches) + BanTail
  }

  // ---------------------------------------------------------------------
  // Context values

  /** What the two resolvers of the action's context answer at one
      composition: the host's name and the jail's ban time at that moment. */
  datatype Environment = Environment(hostname: string, banTime: int)

  /** The keys of the action's context values. */
  const ContextKeys: set<string> := {"jailname", "hostname", "bantime"}

  /** The action's context values as one composition reads them: the jail's
      name, fixed when the action is built, and the host name and ban time,
      resolved anew from `env` at every composition. */
  function MessageValues(jailName: string, env: Environment): (values: map<string, Value>)
    ensures values.Keys == ContextKeys
    ensures values["jailname"] == Str(jailName) && values["hostname"] == Str(env.hostname)
    ensures values["bantime"] == Int(env.banTime)
  {
    map["jailname" := Str(jailName), "hostname" := Str(env.hostname), "bantime" := Int(env.banTime)]
  }

  /** `info.update(values)`: every key of `values` takes its value from
      `values`, every other key of `info` keeps its own, and nothing else is
      added. */
  function Update(info: map<string, Value>, values: map<string, Value>): (r: map<string, Value>)
    ensures r.Keys == info.Keys + values.Keys
    ensures forall key :: key in values ==> r[key] == values[key]
    ensures forall key :: key in info && key !in values ==> r[key] == info[key]
  {
    info + values
  }

  // ---------------------------------------------------------------------
  // Composition

  datatype Composed = Composed(subject: string, body: string)

  /** Fill a subject and a body template from one map, the subject first,
      as the arguments of `_sendMessage` are evaluated. */
  function Compose(subject: Template, body: Template, values: map<string, Value>): (r: Result<Composed>)
    ensures r.Ok? <==> Resolvable(subject, values) && Resolvable(body, values)
    ensures r.Ok? ==> Ok(r.value.subject) == Render(subject, values)
    ensures r.Ok? ==> Ok(r.value.body) == Render(body, values)
    ensures !Resolvable(subject, values) ==> r == Err(Render(subject, values).error)
    ensures Resolvable(subject, values) && !Resolvable(body, values) ==> r == Err(Render(body, values).error)
  {
    var s := Render(subject, values);
    if s.Err? then Err(s.error)
    else
      var b := Render(body, values);
      if b.Err? then Err(b.error) else Ok(Composed(s.value, b.value))
  }

  /** The notification `start` sends; the context fills it whatever the jail
      and host are called, so `start` never raises a formatting error. */
  function ComposeStart(jailName: string, env: Environment): (r: Result<Composed>)
    ensures r.Ok?
  {
    LifecycleText(jailName, env.hostname, ": started on ", " has been started successfully.\n\nRegards,\nFail2Ban",
                  MessageValues(jailName, env));
    Compose(StartSubject, StartTemplate, MessageValues(jailName, env))
  }

  /** The notification `stop` sends; like `start`, it always composes. */
  function ComposeStop(jailName: string, env: Environment): (r: Result<Composed>)
    ensures r.Ok?
  {
    LifecycleText(jailName, env.hostname, ": stopped on ", " has been stopped.\n\nRegards,\nFail2Ban",
                  MessageValues(jailName, env));
    Compose(StopSubject, StopTemplate, MessageValues(jailName, env))
  }

  /** The notification `ban` sends, from the already merged event information.
      It composes exactly when the subject, the head and the selected section
      can be filled; the tail is plain text. */
  function ComposeBan(info: map<string, Value>, matches: Option<string>): (r: Result<Composed>)
    ensures r.Ok? <==>
      Resolvable(BanSubject, info) && Resolvable(BanHead, info) && Resolvable(MatchSection(matches), info)
  {
    assert forall p :: p in BanTail ==> p.Lit?;
    Compose(BanSubject, BanTemplate(matches), info)
  }

  // ---------------------------------------------------------------------
  // Properties

  /** The keys each template of the table fills from the message map, and
      which of them must hold integers: only the ban time and the failure
      count of the head are written with `%i`. */
  lemma TemplateKeys()
    ensures Keys(StartTemplate) == Keys(StopTemplate) == {"jailname"}
    ensures Keys(BanHead) == {"ip", "bantime", "failures", "jailname"}
    ensures Keys(BanTail) == {}
    ensures Keys(MatchesSection) == {"matches"}
    ensures Keys(IpMatchesSection) == {"ip", "ipmatches"}
    ensures Keys(IpJailMatchesSection) == {"ip", "jailname", "ipjailmatches"}
    ensures BanTable.Keys == {"head", "tail", "matches", "ipmatches", "ipjailmatches"}
    ensures forall p :: p in BanHead && p.Field? ==> (p.conv == AsInteger <==> p.key in {"bantime", "failures"})
    ensures OnlyStrings(StartTemplate) && OnlyStrings(StopTemplate) && OnlyStrings(BanTail)
    ensures OnlyStrings(MatchesSection) && OnlyStrings(IpMatchesSection) && OnlyStrings(IpJailMatchesSection)
  {
    LifecycleKeys();
    HeadKeys();
    SectionKeys();
    assert forall p :: p in BanTail ==> p.Lit?;
  }

  /** Every placeholder of `t` is written with `%s`. */
  predicate OnlyStrings(t: Template)
  {
    forall p :: p in t && p.Field? ==> p.conv == AsString
  }

  lemma LifecycleKeys()
    ensures Keys(StartTemplate) == {"jailname"} && Keys(StopTemplate) == {"jailname"}
    ensures OnlyStrings(StartTemplate) && OnlyStrings(StopTemplate)
  {
    assert StartTemplate[1] in StartTemplate && StopTemplate[1] in StopTemplate;
  }

  lemma HeadKeys()
    ensures Keys(BanHead) == {"ip", "bantime", "failures", "jailname"}
    ensures forall p :: p in BanHead && p.Field? ==> (p.conv == AsInteger <==> p.key in {"bantime", "failures"})
  {
    assert BanHead[1] in BanHead && BanHead[3] in BanHead && BanHead[5] in BanHead && BanHead[7] in BanHead;
  }

  lemma SectionKeys()
    ensures Keys(MatchesSection) == {"matches"}
    ensures Keys(IpMatchesSection) == {"ip", "ipmatches"}
    ensures Keys(IpJailMatchesSection) == {"ip", "jailname", "ipjailmatches"}
    ensures OnlyStrings(MatchesSection) && OnlyStrings(IpMatchesSection) && OnlyStrings(IpJailMatchesSection)
  {
    assert MatchesSection[1] in MatchesSection;
    assert IpMatchesSection[1] in IpMatchesSection && IpMatchesSection[3] in IpMatchesSection;
    assert IpJailMatchesSection[1] in IpJailMatchesSection && IpJailMatchesSection[3] in IpJailMatchesSection
      && IpJailMatchesSection[5] in IpJailMatchesSection;
  }

  /** `start` always composes, with the fixed subject format and the start
      template holding the jail's name. */
  lemma StartText(jailName: string, env: Environment)
    ensures ComposeStart(jailName, env) ==
      Ok(Composed("[Fail2Ban] " + jailName + ": started on " + env.hostname,
                  "Hi,\n\nThe jail " + jailName + " has been started successfully.\n\nRegards,\nFail2Ban"))
  {
    var values := MessageValues(jailName, env);
    LifecycleText(jailName, env.hostname, ": started on ", " has been started successfully.\n\nRegards,\nFail2Ban", values);
  }

  /** `stop` always composes, with the fixed subject format and the stop
      template holding the jail's name. */
  lemma StopText(jailName: string, env: Environment)
    ensures ComposeStop(jailName, env) ==
      Ok(Composed("[Fail2Ban] " + jailName + ": stopped on " + env.hostname,
                  "Hi,\n\nThe jail " + jailName + " has been stopped.\n\nRegards,\nFail2Ban"))
  {
    var values := MessageValues(jailName, env);
    LifecycleText(jailName, env.hostname, ": stopped on ", " has been stopped.\n\nRegards,\nFail2Ban", values);
  }

  /** The subject and body shapes that `start` and `stop` share. */
  lemma LifecycleText(jailName: string, hostname: string, verb: string, rest: string, values: map<string, Value>)
    requires "jailname" in values && values["jailname"] == Str(jailName)
    requires "hostname" in values && values["hostname"] == Str(hostname)
    ensures Render([Lit("[Fail2Ban] "), Field("jailname", AsString), Lit(verb), Field("hostname", AsString)], values)
      == Ok("[Fail2Ban] " + jailName + verb + hostname)
    ensures Render([Lit("Hi,\n\nThe jail "), Field("jailname", AsString), Lit(rest)], values)
      == Ok("Hi,\n\nThe jail " + jailName + rest)
  {
    var subject := [Lit("[Fail2Ban] "), Field("jailname", AsString), Lit(verb), Field("hostname", AsString)];
    assert Render(subject[3..], values) == Ok(hostname) by {
      assert subject[3..][1..] == [];
      assert hostname + "" == hostname;
    }
    assert Render(subject[2..], values) == Ok(verb + hostname) by {
      assert subject[2..][1..] == subject[3..];
    }
    assert Render(subject[1..], values) == Ok(jailName + (verb + hostname)) by {
      assert subject[1..][1..] == subject[2..];
    }
    assert subject[1..] == subject[0..][1..];
    assert "[Fail2Ban] " + (jailName + (verb + hostname)) == "[Fail2Ban] " + jailName + verb + hostname;
    var body := [Lit("Hi,\n\nThe jail "), Field("jailname", AsString), Lit(rest)];
    assert Render(body[2..], values) == Ok(rest) by {
      assert body[2..][1..] == [];
      assert rest + "" == rest;
    }
    assert Render(body[1..], values) == Ok(jailName + rest) by {
      assert body[1..][1..] == body[2..];
    }
    assert "Hi,\n\nThe jail " + (jailName + rest) == "Hi,\n\nThe jail " + jailName + rest;
  }

  /** The ban body is exactly the rendered head, then the rendered section that
      `matches` selects (empty when it selects nothing), then the rendered tail. */
  lemma BanBodyParts(info: map<string, Value>, matches: Option<string>)
    requires ComposeBan(info, matches).Ok?
    ensures Render(BanHead, info).Ok? && Render(MatchSection(matches), info).Ok? && Render(BanTail, info).Ok?
    ensures ComposeBan(info, matches).value.body ==
      Render(BanHead, info).value + Render(MatchSection(matches), info).value + Render(BanTail, info).value
  {
    RenderAppend(BanHead + MatchSection(matches), BanTail, info);
    RenderAppend(BanHead, MatchSection(matches), info);
  }

  /** The ban head as the merged information fills it. */
  lemma BanHeadText(info: map<string, Value>, jailName: string, ip: string, banTime: int, failures: int)
    requires "jailname" in info && info["jailname"] == Str(jailName)
    requires "ip" in info && info["ip"] == Str(ip)
    requires "bantime" in info && info["bantime"] == Int(banTime)
    requires "failures" in info && info["failures"] == Int(failures)
    ensures Render(BanHead, info) ==
      Ok("Hi,\n\nThe IP " + ip + " has just been banned for " + Decimal(banTime) +
         " seconds\nby Fail2Ban after " + Decimal(failures) + " attempts against " + jailName + ".\n")
  {
    var parts := ["Hi,\n\nThe IP ", ip, " has just been banned for ", Decimal(banTime),
                  " seconds\nby Fail2Ban after ", Decimal(failures), " attempts against ", jailName, ".\n"];
    RenderChain(BanHead, parts, info);
    assert Concat(parts[..1]) == "Hi,\n\nThe IP " by { ConcatAt(parts, 1); assert "" + parts[0] == parts[0]; }
    assert Concat(parts[..2]) == "Hi,\n\nThe IP " + ip by { ConcatAt(parts, 2); }
    assert Concat(parts[..3]) == "Hi,\n\nThe IP " + ip + " has just been banned for " by { ConcatAt(parts, 3); }
    assert Concat(parts[..4]) == "Hi,\n\nThe IP " + ip + " has just been banned for " + Decimal(banTime) by { ConcatAt(parts, 4); }
    assert Concat(parts[..5]) == "Hi,\n\nThe IP " + ip + " has just been banned for " + Decimal(banTime) + " seconds\nby Fail2Ban after " by { ConcatAt(parts, 5); }
    assert Concat(parts[..6]) == "Hi,\n\nThe IP " + ip + " has just been banned for " + Decimal(banTime) + " seconds\nby Fail2Ban after " + Decimal(failures) by { ConcatAt(parts, 6); }
    assert Concat(parts[..7]) == "Hi,\n\nThe IP " + ip + " has just been banned for " + Decimal(banTime) + " seconds\nby Fail2Ban after " + Decimal(failures) + " attempts against " by { ConcatAt(parts, 7); }
    assert Concat(parts[..8]) == "Hi,\n\nThe IP " + ip + " has just been banned for " + Decimal(banTime) + " seconds\nby Fail2Ban after " + Decimal(failures) + " attempts against " + jailName by { ConcatAt(parts, 8); }
    assert Concat(parts[..9]) == "Hi,\n\nThe IP " + ip + " has just been banned for " + Decimal(banTime) + " seconds\nby Fail2Ban after " + Decimal(failures) + " attempts against " + jailName + ".\n" by { ConcatAt(parts, 9); }
    assert parts[..9] == parts;
  }

  /** The concatenation of a list of strings. */
  function Concat(parts: seq<string>): string
  {
    if parts == [] then "" else Concat(parts[..|parts| - 1]) + parts[|parts| - 1]
  }

  /** A template whose pieces render one by one to `parts` renders to their
      concatenation. */
  lemma {:induction false} RenderChain(t: Template, parts: seq<string>, values: map<string, Value>)
    requires |parts| == |t|
    requires forall k :: 0 <= k < |t| ==> RenderPiece(t[k], values) == Ok(parts[k])
    ensures Render(t, values) == Ok(Concat(parts))
  {
    if t != [] {
      var n := |t| - 1;
      RenderChain(t[..n], parts[..n], values);
      assert t == t[..n] + [t[n]];
      RenderAppend(t[..n], [t[n]], values);
      assert Render([t[n]], values) == Ok(parts[n] + "") by {
        assert [t[n]][1..] == [];
      }
      assert parts[n] + "" == parts[n];
      assert parts[..n] == parts[..|parts| - 1];
    }
  }

  lemma ConcatAt(parts: seq<string>, k: nat)
    requires 0 < k <= |parts|
    ensures Concat(parts[..k]) == Concat(parts[..k - 1]) + parts[k - 1]
  {
    assert parts[..k][..k - 1] == parts[..k - 1];
  }

  /** The ban subject has the fixed format, with the address from the event. */
  lemma BanSubjectText(info: map<string, Value>, jailName: string, ip: string, hostname: string)
    requires "jailname" in info && info["jailname"] == Str(jailName)
    requires "ip" in info && info["ip"] == Str(ip)
    requires "hostname" in info && info["hostname"] == Str(hostname)
    ensures Render(BanSubject, info) ==
      Ok("[Fail2Ban] " + jailName + ": banned " + ip + " from " + hostname)
  {
    var parts := ["[Fail2Ban] ", jailName, ": banned ", ip, " from ", hostname];
    RenderChain(BanSubject, parts, info);
    assert Concat(parts[..1]) == "[Fail2Ban] " by { ConcatAt(parts, 1); assert "" + parts[0] == parts[0]; }
    assert Concat(parts[..2]) == "[Fail2Ban] " + jailName by { ConcatAt(parts, 2); }
    assert Concat(parts[..3]) == "[Fail2Ban] " + jailName + ": banned " by { ConcatAt(parts, 3); }
    assert Concat(parts[..4]) == "[Fail2Ban] " + jailName + ": banned " + ip by { ConcatAt(parts, 4); }
    assert Concat(parts[..5]) == "[Fail2Ban] " + jailName + ": banned " + ip + " from " by { ConcatAt(parts, 5); }
    assert Concat(parts[..6]) == "[Fail2Ban] " + jailName + ": banned " + ip + " from " + hostname by { ConcatAt(parts, 6); }
    assert parts[..6] == parts;
  }

  /** Composing a ban succeeds exactly when the caller's event information
      holds an address and an integer failure count, and, when a match
      section is selected, the match lines it shows. The context supplies the
      jail name, host name and ban time whatever the caller passed. */
  lemma BanComposesIff(aInfo: map<string, Value>, jailName: string, env: Environment, matches: Option<string>)
    ensures ComposeBan(Update(aInfo, MessageValues(jailName, env)), matches).Ok? <==>
      && "ip" in aInfo && "failures" in aInfo && aInfo["failures"].Int?
      && (matches == Some("matches") ==> "matches" in aInfo)
      && (matches == Some("ipmatches") ==> "ipmatches" in aInfo)
      && (matches == Some("ipjailmatches") ==> "ipjailmatches" in aInfo)
  {
    var info := Update(aInfo, MessageValues(jailName, env));
    MergedKeys(aInfo, jailName, env);
    SubjectResolvable(info);
    HeadResolvable(info);
    var headOk := "ip" in aInfo && "failures" in aInfo && aInfo["failures"].Int?;
    assert Resolvable(BanSubject, info) && Resolvable(BanHead, info) <==> headOk;
    if headOk {
      SectionResolvable(info, matches);
    }
  }

  /** What the merge leaves in the map: the context keys, with the ban time an
      integer, and the event's own keys exactly as the caller had them. */
  lemma MergedKeys(aInfo: map<string, Value>, jailName: string, env: Environment)
    ensures var info := Update(aInfo, MessageValues(jailName, env));
      && "jailname" in info && "hostname" in info && "bantime" in info && info["bantime"].Int?
      && ("ip" in info <==> "ip" in aInfo)
      && ("failures" in info <==> "failures" in aInfo)
      && ("failures" in aInfo ==> info["failures"] == aInfo["failures"])
      && ("matches" in info <==> "matches" in aInfo)
      && ("ipmatches" in info <==> "ipmatches" in aInfo)
      && ("ipjailmatches" in info <==> "ipjailmatches" in aInfo)
  {
  }

  lemma HeadResolvable(info: map<string, Value>)
    ensures Resolvable(BanHead, info) <==>
      && "ip" in info && "jailname" in info
      && "bantime" in info && info["bantime"].Int? && "failures" in info && info["failures"].Int?
  {
    assert BanHead[1] in BanHead && BanHead[3] in BanHead && BanHead[5] in BanHead && BanHead[7] in BanHead;
  }

  lemma SubjectResolvable(info: map<string, Value>)
    ensures Resolvable(BanSubject, info) <==> "ip" in info && "jailname" in info && "hostname" in info
  {
    assert BanSubject[1] in BanSubject && BanSubject[3] in BanSubject && BanSubject[5] in BanSubject;
  }

  lemma SectionResolvable(info: map<string, Value>, matches: Option<string>)
    requires "ip" in info && "jailname" in info
    requires "bantime" in info && info["bantime"].Int? && "failures" in info && info["failures"].Int?
    ensures Resolvable(MatchSection(matches), info) <==>
      && (matches == Some("matches") ==> "matches" in info)
      && (matches == Some("ipmatches") ==> "ipmatches" in info)
      && (matches == Some("ipjailmatches") ==> "ipjailmatches" in info)
  {
    if matches == Some("matches") {
      assert MatchesSection[1] in MatchesSection;
    } else if matches == Some("ipmatches") {
      assert IpMatchesSection[3] in IpMatchesSection;
    } else if matches == Some("ipjailmatches") {
      assert IpJailMatchesSection[5] in IpJailMatchesSection;
    } else if matches == Some("head") {
      HeadResolvable(info);
    }
  }

  /** With no match section the ban notification is the fixed subject and
      the head followed by the tail, filled from the merged information. */
  lemma BanWithoutMatchesText(info: map<string, Value>, jailName: string, hostname: string,
                              ip: string, banTime: int, failures: int)
    requires "jailname" in info && info["jailname"] == Str(jailName)
    requires "hostname" in info && info["hostname"] == Str(hostname)
    requires "ip" in info && info["ip"] == Str(ip)
    requires "bantime" in info && info["bantime"] == Int(banTime)
    requires "failures" in info && info["failures"] == Int(failures)
    ensures ComposeBan(info, None) ==
      Ok(Composed("[Fail2Ban] " + jailName + ": banned " + ip + " from " + hostname,
                  "Hi,\n\nThe IP " + ip + " has just been banned for " + Decimal(banTime) +
                  " seconds\nby Fail2Ban after " + Decimal(failures) + " attempts against " + jailName + ".\n" +
                  "\nRegards,\nFail2Ban"))
  {
    var tail := "\nRegards,\nFail2Ban";
    BanSubjectText(info, jailName, ip, hostname);
    BanHeadText(info, jailName, ip, banTime, failures);
    assert Render(BanTail, info) == Ok(tail) by {
      assert BanTail[1..] == [];
      assert tail + "" == tail;
    }
    assert BanTemplate(None) == BanHead + BanTail;
    RenderAppend(BanHead, BanTail, info);
  }

  /** The notification for an event with address 10.0.0.5 and 3 failures,
      while the jail's ban time is 600 seconds and no match section is
      configured. */
  lemma BanExample(jailName: string, hostname: string)
    ensures ComposeBan(Update(map["ip" := Str("10.0.0.5"), "failures" := Int(3)],
                              MessageValues(jailName, Environment(hostname, 600))), None) ==
      Ok(Composed("[Fail2Ban] " + jailName + ": banned " + "10.0.0.5" + " from " + hostname,
                  "Hi,\n\nThe IP " + "10.0.0.5" + " has just been banned for " + "600" +
                  " seconds\nby Fail2Ban after " + "3" + " attempts against " + jailName + ".\n" +
                  "\nRegards,\nFail2Ban"))
  {
    var info := Update(map["ip" := Str("10.0.0.5"), "failures" := Int(3)],
                       MessageValues(jailName, Environment(hostname, 600)));
    assert Decimal(600) == "600" by {
      assert Digits(6) == "6";
      assert Digits(60) == "60";
    }
    assert Decimal(3) == "3";
    BanWithoutMatchesText(info, jailName, hostname, "10.0.0.5", 600, 3);
  }

  /** Merging the context a second time changes nothing, so a second `ban` on
      the same, already updated dictionary composes the same notification. */
  lemma BanRecomposes(aInfo: map<string, Value>, jailName: string, env: Environment, matches: Option<string>)
    ensures var info := Update(aInfo, MessageValues(jailName, env));
      Update(info, MessageValues(jailName, env)) == info &&
      ComposeBan(Update(info, MessageValues(jailName, env)), matches) == ComposeBan(info, matches)
  {
  }
}
