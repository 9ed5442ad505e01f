/**
 * The `/workflow` slash command: subcommand dispatch, the manual trigger
 * (a message sent to n8n as a 'slash' message with fixed command data, and
 * the reply chosen from the delivery result) and the uptime formatter.
 */
module Workflow {
  import opened Strings
  import opened JsValues
  import opened DiscordTypes
  import opened Helpers
  import opened N8n
  import opened InteractionCreate

  // ---------------------------------------------------------------------
  // Uptime
  // ---------------------------------------------------------------------

  /** JavaScript's `x % m` on numbers for a positive modulus: the quotient is truncated toward zero. */
  function JsRem(x: real, m: real): (r: real)
    requires m > 0.0
  {
    var q := x / m;
    var t := if q >= 0.0 then q.Floor else -((-q).Floor);
    x - m * (t as real)
  }

  /** Dividing a non-negative number by k and flooring is integer division of its floor. */
  lemma FloorDiv(y: real, k: nat)
    requires y >= 0.0 && k > 0
    ensures (y / (k as real)).Floor == y.Floor / k
  {
    var n := y.Floor;
    var q := n / k;
    assert q * k <= n < q * k + k;
    CastMul(q, k);
    CastMul(q + 1, k);
    DivBounds(q as real, y, k as real);
  }

  lemma CastMul(a: int, b: int)
    ensures (a * b) as real == (a as real) * (b as real)
  {
  }

  /** A number between a·k and (a + 1)·k, divided by k, lies between a and a + 1. */
  lemma DivBounds(a: real, y: real, k: real)
    requires k > 0.0 && a * k <= y < (a + 1.0) * k
    ensures a <= y / k < a + 1.0
  {
    var z := y / k;
    assert z * k == y;
    MulOrder(a, z, k);
    MulOrder(z, a + 1.0, k);
  }

  /** Multiplying by a positive number keeps the order. */
  lemma MulOrder(x: real, w: real, k: real)
    requires k > 0.0
    ensures x <= w <==> x * k <= w * k
    ensures x < w <==> x * k < w * k
  {
    assert w * k - x * k == (w - x) * k;
  }

  /** For a non-negative number the remainder is non-negative and its floor is the floor's remainder. */
  lemma FloorRem(x: real, m: nat)
    requires x >= 0.0 && m > 0
    ensures JsRem(x, m as real) >= 0.0
    ensures JsRem(x, m as real).Floor == x.Floor % m
  {
    FloorDiv(x, m);
    var t := x.Floor / m;
    assert JsRem(x, m as real) == x - (m as real) * (t as real);
    assert (m as real) * (t as real) == (m * t) as real;
    assert x.Floor == m * t + x.Floor % m;
  }

  /** For a negative number the remainder is not positive. */
  lemma NegativeRem(x: real, m: real)
    requires x < 0.0 && m > 0.0
    ensures JsRem(x, m) <= 0.0
  {
    var q := x / m;
    assert q < 0.0;
    var f := (-q).Floor;
    assert (f as real) <= -q;
    assert m * (f as real) <= m * (-q);
    assert m * (-q) == -x;
  }

  /** A duration split into whole days, hours, minutes and seconds. */
  datatype Uptime = Uptime(days: int, hours: int, minutes: int, secs: int)

  /** The calendar decomposition of a whole number of seconds. */
  function Decompose(n: nat): (u: Uptime)
    ensures u.days * 86400 + u.hours * 3600 + u.minutes * 60 + u.secs == n
    ensures 0 <= u.hours < 24 && 0 <= u.minutes < 60 && 0 <= u.secs < 60 && u.days >= 0
  {
    var u := Uptime(n / 86400, (n % 86400) / 3600, (n % 3600) / 60, n % 60);
    Regroup(n);
    u
  }

  /** Hours and minutes regroup the remainders modulo 86400 and 3600. */
  lemma Regroup(n: nat)
    ensures (n % 86400) / 3600 * 3600 + n % 3600 == n % 86400
    ensures (n % 3600) / 60 * 60 + n % 60 == n % 3600
    ensures (n % 86400) / 3600 < 24
  {
    RegroupHours(n);
    RegroupMinutes(n);
  }

  lemma RegroupHours(n: nat)
    ensures (n % 86400) / 3600 * 3600 + n % 3600 == n % 86400
    ensures (n % 86400) / 3600 < 24
  {
    var d, r := n / 86400, n % 86400;
    var h, e := r / 3600, r % 3600;
    assert n == (24 * d + h) * 3600 + e;
    DivModUnique(n, 3600, 24 * d + h, e);
  }

  lemma RegroupMinutes(n: nat)
    ensures (n % 3600) / 60 * 60 + n % 60 == n % 3600
  {
    var d, r := n / 3600, n % 3600;
    var h, e := r / 60, r % 60;
    assert n == (60 * d + h) * 60 + e;
    DivModUnique(n, 60, 60 * d + h, e);
  }

  /** Quotient and remainder are the only ones with the remainder in range. */
  lemma DivModUnique(n: int, m: int, q: int, r: int)
    requires m > 0 && 0 <= r < m && n == q * m + r
    ensures n / m == q && n % m == r
  {
    var q0, r0 := n / m, n % m;
    assert (q - q0) * m == r0 - r;
    SmallMultiple(q - q0, m);
  }

  /** The only multiple of m strictly between -m and m is zero. */
  lemma SmallMultiple(a: int, m: int)
    requires m > 0 && -m < a * m < m
    ensures a == 0
  {
  }

  /** The decomposition is the only one with hours, minutes and seconds in range. */
  lemma DecomposeUnique(n: nat, u: Uptime)
    requires u.days >= 0 && 0 <= u.hours < 24 && 0 <= u.minutes < 60 && 0 <= u.secs < 60
    requires u.days * 86400 + u.hours * 3600 + u.minutes * 60 + u.secs == n
    ensures u == Decompose(n)
  {
    var v := Decompose(n);
    var a := u.hours * 3600 + u.minutes * 60 + u.secs;
    var b := v.hours * 3600 + v.minutes * 60 + v.secs;
    assert 0 <= a < 86400 && 0 <= b < 86400;
    assert u.days == v.days;
    var a2 := u.minutes * 60 + u.secs;
    var b2 := v.minutes * 60 + v.secs;
    assert 0 <= a2 < 3600 && 0 <= b2 < 3600;
    assert u.hours == v.hours;
    assert u.minutes == v.minutes;
  }

  /** One pushed part, as `${value}` followed by its unit. */
  function Part(value: int, unit: char): string {
    IntToString(value) + [unit]
  }

  /** The non-zero components, largest unit first. */
  function Parts(u: Uptime): seq<string> {
    (if u.days > 0 then [Part(u.days, 'd')] else [])
    + (if u.hours > 0 then [Part(u.hours, 'h')] else [])
    + (if u.minutes > 0 then [Part(u.minutes, 'm')] else [])
    + (if u.secs > 0 then [Part(u.secs, 's')] else [])
  }

  /** `parts.join(' ') || '0s'` */
  function Render(u: Uptime): string {
    var joined := JoinWith(Parts(u), " ");
    if joined != "" then joined else "0s"
  }

  /** The four `Math.floor` components of `formatUptime`, with JavaScript's truncating remainder. */
  function Components(seconds: real): Uptime {
    Uptime((seconds / 86400.0).Floor, (JsRem(seconds, 86400.0) / 3600.0).Floor,
           (JsRem(seconds, 3600.0) / 60.0).Floor, JsRem(seconds, 60.0).Floor)
  }

  /** For a non-negative number of seconds the components are the calendar decomposition of its floor. */
  lemma ComponentsOfNonNegative(seconds: real)
    requires seconds >= 0.0
    ensures Components(seconds) == Decompose(seconds.Floor)
  {
    FloorDiv(seconds, 86400);
    FloorRem(seconds, 86400);
    FloorDiv(JsRem(seconds, 86400.0), 3600);
    FloorRem(seconds, 3600);
    FloorDiv(JsRem(seconds, 3600.0), 60);
    FloorRem(seconds, 60);
  }

  /** For a negative number of seconds no component is positive. */
  lemma ComponentsOfNegative(seconds: real)
    requires seconds < 0.0
    ensures Parts(Components(seconds)) == []
  {
    NegativeRem(seconds, 86400.0);
    NegativeRem(seconds, 3600.0);
    NegativeRem(seconds, 60.0);
  }

  /**
   * `formatUptime(seconds)`: the non-zero components are pushed in turn and
   * joined. A non-negative input is rendered by its calendar decomposition;
   * a negative one has no positive component and gives "0s".
   */
  method FormatUptime(seconds: real) returns (text: string)
    ensures seconds >= 0.0 ==> text == Render(Decompose(seconds.Floor))
    ensures seconds < 0.0 ==> text == "0s"
  {
    var u := Components(seconds);
    var parts: seq<string> := [];
    if u.days > 0 {
      parts := parts + [Part(u.days, 'd')];
    }
    if u.hours > 0 {
      parts := parts + [Part(u.hours, 'h')];
    }
    if u.minutes > 0 {
      parts := parts + [Part(u.minutes, 'm')];
    }
    if u.secs > 0 {
      parts := parts + [Part(u.secs, 's')];
    }
    assert parts == Parts(u);
    var joined := JoinWith(parts, " ");
    text := if joined != "" then joined else "0s";
    if seconds >= 0.0 {
      ComponentsOfNonNegative(seconds);
    } else {
      ComponentsOfNegative(seconds);
    }
  }

  /** The output is "0s" exactly when every component is zero. */
  lemma RenderZero(u: Uptime)
    requires u.days >= 0 && u.hours >= 0 && u.minutes >= 0 && u.secs >= 0
    ensures Render(u) == "0s" <==> u == Uptime(0, 0, 0, 0)
  {
    var parts := Parts(u);
    if parts != [] {
      PartsNoSpace(u);
      JoinNonEmpty(parts);
      SplitJoinWith(parts, ' ');
      SplitJoinWith(["0s"], ' ');
      assert "0s" !in parts;
    }
  }

  /** A joined list of non-empty parts is empty only when the list is. */
  lemma JoinNonEmpty(parts: seq<string>)
    requires parts != [] && parts[0] != ""
    ensures JoinWith(parts, " ") != ""
  {
    if |parts| > 1 {
      assert |JoinWith(parts, " ")| >= |parts[0]|;
    }
  }

  /** No part holds a space, and each ends in its unit letter. */
  lemma PartsNoSpace(u: Uptime)
    requires u.days >= 0 && u.hours >= 0 && u.minutes >= 0 && u.secs >= 0
    ensures forall p :: p in Parts(u) ==> p != "" && ' ' !in p && p != "0s"
  {
    forall v: int, unit: char | v > 0 ensures Part(v, unit) != "0s" {
      var p := Part(v, unit);
      assert p[..|p| - 1] == NatToString(v);
      ParseNatToString(v);
      assert ParseNat("0") == 0;
    }
  }

  /**
   * The rendered uptime, split on spaces, lists exactly the non-zero
   * components in the order days, hours, minutes, seconds, each in decimal
   * followed by its unit.
   */
  lemma RenderLists(u: Uptime)
    requires u.days >= 0 && u.hours >= 0 && u.minutes >= 0 && u.secs >= 0
    requires u != Uptime(0, 0, 0, 0)
    ensures SplitOn(Render(u), ' ') == Parts(u)
  {
    PartsNoSpace(u);
    JoinNonEmpty(Parts(u));
    SplitJoinWith(Parts(u), ' ');
  }

  // ---------------------------------------------------------------------
  // Dispatch
  // ---------------------------------------------------------------------

  /** The handler a subcommand is dispatched to. */
  datatype Handler = Test | Trigger | Status | Unknown

  /** The `switch (subcommand)` of `execute`. */
  function Dispatch(subcommand: string): (h: Handler)
    ensures h == Unknown <==> subcommand !in {"test", "trigger", "status"}
    ensures h == Trigger <==> subcommand == "trigger"
  {
    match subcommand
    case "test" => Test
    case "trigger" => Trigger
    case "status" => Status
    case _ => Unknown
  }

  const UnknownSubcommand := "❌ Unknown subcommand"

  // ---------------------------------------------------------------------
  // Manual trigger
  // ---------------------------------------------------------------------

  /** The fixed command data of a manual trigger. */
  function TriggerCommandData(message: string): (d: JsValue)
    ensures d.Obj? && d.fields.Keys == {"name", "subcommand", "message", "type"}
    ensures d.fields["name"] == Str("workflow") && d.fields["subcommand"] == Str("trigger")
    ensures d.fields["message"] == Str(message) && d.fields["type"] == Str("manual")
  {
    Obj(map["name" := Str("workflow"), "subcommand" := Str("trigger"), "message" := Str(message),
            "type" := Str("manual")])
  }

  /**
   * The mock message of a manual trigger: id `manual-trigger-<millis>`,
   * the given text as content, created now, and the interaction's user,
   * member, channel and guild.
   */
  function MockMessage(interaction: Interaction, message: string, now: string, millis: nat): (m: Message)
    ensures m.content == message && m.createdAt == Some(now)
    ensures m.author == interaction.user && m.channel == interaction.channel
    ensures m.member == interaction.member && m.guild == interaction.guild
    ensures StartsWith(m.id, "manual-trigger-")
    ensures AllDigits(m.id[15..]) && ParseNat(m.id[15..]) == millis
  {
    ParseNatToString(millis);
    assert ("manual-trigger-" + NatToString(millis))[15..] == NatToString(millis);
    Message("manual-trigger-" + NatToString(millis), message, Some(now), interaction.user, interaction.member,
            interaction.channel, interaction.guild)
  }

  const SentHeading := "✅ **Message Sent to n8n Successfully**\n\n"
  const AlsoSent := "\n\n✅ Also sent to secondary webhook"
  const SecondaryFailed := "\n\n⚠️ Secondary webhook failed"
  const FailedHeading := "❌ **Failed to Send Message to n8n**\n\n"
  const FailedAdvice := "\n\nPlease check your n8n webhook configuration."

  /** The success reply before any secondary line. */
  function SentReply(message: string): string {
    SentHeading + "Your message has been sent to the n8n workflow.\n\n" + "**Message:** \"" + message + "\""
  }

  /** `result.error?.message || 'Unknown error'` for a response. */
  function ErrorText(response: Response): string {
    if response.ErrorResponse? && response.error.message != "" then response.error.message else "Unknown error"
  }

  /** `result.primary?.error?.message || 'Unknown error'` */
  function PrimaryError(outcome: ProcessOutcome): string {
    if outcome.Routed? then ErrorText(outcome.primary) else "Unknown error"
  }

  /** The reply `handleTrigger` edits in, chosen from the result of `processMessage`. */
  function TriggerReply(outcome: ProcessOutcome, message: string): (r: string)
    ensures r != [] && (r[0] == '✅' <==> outcome.Routed? && outcome.primary.Success())
    ensures outcome.Routed? && outcome.primary.Success() ==> StartsWith(r, SentHeading)
    ensures !(outcome.Routed? && outcome.primary.Success()) ==> StartsWith(r, FailedHeading)
  {
    if outcome.Routed? && outcome.primary.Success() then
      var r := SentReply(message)
        + (if outcome.secondary.Some? && outcome.secondary.value.Success() then AlsoSent
           else if outcome.secondary.Some? then SecondaryFailed
           else "");
      assert r[..|SentHeading|] == SentHeading && r[0] == SentHeading[0] == '✅';
      r
    else
      var r := FailedHeading + "Error: " + PrimaryError(outcome) + FailedAdvice;
      assert r[..|FailedHeading|] == FailedHeading && r[0] == FailedHeading[0] == '❌';
      r
  }


  /**
   * After a successful primary delivery the reply is the success text, with
   * a secondary line only when a secondary result exists: "Also sent" when
   * it succeeded and "failed" when it did not. Otherwise the reply is the
   * failure text naming the primary error.
   */
  lemma TriggerReplyLines(outcome: ProcessOutcome, message: string)
    ensures var reply := TriggerReply(outcome, message);
            && (outcome.Routed? && outcome.primary.Success() ==>
                  && StartsWith(reply, SentReply(message))
                  && (outcome.secondary.None? ==> reply == SentReply(message))
                  && (outcome.secondary.Some? && outcome.secondary.value.Success() ==>
                        reply == SentReply(message) + AlsoSent)
                  && (outcome.secondary.Some? && !outcome.secondary.value.Success() ==>
                        reply == SentReply(message) + SecondaryFailed))
            && (!(outcome.Routed? && outcome.primary.Success()) ==> StartsWith(reply, FailedHeading))
  {
  }

  /**
   * `handleTrigger(interaction)`: the mock message is forwarded as a
   * 'slash' message with the manual-trigger command data, and the reply is
   * chosen from the result.
   */
  method HandleTrigger(interaction: Interaction, message: string, service: N8nService, server: Server, now: string,
                       millis: nat)
    returns (sent: seq<Request>, reply: string)
    ensures sent == service.ProcessRequests(MockMessage(interaction, message, now, millis), "slash",
                                            TriggerCommandData(message), server)
    ensures reply == TriggerReply(service.ProcessResult(MockMessage(interaction, message, now, millis), "slash",
                                                        TriggerCommandData(message), server, now), message)
  {
    var mockMessage := Message("manual-trigger-" + NatToString(millis), message, Some(now), interaction.user,
                               interaction.member, interaction.channel, interaction.guild);
    var commandData := Obj(map["name" := Str("workflow"), "subcommand" := Str("trigger"),
                               "message" := Str(message), "type" := Str("manual")]);
    var outcome, requests, _ := service.ProcessMessage(mockMessage, "slash", commandData, server, now);
    sent := requests;
    if outcome.Routed? && outcome.primary.Success() {
      reply := SentReply(message);
      if outcome.secondary.Some? && outcome.secondary.value.Success() {
        reply := reply + AlsoSent;
      } else if outcome.secondary.Some? {
        reply := reply + SecondaryFailed;
      }
    } else {
      reply := FailedHeading + "Error: " + PrimaryError(outcome) + FailedAdvice;
    }
  }

  /**
   * A manual trigger is always routed (its date is valid) and, carrying
   * command data, also goes to the secondary webhook exactly when one is
   * configured; the secondary line then appears in a success reply.
   */
  lemma TriggerRouting(interaction: Interaction, message: string, service: N8nService, server: Server, now: string,
                       millis: nat)
    ensures var outcome := service.ProcessResult(MockMessage(interaction, message, now, millis), "slash",
                                                 TriggerCommandData(message), server, now);
            && outcome.Routed?
            && (outcome.secondary.Some? <==> IsSet(service.config.secondaryWebhook))
  {
    service.ProcessRouting(MockMessage(interaction, message, now, millis), "slash", TriggerCommandData(message),
                           server, now);
  }

  // ---------------------------------------------------------------------
  // Webhook test
  // ---------------------------------------------------------------------

  const TestOkText := "✅ **n8n Webhook Test Successful**\n\n"
    + "The connection to your n8n webhook is working properly. "
    + "Messages will be successfully sent to your n8n workflows."
  const TestFailedHeading := "❌ **n8n Webhook Test Failed**\n\n"
  const TestFailedAdvice := "\n\nPlease check your n8n webhook configuration and ensure the webhook URL is accessible."
  const TestErrorText := "❌ **n8n Webhook Test Error**\n\n"
    + "An unexpected error occurred while testing the webhook connection. "
    + "Please check the bot logs for more details."

  /**
   * The reply `handleTest` edits in, chosen from how `testWebhook` ended:
   * the success text for a successful response, the failure text naming
   * the error for an error response, and the error text when it threw.
   */
  function TestReply(c: Completion<Response>): (r: string)
    ensures r != [] && (r[0] == '✅' <==> c.Normal? && c.value.Success())
    ensures c.Normal? && c.value.Success() ==> r == TestOkText
    ensures c.Normal? && !c.value.Success() ==>
              && StartsWith(r, TestFailedHeading + "Error: ")
              && |r| == |TestFailedHeading| + 7 + |ErrorText(c.value)| + |TestFailedAdvice|
              && r[|TestFailedHeading| + 7..|r| - |TestFailedAdvice|] == ErrorText(c.value)
    ensures c.Threw? ==> r == TestErrorText
  {
    if c.Threw? then TestErrorText
    else if c.value.Success() then TestOkText
    else
      var r := TestFailedHeading + "Error: " + ErrorText(c.value) + TestFailedAdvice;
      assert r[..|TestFailedHeading| + 7] == TestFailedHeading + "Error: ";
      assert r[0] == TestFailedHeading[0] == '❌';
      r
  }

  /**
   * `handleTest(interaction)`: the primary webhook is tested and the reply
   * is chosen from the result.
   */
  method HandleTest(service: N8nService, server: Server, now: string)
    returns (sent: seq<Request>, reply: string)
    ensures var request := service.PrimaryRequest(TestPayload(now));
            sent == Repeat(request, AttemptCount(server(request), MaxRetries))
    ensures var request := service.PrimaryRequest(TestPayload(now));
            reply == TestReply(Normal(Delivered(now, server(request), PrimaryOk, PrimaryFailPrefix)))
  {
    var c, requests, _ := service.TestWebhook(server, now);
    sent := requests;
    if c.Threw? {
      reply := TestErrorText;
    } else if c.value.Success() {
      reply := TestOkText;
    } else {
      reply := TestFailedHeading + "Error: " + ErrorText(c.value) + TestFailedAdvice;
    }
  }

  /**
   * The test reply is the success text exactly when one of the four
   * attempts succeeds; otherwise it names the last attempt's error after
   * the delivery's failure prefix. `testWebhook` never throws, so the
   * unexpected-error text is never the reply.
   */
  lemma TestReplyOutcome(replies: nat -> Outcome<JsValue>, now: string)
    ensures var reply := TestReply(Normal(Delivered(now, replies, PrimaryOk, PrimaryFailPrefix)));
            && ((exists i :: 0 <= i <= MaxRetries && replies(i).Ok?) ==> reply == TestOkText)
            && (!(exists i :: 0 <= i <= MaxRetries && replies(i).Ok?) ==>
                  reply == TestFailedHeading + "Error: " + PrimaryFailPrefix + replies(MaxRetries).error
                           + TestFailedAdvice)
            && reply != TestErrorText
  {
    var response := Delivered(now, replies, PrimaryOk, PrimaryFailPrefix);
    DeliveredOutcome(now, replies, PrimaryOk, PrimaryFailPrefix);
    if !response.Success() {
      assert ErrorText(response) == PrimaryFailPrefix + replies(MaxRetries).error;
    }
  }

  /** What `execute` does for a subcommand: the handler reached and, for the test and trigger, requests and reply. */
  datatype WorkflowResult =
    | Replied(content: string)
    | Tested(sent: seq<Request>, reply: string)
    | Triggered(sent: seq<Request>, reply: string)
    | Delegated(handler: Handler)

  /**
   * `execute(interaction)` for the subcommand `subcommand`. An unknown
   * subcommand is answered with the unknown-subcommand reply; 'trigger'
   * runs the manual trigger with the string option `message`; 'test' runs
   * the webhook test; 'status' is handed to its handler.
   */
  method Execute(subcommand: string, interaction: Interaction, message: string, service: N8nService, server: Server,
                 now: string, millis: nat)
    returns (result: WorkflowResult)
    ensures subcommand !in {"test", "trigger", "status"} ==> result == Replied(UnknownSubcommand)
    ensures subcommand == "trigger" ==>
              var mock := MockMessage(interaction, message, now, millis);
              result == Triggered(service.ProcessRequests(mock, "slash", TriggerCommandData(message), server),
                                  TriggerReply(service.ProcessResult(mock, "slash", TriggerCommandData(message),
                                                                     server, now), message))
    ensures subcommand == "test" ==>
              var replies := server(service.PrimaryRequest(TestPayload(now)));
              result == Tested(Repeat(service.PrimaryRequest(TestPayload(now)), AttemptCount(replies, MaxRetries)),
                               TestReply(Normal(Delivered(now, replies, PrimaryOk, PrimaryFailPrefix))))
    ensures subcommand == "status" ==> result == Delegated(Status)
  {
    match Dispatch(subcommand) {
      case Test =>
        var sent, reply := HandleTest(service, server, now);
        result := Tested(sent, reply);
      case Trigger =>
        var sent, reply := HandleTrigger(interaction, message, service, server, now, millis);
        result := Triggered(sent, reply);
      case Status => result := Delegated(Status);
      case Unknown => result := Replied(UnknownSubcommand);
    }
  }
}
