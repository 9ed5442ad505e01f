/**
 * General helpers of the relay: log formatting of users and channels, text
 * truncation, prefix-command parsing, the standard success and error
 * response records, and retry with exponential backoff.
 */
module Helpers {
  import opened Strings
  import opened JsValues
  import opened DiscordTypes

  /** `username#discriminator (id)`, the form users are logged in. */
  function FormatUser(user: User): (r: string)
    ensures |r| == |user.username| + |user.discriminator| + |user.id| + 4
    ensures r[..|user.username|] == user.username
    ensures r[|user.username|] == '#'
    ensures r[|user.username| + 1..|user.username| + 1 + |user.discriminator|] == user.discriminator
    ensures r[|r| - |user.id| - 3] == ' '
    ensures r[|r| - |user.id| - 2..] == "(" + user.id + ")"
  {
    user.username + "#" + user.discriminator + " (" + user.id + ")"
  }

  /** `#name (id)`; a channel without a name shows as `#undefined`. */
  function FormatChannel(channel: Channel): (r: string)
    ensures |r| == |ToJsString(OptString(channel.name))| + |channel.id| + 4
    ensures r[0] == '#'
    ensures r[1..|r| - |channel.id| - 3] == ToJsString(OptString(channel.name))
    ensures r[|r| - |channel.id| - 3] == ' '
    ensures r[|r| - |channel.id| - 2..] == "(" + channel.id + ")"
    ensures channel.name.Some? ==> r[1..|r| - |channel.id| - 3] == channel.name.value
    ensures channel.name == None ==> r[1..10] == "undefined"
  {
    "#" + ToJsString(OptString(channel.name)) + " (" + channel.id + ")"
  }

  /**
   * `truncateText(text, maxLength = 100)`: text that fits is returned as it
   * is; longer text is cut to `maxLength - 3` characters (through
   * `slice`, so a negative count is taken from the end) followed by "...".
   */
  function TruncateText(text: string, maxLength: int := 100): (r: string)
    ensures |text| <= maxLength ==> r == text
    ensures |text| > maxLength ==> |r| >= 3 && r[|r| - 3..] == "..." && r[..|r| - 3] <= text
    ensures |text| > maxLength && maxLength >= 3 ==> |r| == maxLength && r == text[..maxLength - 3] + "..."
    ensures |text| > maxLength && maxLength < 3 ==> |r| > maxLength
    ensures |text| > maxLength && maxLength < 3 ==>
              r == text[..if |text| + maxLength - 3 < 0 then 0 else |text| + maxLength - 3] + "..."
  {
    if |text| <= maxLength then text
    else
      var cut := SliceTo(text, maxLength - 3);
      assert cut <= text;
      cut + "..."
  }

  /** The result of `parseCommand`: the command word and its arguments. */
  datatype ParsedCommand = ParsedCommand(command: string, args: seq<string>)

  /**
   * `parseCommand(content, prefix = '!')`: `null` unless the content starts
   * with the prefix; otherwise the text after the prefix is trimmed and
   * split on runs of white space, the first piece lower-cased is the
   * command and the remaining pieces are the arguments.
   */
  function ParseCommand(content: string, prefix: string := "!"): (r: Option<ParsedCommand>)
    ensures r.None? <==> !StartsWith(content, prefix)
  {
    if !StartsWith(content, prefix) then None
    else
      var words := SplitWs(Trim(content[|prefix|..]));
      Some(ParsedCommand(ToLower(words[0]), words[1..]))
  }

  /**
   * What `parseCommand` extracts from the text after the prefix: the command
   * is the lower-cased first word, the arguments are the remaining words,
   * none empty and none holding white space, and nothing but white space is
   * lost.
   */
  lemma ParseCommandTokens(content: string, prefix: string)
    requires StartsWith(content, prefix)
    ensures var r := ParseCommand(content, prefix).value;
            var letters := RemoveWs(content[|prefix|..]);
            && HasNoWs(r.command)
            && (forall i :: 0 <= i < |r.command| ==> !IsUpper(r.command[i]))
            && (forall a :: a in r.args ==> a != "" && HasNoWs(a))
            && |r.command| <= |letters|
            && r.command == ToLower(letters[..|r.command|])
            && letters[|r.command|..] == Concat(r.args)
            && (r.command == "" ==> r.args == [])
  {
    var t := Trim(content[|prefix|..]);
    WordShapes(t);
    WordLetters(t);
  }

  /** The words of a trimmed text hold no white space; after the first, none is empty, and the first is empty only alone. */
  lemma WordShapes(t: string)
    requires t == [] || (!IsWs(t[0]) && !IsWs(t[|t| - 1]))
    ensures var words := SplitWs(t);
            && HasNoWs(ToLower(words[0]))
            && (forall i :: 0 <= i < |ToLower(words[0])| ==> !IsUpper(ToLower(words[0])[i]))
            && (forall a :: a in words[1..] ==> a != "" && HasNoWs(a))
            && (ToLower(words[0]) == "" ==> words[1..] == [])
  {
    var words := SplitWs(t);
    SplitWsNoWs(t);
    SplitWsTrimmed(t);
    assert words[0] in words;
    forall a | a in words[1..] ensures a in words {
    }
    var command := ToLower(words[0]);
    forall i | 0 <= i < |command| ensures !IsWs(command[i]) {
      assert !IsWs(words[0][i]);
    }
  }

  /** The lower-cased first word and the remaining words together spell the non-white-space characters. */
  lemma WordLetters(t: string)
    ensures var words := SplitWs(t);
            var letters := RemoveWs(t);
            && |words[0]| <= |letters|
            && ToLower(words[0]) == ToLower(letters[..|words[0]|])
            && letters[|words[0]|..] == Concat(words[1..])
  {
    var words := SplitWs(t);
    SplitWsConcat(t);
    assert Concat(words) == words[0] + Concat(words[1..]);
    assert RemoveWs(t)[..|words[0]|] == words[0];
  }

  /**
   * `parseCommand` on text laid out as words: when the text after the prefix
   * is optional white space, non-empty words without white space separated
   * by non-empty runs of white space, and optional white space, the command
   * is the first word lower-cased and the arguments are the other words,
   * exactly as typed and in order.
   */
  lemma ParseCommandWords(content: string, prefix: string, lead: string, words: seq<string>, seps: seq<string>, trail: string)
    requires StartsWith(content, prefix)
    requires AllWs(lead) && AllWs(trail)
    requires |words| == |seps| + 1
    requires forall i :: 0 <= i < |words| ==> words[i] != "" && HasNoWs(words[i])
    requires forall i :: 0 <= i < |seps| ==> seps[i] != "" && AllWs(seps[i])
    requires content[|prefix|..] == lead + Interleave(words, seps) + trail
    ensures ParseCommand(content, prefix) == Some(ParsedCommand(ToLower(words[0]), words[1..]))
  {
    var x := Interleave(words, seps);
    InterleaveEnds(words, seps);
    var last := words[|words| - 1];
    assert !IsWs(x[0]) by {
      assert x[0] == words[0][0];
    }
    assert !IsWs(x[|x| - 1]) by {
      assert x[|x| - 1] == last[|last| - 1];
    }
    TrimBetweenWs(lead, x, trail);
    SplitWsInterleave(words, seps);
  }

  /** After the prefix, nothing but white space gives the empty command with no arguments. */
  lemma ParseCommandBlank(content: string, prefix: string)
    requires StartsWith(content, prefix)
    requires AllWs(content[|prefix|..])
    ensures ParseCommand(content, prefix) == Some(ParsedCommand("", []))
  {
    TrimAllWs(content[|prefix|..]);
    assert SplitWs("") == [""];
    assert |ToLower("")| == 0;
  }

  /** `error.type`, `error.message` and `error.timestamp` of an error response. */
  datatype ErrorDetail = ErrorDetail(errorType: string, message: string, timestamp: string)

  /** The two response shapes: `{success: true, message, data, timestamp}` and `{success: false, error}`. */
  datatype Response =
    | SuccessResponse(message: string, data: JsValue, timestamp: string)
    | ErrorResponse(error: ErrorDetail)
  {
    predicate Success() {
      SuccessResponse?
    }
  }

  /** `createErrorResponse(message, type = 'error')`, stamped with the current time `now`. */
  function CreateErrorResponse(now: string, message: string, errorType: string := "error"): (r: Response)
    ensures !r.Success()
    ensures r.error.errorType == errorType && r.error.message == message && r.error.timestamp == now
  {
    ErrorResponse(ErrorDetail(errorType, message, now))
  }

  /** `createSuccessResponse(data, message = 'Success')`, stamped with the current time `now`. */
  function CreateSuccessResponse(now: string, data: JsValue, message: string := "Success"): (r: Response)
    ensures r.Success()
    ensures r.message == message && r.data == data && r.timestamp == now
  {
    SuccessResponse(message, data, now)
  }

  /** One call of a retried operation: it returns a value or throws an error with a message. */
  datatype Outcome<+T> = Ok(value: T) | Fail(error: string)

  function Pow2(i: nat): (p: nat)
    ensures p >= 1
  {
    if i == 0 then 1 else 2 * Pow2(i - 1)
  }

  /** The waits `baseDelay * 2^i` for i = 0 .. k-1, in order. */
  function BackoffDelays(baseDelay: nat, k: nat): (ds: seq<nat>)
    ensures |ds| == k
  {
    if k == 0 then [] else BackoffDelays(baseDelay, k - 1) + [baseDelay * Pow2(k - 1)]
  }

  /** The i-th wait, after failed attempt i, is `baseDelay * 2^i`. */
  lemma {:induction false} BackoffDelayAt(baseDelay: nat, k: nat, i: nat)
    requires i < k
    ensures BackoffDelays(baseDelay, k)[i] == baseDelay * Pow2(i)
  {
    if i < k - 1 {
      BackoffDelayAt(baseDelay, k - 1, i);
    }
  }

  function Sum(xs: seq<nat>): nat {
    if xs == [] then 0 else Sum(xs[..|xs| - 1]) + xs[|xs| - 1]
  }

  /**
   * The index of the attempt at which a retry loop started at attempt `i`
   * stops: the first success, or the last attempt allowed.
   */
  function StopIndex<T>(op: nat -> Outcome<T>, i: nat, maxRetries: nat): (k: nat)
    requires i <= maxRetries
    ensures i <= k <= maxRetries
    ensures forall j :: i <= j < k ==> op(j).Fail?
    ensures op(k).Ok? || k == maxRetries
    decreases maxRetries - i
  {
    if op(i).Ok? || i == maxRetries then i else StopIndex(op, i + 1, maxRetries)
  }

  /** How many times `retryWithBackoff` calls the operation. */
  function AttemptCount<T>(op: nat -> Outcome<T>, maxRetries: nat): nat {
    StopIndex(op, 0, maxRetries) + 1
  }

  /** What `retryWithBackoff` ends with: the last attempt's value, or its error rethrown. */
  function RetryResult<T>(op: nat -> Outcome<T>, maxRetries: nat): Outcome<T> {
    op(StopIndex(op, 0, maxRetries))
  }

  /**
   * `retryWithBackoff(fn, maxRetries = 3, baseDelay = 1000)`. The operation
   * is given by its outcome on each attempt, `op(i)` for attempt i
   * (0-based); the waits are recorded in `delays` instead of slept.
   * `calls` is the number of times the operation was invoked.
   */
  method RetryWithBackoff<T>(op: nat -> Outcome<T>, maxRetries: nat := 3, baseDelay: nat := 1000)
    returns (result: Outcome<T>, calls: nat, delays: seq<nat>)
    ensures 1 <= calls <= maxRetries + 1
    ensures forall i :: 0 <= i < calls - 1 ==> op(i).Fail?
    ensures result == op(calls - 1)
    ensures result.Fail? ==> calls == maxRetries + 1
    ensures delays == BackoffDelays(baseDelay, calls - 1)
    ensures calls == AttemptCount(op, maxRetries) && result == RetryResult(op, maxRetries)
  {
    var lastError := "";
    delays := [];
    var i: nat := 0;
    while i <= maxRetries
      invariant i <= maxRetries
      invariant forall j :: 0 <= j < i ==> op(j).Fail?
      invariant delays == BackoffDelays(baseDelay, i)
    {
      var attempt := op(i);
      if attempt.Ok? {
        result, calls := attempt, i + 1;
        UniqueStop(op, maxRetries, i);
        return;
      }
      lastError := attempt.error;
      if i == maxRetries {
        break;
      }
      delays := delays + [baseDelay * Pow2(i)];
      i := i + 1;
    }
    result, calls := Fail(lastError), maxRetries + 1;
    UniqueStop(op, maxRetries, maxRetries);
  }

  /** The attempt a retry loop stops at is determined by the outcomes before it. */
  lemma UniqueStop<T>(op: nat -> Outcome<T>, maxRetries: nat, k: nat)
    requires k <= maxRetries
    requires forall j :: 0 <= j < k ==> op(j).Fail?
    requires op(k).Ok? || k == maxRetries
    ensures StopIndex(op, 0, maxRetries) == k
  {
    StopFrom(op, 0, maxRetries, k);
  }

  lemma {:induction false} StopFrom<T>(op: nat -> Outcome<T>, i: nat, maxRetries: nat, k: nat)
    requires i <= k <= maxRetries
    requires forall j :: i <= j < k ==> op(j).Fail?
    requires op(k).Ok? || k == maxRetries
    ensures StopIndex(op, i, maxRetries) == k
    decreases k - i
  {
    if i < k {
      StopFrom(op, i + 1, maxRetries, k);
    }
  }

  /** Waiting `baseDelay * 2^i` after each of k failed attempts adds up to `baseDelay * (2^k - 1)`. */
  lemma {:induction false} BackoffTotal(baseDelay: nat, k: nat)
    ensures Sum(BackoffDelays(baseDelay, k)) == baseDelay * (Pow2(k) - 1)
  {
    if k > 0 {
      BackoffTotal(baseDelay, k - 1);
      SumStep(baseDelay, k);
      PowStep(baseDelay, k);
    }
  }

  /** The k-th wait adds `baseDelay * 2^(k-1)` to the total. */
  lemma SumStep(baseDelay: nat, k: nat)
    requires k > 0
    ensures Sum(BackoffDelays(baseDelay, k)) == Sum(BackoffDelays(baseDelay, k - 1)) + baseDelay * Pow2(k - 1)
  {
    var prev := BackoffDelays(baseDelay, k - 1);
    var x := baseDelay * Pow2(k - 1);
    assert BackoffDelays(baseDelay, k) == prev + [x];
    assert (prev + [x])[..|prev|] == prev;
  }

  /** `b * (2^(k-1) - 1) + b * 2^(k-1) == b * (2^k - 1)` */
  lemma PowStep(b: nat, k: nat)
    requires k > 0
    ensures b * (Pow2(k - 1) - 1) + b * Pow2(k - 1) == b * (Pow2(k) - 1)
  {
    var p := Pow2(k - 1);
    assert Pow2(k) == 2 * p;
    Distribute(b, p);
  }

  lemma Distribute(b: nat, p: nat)
    requires p >= 1
    ensures b * (p - 1) + b * p == b * (2 * p - 1)
  {
  }

  /**
   * An operation that fails on its first k attempts (k at most maxRetries)
   * and then succeeds is called exactly k + 1 times, yields that success,
   * and is waited on for `baseDelay * (2^k - 1)` in all.
   */
  lemma RetryAfterFailures<T>(op: nat -> Outcome<T>, maxRetries: nat, baseDelay: nat, k: nat)
    requires k <= maxRetries
    requires forall j :: 0 <= j < k ==> op(j).Fail?
    requires op(k).Ok?
    ensures AttemptCount(op, maxRetries) == k + 1
    ensures RetryResult(op, maxRetries) == op(k)
    ensures Sum(BackoffDelays(baseDelay, AttemptCount(op, maxRetries) - 1)) == baseDelay * (Pow2(k) - 1)
  {
    UniqueStop(op, maxRetries, k);
    BackoffTotal(baseDelay, k);
  }

  /**
   * An operation that never succeeds is called maxRetries + 1 times and the
   * error of the last attempt is the one rethrown.
   */
  lemma RetryExhausted<T>(op: nat -> Outcome<T>, maxRetries: nat)
    requires forall j :: 0 <= j <= maxRetries ==> op(j).Fail?
    ensures AttemptCount(op, maxRetries) == maxRetries + 1
    ensures RetryResult(op, maxRetries) == Fail(op(maxRetries).error)
  {
    UniqueStop(op, maxRetries, maxRetries);
  }
}
