/**
 * Input validation: the shape of a Discord bot token and of a snowflake id,
 * sanitising of user text, and the structural check a webhook payload must
 * pass before it is sent. URL validation (the WHATWG URL parser) is not part
 * of this module: its callers receive it as a predicate parameter.
 */
module Validators {
  import opened Strings
  import opened JsValues

  /** The characters of `[A-Za-z0-9_-]`. */
  predicate IsTokenChar(c: char) {
    ('A' <= c <= 'Z') || ('a' <= c <= 'z') || IsDigit(c) || c == '_' || c == '-'
  }

  predicate AllTokenChars(s: string) {
    forall k :: 0 <= k < |s| ==> IsTokenChar(s[k])
  }

  /**
   * `validateBotToken(token)`: falsy and non-string tokens are refused;
   * a string must be three `.`-separated segments over `[A-Za-z0-9_-]` of
   * 23 to 28, exactly 6, and at least 27 characters.
   */
  predicate ValidateBotToken(token: JsValue)
    ensures ValidateBotToken(token) ==> token.Str? && token.s != ""
  {
    if !Truthy(token) || !token.Str? then false
    else
      var parts := SplitOn(token.s, '.');
      && |parts| == 3
      && 23 <= |parts[0]| <= 28 && |parts[1]| == 6 && |parts[2]| >= 27
      && AllTokenChars(parts[0]) && AllTokenChars(parts[1]) && AllTokenChars(parts[2])
  }

  /**
   * The token pattern `^[A-Za-z0-9_-]{23,28}\.[A-Za-z0-9_-]{6}\.[A-Za-z0-9_-]{27,}$`
   * stated by positions: dots at i and i + 7, every other character a token
   * character.
   */
  ghost predicate MatchesTokenPattern(s: string) {
    exists i :: 23 <= i <= 28 && TokenShapeAt(s, i)
  }

  /** Dots at i and i + 7, at least 27 characters after the second, token characters elsewhere. */
  predicate TokenShapeAt(s: string, i: nat) {
    && i + 35 <= |s|
    && s[i] == '.' && s[i + 7] == '.'
    && (forall k :: 0 <= k < |s| && k != i && k != i + 7 ==> IsTokenChar(s[k]))
  }

  /** The token check accepts a string exactly when the string matches the token pattern. */
  lemma BotTokenMatchesPattern(s: string)
    ensures ValidateBotToken(Str(s)) <==> MatchesTokenPattern(s)
  {
    if ValidateBotToken(Str(s)) {
      AcceptedTokenMatches(s);
    }
    if MatchesTokenPattern(s) {
      var i :| 23 <= i <= 28 && TokenShapeAt(s, i);
      MatchingTokenAccepted(s, i);
    }
  }

  /** An accepted token has the pattern's shape, its dots after the first segment and six more characters. */
  lemma AcceptedTokenMatches(s: string)
    requires ValidateBotToken(Str(s))
    ensures MatchesTokenPattern(s)
  {
    var parts := SplitOn(s, '.');
    var a, b, c := parts[0], parts[1], parts[2];
    assert s == a + "." + b + "." + c by {
      JoinSplitOn(s, '.');
      assert parts[1..] == [b, c];
      assert parts[1..][1..] == [c];
      assert JoinWith([c], ".") == c;
      assert JoinWith([b, c], ".") == b + "." + c;
    }
    var i := |a|;
    forall k | 0 <= k < |s| && k != i && k != i + 7 ensures IsTokenChar(s[k]) {
      if k < i {
        assert s[k] == a[k];
      } else if k < i + 7 {
        assert s[k] == b[k - i - 1];
      } else {
        assert s[k] == c[k - i - 8];
      }
    }
    assert TokenShapeAt(s, i);
  }

  /** A string of the pattern's shape splits into three segments the check accepts. */
  lemma MatchingTokenAccepted(s: string, i: nat)
    requires 23 <= i <= 28 && TokenShapeAt(s, i)
    ensures ValidateBotToken(Str(s))
  {
    var a, b, c := s[..i], s[i + 1..i + 7], s[i + 8..];
    forall k | 0 <= k < |a| ensures IsTokenChar(a[k]) {
      assert a[k] == s[k];
    }
    forall k | 0 <= k < |b| ensures IsTokenChar(b[k]) {
      assert b[k] == s[k + i + 1];
    }
    forall k | 0 <= k < |c| ensures IsTokenChar(c[k]) {
      assert c[k] == s[k + i + 8];
    }
    assert s == a + "." + b + "." + c;
    assert SplitOn(s, '.') == [a, b, c] by {
      assert '.' !in a && '.' !in b && '.' !in c;
      assert [a, b, c][1..] == [b, c];
      assert [b, c][1..] == [c];
      assert JoinWith([c], ".") == c;
      assert JoinWith([b, c], ".") == b + "." + c;
      assert JoinWith([a, b, c], ".") == a + "." + b + "." + c;
      SplitJoinWith([a, b, c], '.');
    }
  }

  /**
   * `validateSnowflake(id)`: falsy and non-string ids are refused; a string
   * must be 17 to 19 decimal digits.
   */
  predicate ValidateSnowflake(id: JsValue)
    ensures ValidateSnowflake(id) <==> id.Str? && 17 <= |id.s| <= 19 && AllDigits(id.s)
  {
    if !Truthy(id) || !id.Str? then false
    else 17 <= |id.s| <= 19 && AllDigits(id.s)
  }

  function Pow10(d: nat): (p: nat)
    ensures p >= 1
  {
    if d == 0 then 1 else 10 * Pow10(d - 1)
  }

  lemma {:induction false} NatToStringLength(n: nat, d: nat)
    requires d >= 1
    ensures |NatToString(n)| <= d <==> n < Pow10(d)
    decreases n
  {
    if n >= 10 {
      if d == 1 {
        assert |NatToString(n)| >= 2 by {
          assert NatToString(n) == NatToString(n / 10) + [DigitChar(n % 10)];
        }
      } else {
        NatToStringLength(n / 10, d - 1);
        assert |NatToString(n)| == |NatToString(n / 10)| + 1;
        assert n / 10 < Pow10(d - 1) <==> n < Pow10(d);
      }
    }
  }

  /**
   * Rendered in decimal, an id passes the snowflake check exactly when it
   * has 17 to 19 digits, that is when 10^16 <= id < 10^19.
   */
  lemma SnowflakeOfId(n: nat)
    ensures ValidateSnowflake(Str(NatToString(n))) <==> Pow10(16) <= n < Pow10(19)
  {
    NatToStringLength(n, 16);
    NatToStringLength(n, 19);
  }

  /** `s.replace(/[...]/g, '')`: every character of the class removed. */
  function RemoveAll(s: string, bad: set<char>): (r: string)
    ensures |r| <= |s|
    ensures forall i :: 0 <= i < |r| ==> r[i] in s && r[i] !in bad
  {
    if s == [] then []
    else (if s[0] in bad then [] else [s[0]]) + RemoveAll(s[1..], bad)
  }

  /** Removal from two joined strings joins the two removals, so order and every kept character are preserved. */
  lemma {:induction false} RemoveAllAppend(a: string, b: string, bad: set<char>)
    ensures RemoveAll(a + b, bad) == RemoveAll(a, bad) + RemoveAll(b, bad)
    decreases |a|
  {
    if a == [] {
      assert a + b == b;
    } else {
      assert (a + b)[1..] == a[1..] + b;
      RemoveAllAppend(a[1..], b, bad);
    }
  }

  /** A single character is kept exactly when it is not in the class. */
  lemma RemoveAllChar(c: char, bad: set<char>)
    ensures RemoveAll([c], bad) == (if c in bad then [] else [c])
  {
    assert [c][1..] == [];
  }

  /** The maximal length `sanitizeInput` keeps, Discord's message limit. */
  const MessageLimit := 2000

  /**
   * `sanitizeInput(input)`: non-strings give the empty string; a string
   * loses every `<`, `>` and backtick, is trimmed, and is cut to 2000
   * characters.
   */
  function SanitizeInput(input: JsValue): (r: string)
    ensures !input.Str? ==> r == ""
    ensures '<' !in r && '>' !in r && '`' !in r
    ensures |r| <= MessageLimit
    ensures r == [] || !IsWs(r[0])
    ensures input.Str? ==> r <= Trim(RemoveAll(RemoveAll(input.s, {'<', '>'}), {'`'}))
    ensures input.Str? && |Trim(RemoveAll(RemoveAll(input.s, {'<', '>'}), {'`'}))| <= MessageLimit ==>
              r == Trim(RemoveAll(RemoveAll(input.s, {'<', '>'}), {'`'}))
    ensures input.Str? && |Trim(RemoveAll(RemoveAll(input.s, {'<', '>'}), {'`'}))| > MessageLimit ==>
              r == Trim(RemoveAll(RemoveAll(input.s, {'<', '>'}), {'`'}))[..MessageLimit]
  {
    if !input.Str? then ""
    else
      var t := Trim(RemoveAll(RemoveAll(input.s, {'<', '>'}), {'`'}));
      assert forall c :: c in t ==> c !in {'<', '>', '`'} by {
        forall c | c in t ensures c !in {'<', '>', '`'} {
          assert c in RemoveAll(RemoveAll(input.s, {'<', '>'}), {'`'}) by {
            TrimSubset(RemoveAll(RemoveAll(input.s, {'<', '>'}), {'`'}), c);
          }
        }
      }
      var r := SliceTo(t, MessageLimit);
      assert forall c :: c in r ==> c in t;
      r
  }

  lemma TrimSubset(s: string, c: char)
    requires c in Trim(s)
    ensures c in s
  {
    var t := TrimStart(s);
    var i :| 0 <= i < |Trim(s)| && Trim(s)[i] == c;
    assert Trim(s) == TrimEnd(t);
    assert TrimEnd(t)[i] == t[i];
    assert t[i] == s[|s| - |t| + i];
  }

  /**
   * `validateWebhookPayload(payload)`: the payload must be truthy, of
   * object type, and hold both keys `messageType` and `message` (their
   * values are not looked at). `null` and arrays are refused.
   */
  predicate ValidateWebhookPayload(payload: JsValue)
    ensures ValidateWebhookPayload(payload) <==>
              payload.Obj? && "messageType" in payload.fields && "message" in payload.fields
  {
    if !Truthy(payload) || !IsObjectType(payload) then false
    else HasKey(payload, "messageType") && HasKey(payload, "message")
  }
}
