/**
 * The JavaScript string primitives the relay relies on (`trim`, `split`,
 * `join`, `toLowerCase`, `startsWith`, `slice`, decimal conversion), written
 * over a fixed ASCII white-space set. Strings are sequences of UTF-16 code
 * units in JavaScript; here they are `seq<char>`.
 */
module Strings {

  /** The ASCII part of the set that both `\s` and `String.prototype.trim` treat as white space. */
  predicate IsWs(c: char) {
    c == ' ' || c == '\t' || c == '\n' || c == '\r' || c == '\U{B}' || c == '\U{C}'
  }

  predicate IsDigit(c: char) {
    '0' <= c <= '9'
  }

  predicate IsUpper(c: char) {
    'A' <= c <= 'Z'
  }

  predicate HasNoWs(s: string) {
    forall i :: 0 <= i < |s| ==> !IsWs(s[i])
  }

  predicate AllWs(s: string) {
    forall i :: 0 <= i < |s| ==> IsWs(s[i])
  }

  predicate AllDigits(s: string) {
    forall i :: 0 <= i < |s| ==> IsDigit(s[i])
  }

  /** `s.startsWith(p)` */
  predicate StartsWith(s: string, p: string) {
    |p| <= |s| && s[..|p|] == p
  }

  /** `c.toLowerCase()` on ASCII letters; other characters are unchanged. */
  function LowerChar(c: char): (d: char)
    ensures !IsUpper(d)
    ensures IsUpper(c) ==> d as int == c as int + 32
    ensures !IsUpper(c) ==> d == c
  {
    if IsUpper(c) then (c as int + 32) as char else c
  }

  /** `s.toLowerCase()` */
  function ToLower(s: string): (r: string)
    ensures |r| == |s|
    ensures forall i :: 0 <= i < |s| ==> r[i] == LowerChar(s[i])
  {
    seq(|s|, i requires 0 <= i < |s| => LowerChar(s[i]))
  }

  /** `s.trimStart()`: drops the leading run of white space. */
  function TrimStart(s: string): (r: string)
    ensures |r| <= |s| && r == s[|s| - |r|..]
    ensures r == [] || !IsWs(r[0])
    ensures forall i :: 0 <= i < |s| - |r| ==> IsWs(s[i])
    decreases |s|
  {
    if |s| > 0 && IsWs(s[0]) then TrimStart(s[1..]) else s
  }

  /** `s.trimEnd()`: drops the trailing run of white space. */
  function TrimEnd(s: string): (r: string)
    ensures |r| <= |s| && r == s[..|r|]
    ensures r == [] || !IsWs(r[|r| - 1])
    ensures forall i :: |r| <= i < |s| ==> IsWs(s[i])
    decreases |s|
  {
    if |s| > 0 && IsWs(s[|s| - 1]) then TrimEnd(s[..|s| - 1]) else s
  }

  /**
   * `s.trim()`: the part of `s` between its leading and its trailing run of
   * white space.
   */
  function Trim(s: string): (r: string)
    ensures |r| <= |s|
    ensures r == [] || (!IsWs(r[0]) && !IsWs(r[|r| - 1]))
    ensures RemoveWs(r) == RemoveWs(s)
  {
    var t := TrimStart(s);
    RemoveWsTrimStart(s);
    RemoveWsTrimEnd(t);
    TrimEnd(t)
  }

  /** The characters of `s` that are not white space, in order. */
  function RemoveWs(s: string): string {
    if s == [] then [] else (if IsWs(s[0]) then [] else [s[0]]) + RemoveWs(s[1..])
  }

  /** The concatenation of a list of strings. */
  function Concat(parts: seq<string>): string {
    if parts == [] then [] else parts[0] + Concat(parts[1..])
  }

  /** `parts.join(sep)` */
  function JoinWith(parts: seq<string>, sep: string): string {
    if |parts| == 0 then ""
    else if |parts| == 1 then parts[0]
    else parts[0] + sep + JoinWith(parts[1..], sep)
  }

  /** `s.split(sep)` for a one-character separator: the empty string gives `[""]`. */
  function SplitOn(s: string, sep: char): (parts: seq<string>)
    ensures |parts| >= 1
  {
    if |s| == 0 then [""]
    else
      var rest := SplitOn(s[1..], sep);
      if s[0] == sep then [""] + rest else [[s[0]] + rest[0]] + rest[1..]
  }

  /**
   * The text `words[0] + seps[0] + words[1] + ... + words[n]`: words with a
   * separator between each two.
   */
  function Interleave(words: seq<string>, seps: seq<string>): string
    requires |words| == |seps| + 1
    decreases |seps|
  {
    if seps == [] then words[0] else words[0] + seps[0] + Interleave(words[1..], seps[1..])
  }

  /** `s.split(/\s+/)`: the pieces between maximal runs of white space. */
  function SplitWs(s: string): (parts: seq<string>)
    ensures |parts| >= 1
    decreases |s|
  {
    if |s| == 0 then [""]
    else if IsWs(s[0]) then [""] + SplitWs(TrimStart(s))
    else
      var rest := SplitWs(s[1..]);
      [[s[0]] + rest[0]] + rest[1..]
  }

  /**
   * `s.slice(0, end)`: a negative `end` counts back from the end of the
   * string and an `end` past the end stops at the end.
   */
  function SliceTo(s: string, end: int): (r: string)
    ensures 0 <= end <= |s| ==> r == s[..end]
    ensures end > |s| ==> r == s
    ensures end < 0 ==> r == s[..if |s| + end < 0 then 0 else |s| + end]
  {
    var e := if end < 0 then (if |s| + end < 0 then 0 else |s| + end)
             else if end > |s| then |s| else end;
    s[..e]
  }

  function DigitChar(d: nat): (c: char)
    requires d < 10
    ensures IsDigit(c)
  {
    ('0' as int + d) as char
  }

  function DigitValue(c: char): (d: nat)
    requires IsDigit(c)
    ensures d < 10 && DigitChar(d) == c
  {
    c as int - '0' as int
  }

  /** The decimal text of a natural number, as `String(n)` gives it. */
  function NatToString(n: nat): (s: string)
    ensures |s| >= 1 && AllDigits(s)
    ensures |s| > 1 ==> s[0] != '0'
    decreases n
  {
    if n < 10 then [DigitChar(n)] else NatToString(n / 10) + [DigitChar(n % 10)]
  }

  /** The value of a string of decimal digits. */
  function ParseNat(s: string): nat
    requires AllDigits(s)
    decreases |s|
  {
    if |s| == 0 then 0 else ParseNat(s[..|s| - 1]) * 10 + DigitValue(s[|s| - 1])
  }

  /** `String(i)` for an integer. */
  function IntToString(i: int): string {
    if i < 0 then "-" + NatToString(-i) else NatToString(i)
  }

  lemma {:induction false} ParseNatToString(n: nat)
    ensures ParseNat(NatToString(n)) == n
    decreases n
  {
    var s := NatToString(n);
    if n >= 10 {
      ParseNatToString(n / 10);
      assert s[..|s| - 1] == NatToString(n / 10);
      assert DigitValue(s[|s| - 1]) == n % 10;
    }
  }

  /** A piece of `SplitOn` never contains the separator, and joining the pieces back gives `s`. */
  lemma {:induction false} JoinSplitOn(s: string, sep: char)
    ensures JoinWith(SplitOn(s, sep), [sep]) == s
  {
    if |s| > 0 {
      var rest := SplitOn(s[1..], sep);
      JoinSplitOn(s[1..], sep);
      if s[0] == sep {
        assert s == [sep] + s[1..];
      } else {
        var parts := [[s[0]] + rest[0]] + rest[1..];
        assert parts[1..] == rest[1..];
        if |rest| == 1 {
          assert s == [s[0]] + rest[0];
        } else {
          assert JoinWith(rest, [sep]) == rest[0] + [sep] + JoinWith(rest[1..], [sep]);
          assert s == [s[0]] + s[1..];
        }
      }
    }
  }

  lemma {:induction false} SplitOnNoSep(p: string, t: string, sep: char)
    requires sep !in p
    ensures SplitOn(p + t, sep) == [p + SplitOn(t, sep)[0]] + SplitOn(t, sep)[1..]
    decreases |p|
  {
    var parts := SplitOn(t, sep);
    if |p| > 0 {
      var s := p + t;
      assert s[1..] == p[1..] + t;
      SplitOnNoSep(p[1..], t, sep);
      assert s[0] == p[0];
      SplitOnCons(s, sep);
      assert [p[0]] + (p[1..] + parts[0]) == p + parts[0];
    } else {
      assert p + t == t;
      assert p + parts[0] == parts[0];
      assert parts == [parts[0]] + parts[1..];
    }
  }

  /** One step of the split for a first character that is not the separator. */
  lemma SplitOnCons(s: string, sep: char)
    requires |s| > 0 && s[0] != sep
    ensures SplitOn(s, sep) == [[s[0]] + SplitOn(s[1..], sep)[0]] + SplitOn(s[1..], sep)[1..]
  {
  }

  /** Two separator-free pieces around one separator split back into the two pieces. */
  lemma SplitOnPair(a: string, b: string, sep: char)
    requires sep !in a && sep !in b
    ensures SplitOn(a + [sep] + b, sep) == [a, b]
  {
    assert [a, b][1..] == [b];
    assert JoinWith([a, b], [sep]) == a + [sep] + b;
    SplitJoinWith([a, b], sep);
  }

  /** Splitting the join of separator-free pieces gives the pieces back. */
  lemma {:induction false} SplitJoinWith(parts: seq<string>, sep: char)
    requires |parts| >= 1
    requires forall p :: p in parts ==> sep !in p
    ensures SplitOn(JoinWith(parts, [sep]), sep) == parts
  {
    if |parts| == 1 {
      SplitOnNoSep(parts[0], "", sep);
      assert parts[0] + "" == parts[0];
    } else {
      var tail := JoinWith(parts[1..], [sep]);
      SplitJoinWith(parts[1..], sep);
      assert JoinWith(parts, [sep]) == parts[0] + ([sep] + tail);
      SplitOnNoSep(parts[0], [sep] + tail, sep);
      assert ([sep] + tail)[1..] == tail;
      assert SplitOn([sep] + tail, sep) == [""] + parts[1..];
      assert parts[0] + "" == parts[0];
    }
  }

  lemma {:induction false} RemoveWsAppend(a: string, b: string)
    ensures RemoveWs(a + b) == RemoveWs(a) + RemoveWs(b)
    decreases |a|
  {
    if a != [] {
      RemoveWsAppend(a[1..], b);
      assert (a + b)[1..] == a[1..] + b;
    } else {
      assert a + b == b;
    }
  }

  lemma {:induction false} RemoveWsTrimEnd(s: string)
    ensures RemoveWs(TrimEnd(s)) == RemoveWs(s)
    decreases |s|
  {
    if |s| > 0 && IsWs(s[|s| - 1]) {
      var init := s[..|s| - 1];
      RemoveWsTrimEnd(init);
      assert s == init + [s[|s| - 1]];
      RemoveWsAppend(init, [s[|s| - 1]]);
      assert RemoveWs([s[|s| - 1]]) == [];
    }
  }

  lemma {:induction false} RemoveWsTrimStart(s: string)
    ensures RemoveWs(TrimStart(s)) == RemoveWs(s)
    decreases |s|
  {
    if |s| > 0 && IsWs(s[0]) {
      RemoveWsTrimStart(s[1..]);
    }
  }

  /**
   * What `split(/\s+/)` keeps: no piece holds white space, and together the
   * pieces are exactly the non-white-space characters of `s`, in order.
   */
  lemma SplitWsPieces(s: string)
    ensures forall p :: p in SplitWs(s) ==> HasNoWs(p)
    ensures Concat(SplitWs(s)) == RemoveWs(s)
  {
    SplitWsNoWs(s);
    SplitWsConcat(s);
  }

  lemma {:induction false} SplitWsNoWs(s: string)
    ensures forall p :: p in SplitWs(s) ==> HasNoWs(p)
    decreases |s|
  {
    if |s| == 0 {
    } else if IsWs(s[0]) {
      SplitWsNoWs(TrimStart(s));
    } else {
      var rest := SplitWs(s[1..]);
      SplitWsNoWs(s[1..]);
      var parts := [[s[0]] + rest[0]] + rest[1..];
      forall p | p in parts ensures HasNoWs(p) {
        if p == parts[0] {
          assert rest[0] in rest;
        } else {
          assert p in rest[1..];
          assert p in rest;
        }
      }
    }
  }

  lemma {:induction false} SplitWsConcat(s: string)
    ensures Concat(SplitWs(s)) == RemoveWs(s)
    decreases |s|
  {
    if |s| == 0 {
    } else if IsWs(s[0]) {
      var t := TrimStart(s);
      SplitWsConcat(t);
      RemoveWsTrimStart(s);
      assert ([""] + SplitWs(t))[1..] == SplitWs(t);
    } else {
      var rest := SplitWs(s[1..]);
      SplitWsConcat(s[1..]);
      var parts := [[s[0]] + rest[0]] + rest[1..];
      assert parts[1..] == rest[1..];
      assert Concat(rest) == rest[0] + Concat(rest[1..]);
      assert RemoveWs(s) == [s[0]] + RemoveWs(s[1..]);
    }
  }

  /**
   * On a string with no leading and no trailing white space, `split(/\s+/)`
   * yields no empty piece, except that the empty string yields `[""]`.
   */
  lemma {:induction false} SplitWsTrimmed(s: string)
    requires s == [] || (!IsWs(s[0]) && !IsWs(s[|s| - 1]))
    ensures s == [] ==> SplitWs(s) == [""]
    ensures s != [] ==> forall p :: p in SplitWs(s) ==> p != ""
  {
    if s != [] {
      SplitWsEndsNonWs(s);
    }
  }

  lemma {:induction false} SplitWsEndsNonWs(s: string)
    requires s != [] && !IsWs(s[|s| - 1])
    ensures forall i :: 1 <= i < |SplitWs(s)| ==> SplitWs(s)[i] != ""
    ensures SplitWs(s)[0] == "" <==> IsWs(s[0])
    decreases |s|
  {
    if IsWs(s[0]) {
      var t := TrimStart(s);
      assert |t| > 0;
      assert t[|t| - 1] == s[|s| - 1];
      SplitWsEndsNonWs(t);
      var parts := [""] + SplitWs(t);
      forall i | 1 <= i < |parts| ensures parts[i] != "" {
        assert parts[i] == SplitWs(t)[i - 1];
      }
    } else if |s| > 1 {
      SplitWsEndsNonWs(s[1..]);
      var rest := SplitWs(s[1..]);
      var parts := [[s[0]] + rest[0]] + rest[1..];
      forall i | 1 <= i < |parts| ensures parts[i] != "" {
        assert parts[i] == rest[i];
      }
    }
  }

  /**
   * What `trim` keeps is a contiguous part of the text: the text is a run of
   * white space, the trimmed text, and another run of white space.
   */
  lemma TrimInfix(s: string)
    ensures exists lead, trail :: AllWs(lead) && AllWs(trail) && s == lead + (Trim(s) + trail)
  {
    var t := TrimStart(s);
    var e := TrimEnd(t);
    var lead := TrimStartSplit(s);
    var trail := TrimEndSplit(t);
    assert Trim(s) == e;
    assert s == lead + (Trim(s) + trail);
  }

  /** The leading white space `trimStart` drops, followed by what it keeps, is the text. */
  lemma TrimStartSplit(s: string) returns (lead: string)
    ensures AllWs(lead) && s == lead + TrimStart(s)
  {
    var t := TrimStart(s);
    lead := s[..|s| - |t|];
    SplitAt(s, |s| - |t|);
  }

  /** What `trimEnd` keeps, followed by the trailing white space it drops, is the text. */
  lemma TrimEndSplit(t: string) returns (trail: string)
    ensures AllWs(trail) && t == TrimEnd(t) + trail
  {
    var e := TrimEnd(t);
    trail := t[|e|..];
    SplitAt(t, |e|);
    forall k | 0 <= k < |trail| ensures IsWs(trail[k]) {
      assert trail[k] == t[|e| + k];
    }
  }

  lemma SplitAt(s: string, i: nat)
    requires i <= |s|
    ensures s == s[..i] + s[i..]
  {
  }

  /** Trimming the start of white space followed by text that does not start with white space leaves that text. */
  lemma {:induction false} TrimStartAfterWs(lead: string, t: string)
    requires AllWs(lead) && (t == [] || !IsWs(t[0]))
    ensures TrimStart(lead + t) == t
    decreases |lead|
  {
    if lead == [] {
      assert lead + t == t;
    } else {
      assert (lead + t)[1..] == lead[1..] + t;
      TrimStartAfterWs(lead[1..], t);
    }
  }

  /** Trimming the end of text that ends in non-white space followed by white space leaves that text. */
  lemma {:induction false} TrimEndBeforeWs(t: string, trail: string)
    requires AllWs(trail) && t != [] && !IsWs(t[|t| - 1])
    ensures TrimEnd(t + trail) == t
    decreases |trail|
  {
    if trail == [] {
      assert t + trail == t;
    } else {
      var s := t + trail;
      assert s[..|s| - 1] == t + trail[..|trail| - 1];
      TrimEndBeforeWs(t, trail[..|trail| - 1]);
    }
  }

  /**
   * `trim` removes exactly the white space around a text that starts and
   * ends with non-white space, and nothing inside it.
   */
  lemma TrimBetweenWs(lead: string, x: string, trail: string)
    requires AllWs(lead) && AllWs(trail)
    requires x != [] && !IsWs(x[0]) && !IsWs(x[|x| - 1])
    ensures Trim(lead + x + trail) == x
  {
    assert lead + x + trail == lead + (x + trail);
    TrimStartAfterWs(lead, x + trail);
    TrimEndBeforeWs(x, trail);
  }

  /** Text made only of white space trims to the empty string. */
  lemma TrimAllWs(s: string)
    requires AllWs(s)
    ensures Trim(s) == ""
  {
    TrimStartAfterWs(s, []);
    assert s + [] == s;
  }

  /** Text starting with a character other than white space: that character opens the first piece. */
  lemma SplitWsCons(s: string)
    requires s != [] && !IsWs(s[0])
    ensures SplitWs(s) == [[s[0]] + SplitWs(s[1..])[0]] + SplitWs(s[1..])[1..]
  {
  }

  /** A word without white space joins the first piece of what follows it. */
  lemma {:induction false} SplitWsWord(w: string, t: string)
    requires w != [] && HasNoWs(w)
    ensures SplitWs(w + t) == [w + SplitWs(t)[0]] + SplitWs(t)[1..]
    decreases |w|
  {
    var s := w + t;
    var pieces := SplitWs(t);
    assert s[0] == w[0];
    SplitWsCons(s);
    if |w| > 1 {
      assert s[1..] == w[1..] + t;
      SplitWsWord(w[1..], t);
      FirstAndRest(w[1..] + pieces[0], pieces[1..]);
      HeadThenTail(w, pieces[0]);
    } else {
      assert s[1..] == t;
      assert [w[0]] == w;
    }
  }

  /** The first element and the rest of a list built from its first element and a rest. */
  lemma FirstAndRest<T>(x: T, xs: seq<T>)
    ensures ([x] + xs)[0] == x && ([x] + xs)[1..] == xs
  {
  }

  /** A non-empty string is its first character followed by the rest. */
  lemma HeadThenTail(w: string, x: string)
    requires w != []
    ensures [w[0]] + (w[1..] + x) == w + x
  {
    assert w == [w[0]] + w[1..];
  }

  /** A run of white space before text that does not start with white space ends a piece. */
  lemma SplitWsGap(sep: string, t: string)
    requires sep != [] && AllWs(sep) && (t == [] || !IsWs(t[0]))
    ensures SplitWs(sep + t) == [""] + SplitWs(t)
  {
    TrimStartAfterWs(sep, t);
    assert (sep + t)[0] == sep[0];
  }

  /** Interleaved text starts with the first word's first character and ends with the last word's last one. */
  lemma {:induction false} InterleaveEnds(words: seq<string>, seps: seq<string>)
    requires |words| == |seps| + 1
    requires forall i :: 0 <= i < |words| ==> words[i] != []
    ensures var s := Interleave(words, seps);
            var last := words[|words| - 1];
            s != [] && s[0] == words[0][0] && s[|s| - 1] == last[|last| - 1]
    decreases |seps|
  {
    if seps != [] {
      InterleaveEnds(words[1..], seps[1..]);
      var tail := Interleave(words[1..], seps[1..]);
      assert Interleave(words, seps) == words[0] + seps[0] + tail;
    }
  }

  /** One word and one run of white space in front of text whose pieces are known. */
  lemma SplitWsStep(w: string, sep: string, tail: string)
    requires w != [] && HasNoWs(w)
    requires sep != [] && AllWs(sep)
    requires tail != [] && !IsWs(tail[0])
    ensures SplitWs(w + sep + tail) == [w] + SplitWs(tail)
  {
    SplitWsGap(sep, tail);
    SplitWsWord(w, sep + tail);
    assert w + sep + tail == w + (sep + tail);
    assert w + "" == w;
  }

  /**
   * `split(/\s+/)` undoes interleaving: non-empty words without white space,
   * separated by non-empty runs of white space, split back into exactly
   * those words.
   */
  lemma {:induction false} SplitWsInterleave(words: seq<string>, seps: seq<string>)
    requires |words| == |seps| + 1
    requires forall i :: 0 <= i < |words| ==> words[i] != "" && HasNoWs(words[i])
    requires forall i :: 0 <= i < |seps| ==> seps[i] != "" && AllWs(seps[i])
    ensures SplitWs(Interleave(words, seps)) == words
    decreases |seps|
  {
    if seps == [] {
      SplitWsWord(words[0], "");
      assert words[0] + "" == words[0];
      assert words == [words[0]];
    } else {
      var tail := Interleave(words[1..], seps[1..]);
      SplitWsInterleave(words[1..], seps[1..]);
      InterleaveEnds(words[1..], seps[1..]);
      SplitWsStep(words[0], seps[0], tail);
      assert words == [words[0]] + words[1..];
    }
  }
}
