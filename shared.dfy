/** The log-message normalisation of `LogFormatter.format` (placeholder
    counting and padding) and the fixed-offset zone name computed by
    `get_local_timezone`. */
module Shared {
  import opened Builtins

  predicate IsLetter(c: char) { 'a' <= c <= 'z' || 'A' <= c <= 'Z' }

  predicate IsSign(c: char) { c == '-' || c == '+' }

  /** A character the optional precision group can contain. */
  predicate IsNumeric(c: char) { IsDigit(c) || c == '.' }

  /** The optional group `(\d+|\.\d+|\d+\.\d+)?`. */
  predicate IsGroup(g: string)
  {
    || g == []
    || (|g| > 0 && AllDigits(g))
    || (|g| > 1 && g[0] == '.' && AllDigits(g[1..]))
    || exists i :: 0 < i < |g| - 1 && g[i] == '.' && AllDigits(g[..i]) && AllDigits(g[i + 1..])
  }

  /** The words of the pattern `%[-+]?(\d+|\.\d+|\d+\.\d+)?[a-zA-Z]`. */
  ghost predicate IsPlaceholder(t: string)
  {
    && |t| >= 2 && t[0] == '%' && IsLetter(t[|t| - 1])
    && (IsGroup(t[1..|t| - 1]) || (IsSign(t[1]) && IsGroup(t[2..|t| - 1])))
  }

  /** The first position from `a` on that is not a digit or a dot. */
  function NumericEnd(x: string, a: nat): (q: nat)
    requires a <= |x|
    ensures a <= q <= |x| && (q < |x| ==> !IsNumeric(x[q]))
    ensures forall i :: a <= i < q ==> IsNumeric(x[i])
    decreases |x| - a
  {
    if a == |x| || !IsNumeric(x[a]) then a else NumericEnd(x, a + 1)
  }

  /** The length of the placeholder the pattern matches at the start of
      `x`, if any. After the `%` and an optional sign, the group can only
      hold digits and dots and a letter must follow it, so the letter is the
      first character that is neither. */
  function MatchAt(x: string): Option<nat>
  {
    if |x| < 2 || x[0] != '%' then None
    else
      var a := if IsSign(x[1]) then 2 else 1;
      var q := NumericEnd(x, a);
      if q < |x| && IsLetter(x[q]) && IsGroup(x[a..q]) then Some(q + 1) else None
  }

  lemma NumericEndAt(x: string, a: nat, q: nat)
    requires a <= q <= |x| && (q < |x| ==> !IsNumeric(x[q]))
    requires forall i :: a <= i < q ==> IsNumeric(x[i])
    ensures NumericEnd(x, a) == q
  {
  }

  /** What `MatchAt` finds is a placeholder. */
  lemma MatchAtSound(x: string)
    requires MatchAt(x).Some?
    ensures 2 <= MatchAt(x).value <= |x| && IsPlaceholder(x[..MatchAt(x).value])
  {
    var n := MatchAt(x).value;
    var t := x[..n];
    var a := if IsSign(x[1]) then 2 else 1;
    assert t[a..|t| - 1] == x[a..n - 1];
  }

  /** Every placeholder at the start of `x` is the one `MatchAt` finds: the
      pattern has at most one match at a position, whatever the alternation
      order of the regex engine. */
  lemma MatchAtComplete(x: string, n: nat)
    requires n <= |x| && IsPlaceholder(x[..n])
    ensures MatchAt(x) == Some(n)
  {
    var t := x[..n];
    assert forall i :: 0 <= i < n ==> t[i] == x[i];
    if IsSign(x[1]) {
      assert !IsGroup(t[1..|t| - 1]) by {
        var g := t[1..|t| - 1];
        if g != [] {
          assert g[0] == x[1];
        }
      }
      assert IsGroup(x[2..n - 1]) by {
        assert t[2..|t| - 1] == x[2..n - 1];
      }
      GroupIsNumeric(x[2..n - 1]);
      forall i | 2 <= i < n - 1 ensures IsNumeric(x[i]) {
        assert x[i] == x[2..n - 1][i - 2];
      }
      NumericEndAt(x, 2, n - 1);
    } else {
      var g := t[1..|t| - 1];
      assert IsGroup(g) by {
        if |t| > 2 {
          assert g[0] == x[1];
        }
      }
      assert g == x[1..n - 1];
      GroupIsNumeric(g);
      forall i | 1 <= i < n - 1 ensures IsNumeric(x[i]) {
        assert x[i] == g[i - 1];
      }
      NumericEndAt(x, 1, n - 1);
    }
  }

  lemma GroupIsNumeric(g: string)
    requires IsGroup(g)
    ensures forall i :: 0 <= i < |g| ==> IsNumeric(g[i])
  {
    if g != [] && !AllDigits(g) && !(|g| > 1 && g[0] == '.' && AllDigits(g[1..])) {
      var k :| 0 < k < |g| - 1 && g[k] == '.' && AllDigits(g[..k]) && AllDigits(g[k + 1..]);
      forall i | 0 <= i < |g| ensures IsNumeric(g[i]) {
        if i < k {
          assert g[i] == g[..k][i];
        } else if i > k {
          assert g[i] == g[k + 1..][i - k - 1];
        }
      }
    } else if |g| > 1 && g[0] == '.' && AllDigits(g[1..]) {
      forall i | 1 <= i < |g| ensures IsNumeric(g[i]) {
        assert g[i] == g[1..][i - 1];
      }
    }
  }

  /** `len(re.findall(pattern, s))`: matches are taken left to right, and
      the scan resumes after the end of each match. */
  function CountPlaceholders(s: string): nat
    decreases |s|
  {
    if s == [] then 0
    else match MatchAt(s)
      case Some(n) => 1 + CountPlaceholders(s[n..])
      case None => CountPlaceholders(s[1..])
  }

  /** A character that can neither continue nor end a placeholder. */
  predicate IsBreak(c: char)
  {
    !IsNumeric(c) && !IsLetter(c) && !IsSign(c)
  }

  lemma NumericEndAppend(m: string, t: string, a: nat)
    requires a <= |m| && t != [] && IsBreak(t[0])
    ensures NumericEnd(m + t, a) == NumericEnd(m, a)
    decreases |m| - a
  {
    if a < |m| && IsNumeric(m[a]) {
      NumericEndAppend(m, t, a + 1);
    }
  }

  /** A match cannot run across a break character. */
  lemma MatchAtAppend(m: string, t: string)
    requires m != [] && t != [] && IsBreak(t[0])
    ensures MatchAt(m + t) == MatchAt(m)
  {
    var x := m + t;
    if |m| >= 2 && m[0] == '%' {
      var a := if IsSign(m[1]) then 2 else 1;
      NumericEndAppend(m, t, a);
      var q := NumericEnd(m, a);
      if q < |m| {
        assert x[a..q] == m[a..q];
      }
    }
  }

  /** Placeholders are counted separately on both sides of a break character. */
  lemma {:induction false} CountAppend(m: string, t: string)
    requires t != [] && IsBreak(t[0])
    ensures CountPlaceholders(m + t) == CountPlaceholders(m) + CountPlaceholders(t)
    decreases |m|
  {
    if m != [] {
      MatchAtAppend(m, t);
      match MatchAt(m) {
        case Some(n) =>
          MatchAtSound(m);
          assert (m + t)[n..] == m[n..] + t;
          CountAppend(m[n..], t);
        case None =>
          assert (m + t)[1..] == m[1..] + t;
          CountAppend(m[1..], t);
      }
    } else {
      assert m + t == t;
    }
  }

  /** The separator `", "` and the space hold no placeholder. */
  lemma CountSkip(c: char, r: string)
    requires c != '%'
    ensures CountPlaceholders([c] + r) == CountPlaceholders(r)
  {
    assert ([c] + r)[1..] == r;
  }

  lemma CountOne()
    ensures CountPlaceholders("%s") == 1
  {
    var x := "%s";
    assert NumericEnd(x, 1) == 1;
    assert x[1..1] == [];
    assert MatchAt(x) == Some(2);
    assert x[2..] == [];
  }

  /** One more `%s` in front of a joined list. */
  lemma JoinStep(k: nat)
    requires k > 1
    ensures Join(Repeat("%s", k), ", ") == "%s" + ", " + Join(Repeat("%s", k - 1), ", ")
  {
    assert Repeat("%s", k)[1..] == Repeat("%s", k - 1);
  }

  /** A `%s` followed by a separator adds one placeholder to what follows. */
  lemma CountLeading(rest: string)
    ensures CountPlaceholders("%s" + ", " + rest) == 1 + CountPlaceholders(rest)
  {
    CountOne();
    var tail := ", " + rest;
    assert "%s" + ", " + rest == "%s" + tail;
    CountAppend("%s", tail);
    assert tail == [','] + ([' '] + rest);
    CountSkip(',', [' '] + rest);
    CountSkip(' ', rest);
  }

  /** `", ".join(["%s"] * k)` holds exactly `k` placeholders. */
  lemma {:induction false} CountPadding(k: nat)
    ensures CountPlaceholders(Join(Repeat("%s", k), ", ")) == k
    decreases k
  {
    if k == 1 {
      assert Repeat("%s", 1) == ["%s"];
      CountOne();
    } else if k > 1 {
      JoinStep(k);
      CountLeading(Join(Repeat("%s", k - 1), ", "));
      CountPadding(k - 1);
    }
  }

  /** A value handed to the logger: its type name, its truthiness, and the
      result of `str()` on it, `None` when `str()` raises. */
  datatype LogValue = LogValue(typeName: string, truthy: bool, text: Option<string>)

  function StrValue(s: string): LogValue
  {
    LogValue("str", s != [], Some(s))
  }

  function NonStringable(v: LogValue): string
  {
    "<non-stringable: " + v.typeName + ">"
  }

  /** `str(v)`, or the marker naming its type when that raises. */
  function SafeText(v: LogValue): string
  {
    match v.text case Some(s) => s case None => NonStringable(v)
  }

  /** The converted arguments, in order. */
  function SafeArgs(args: seq<LogValue>): (r: seq<LogValue>)
    ensures |r| == |args|
    ensures forall i :: 0 <= i < |args| ==> r[i] == StrValue(SafeText(args[i]))
  {
    seq(|args|, i requires 0 <= i < |args| => StrValue(SafeText(args[i])))
  }

  const EmptyMessage := "<empty message>"

  /** The message text: a falsy message becomes `<empty message>`; any other
      is `str(msg)`, or the marker naming its type when that raises. */
  function MessageText(msg: LogValue): string
  {
    if !msg.truthy then EmptyMessage else SafeText(msg)
  }

  /** `max(0, len(args) - placeholders)` */
  function PaddingCount(argCount: nat, text: string): nat
  {
    if argCount > CountPlaceholders(text) then argCount - CountPlaceholders(text) else 0
  }

  function Padded(text: string, k: nat): string
  {
    text + " " + Join(Repeat("%s", k), ", ")
  }

  /** The message `format` passes on, for the original message and arguments. */
  function NormalisedMessage(msg: LogValue, args: seq<LogValue>): string
  {
    var text := MessageText(msg);
    Padded(text, PaddingCount(|args|, text))
  }

  /** After padding the message has a placeholder for every argument: as
      many as it had, or as many as there are arguments, whichever is more.
      The original text and a space always come first. */
  lemma PaddingCoversArgs(msg: LogValue, args: seq<LogValue>)
    ensures var text := MessageText(msg);
      var padded := NormalisedMessage(msg, args);
      && padded[..|text| + 1] == text + " "
      && CountPlaceholders(padded) == (if |args| > CountPlaceholders(text) then |args| else CountPlaceholders(text))
      && CountPlaceholders(padded) >= |args|
  {
    var text := MessageText(msg);
    var k := PaddingCount(|args|, text);
    var tail := Join(Repeat("%s", k), ", ");
    assert Padded(text, k) == text + ([' '] + tail);
    CountAppend(text, [' '] + tail);
    CountSkip(' ', tail);
    CountPadding(k);
  }

  /** A truthy message that converts to text keeps that text. */
  lemma MessageTextCases(msg: LogValue)
    ensures !msg.truthy ==> MessageText(msg) == "<empty message>"
    ensures msg.truthy && msg.text.Some? ==> MessageText(msg) == msg.text.value
    ensures msg.truthy && msg.text.None? ==> MessageText(msg) == "<non-stringable: " + msg.typeName + ">"
  {
  }

  /** The record `format` works on: its message and arguments. */
  class LogRecord {
    var msg: LogValue
    var args: seq<LogValue>

    constructor (msg: LogValue, args: seq<LogValue>)
      ensures this.msg == msg && this.args == args
    {
      this.msg := msg;
      this.args := args;
    }

    /** The normalisation `LogFormatter.format` does before handing the
        record to the standard formatter: arguments become strings one for
        one, and the message becomes text padded with a `%s` per surplus
        argument. */
    method Normalise()
      modifies this
      ensures args == SafeArgs(old(args))
      ensures msg == StrValue(NormalisedMessage(old(msg), old(args)))
    {
      if args != [] {
        var safeArgs := [];
        var i := 0;
        while i < |args|
          invariant 0 <= i <= |args|
          invariant safeArgs == SafeArgs(args[..i])
        {
          var arg := args[i];
          var text := if arg.text.Some? then arg.text.value else "<non-stringable: " + arg.typeName + ">";
          safeArgs := safeArgs + [StrValue(text)];
          i := i + 1;
        }
        assert args[..i] == args;
        args := safeArgs;
      }
      ghost var original := old(msg);
      if !msg.truthy {
        msg := StrValue(EmptyMessage);
      }
      var text := if msg.text.Some? then msg.text.value else "<non-stringable: " + msg.typeName + ">";
      assert text == MessageText(original);
      var required := |args| - CountPlaceholders(text);
      if required < 0 {
        required := 0;
      }
      msg := StrValue(text + " " + Join(Repeat("%s", required), ", "));
    }
  }

  /** `-time.timezone // 3600`: the local UTC offset in whole hours, rounded
      down (the divisor is positive, so Dafny's division is Python's floor
      division). `timezone` is seconds west of UTC. */
  function OffsetHours(timezone: int): int
  {
    (-timezone) / 3600
  }

  function Abs(i: int): nat
  {
    if i < 0 then -i else i
  }

  /** The fixed-offset zone tried when `TZ` names no zone. The POSIX-style
      `Etc/GMT` names carry the inverted sign: `Etc/GMT-5` is five hours
      east of UTC. */
  function ZoneName(timezone: int): string
  {
    var h := OffsetHours(timezone);
    "Etc/GMT" + (if h > 0 then "-" else "+") + NatToString(Abs(h))
  }

  /** Reads an `Etc/GMT` name back as the UTC offset in hours it stands for. */
  function ZoneOffset(name: string): Option<int>
  {
    if |name| < 9 || name[..7] != "Etc/GMT" || !IsSign(name[7]) || !AllDigits(name[8..]) then None
    else
      var n: int := ParseNat(name[8..]);
      Some(if name[7] == '-' then n else -n)
  }

  /** The zone name denotes the local offset rounded down to whole hours:
      `h * 3600 <= -timezone < (h + 1) * 3600`; a positive offset is written
      `Etc/GMT-h`, any other `Etc/GMT+|h|`. */
  lemma ZoneNameDenotesOffset(timezone: int)
    ensures ZoneOffset(ZoneName(timezone)) == Some(OffsetHours(timezone))
    ensures OffsetHours(timezone) * 3600 <= -timezone < (OffsetHours(timezone) + 1) * 3600
    ensures ZoneName(timezone)[7] == (if OffsetHours(timezone) > 0 then '-' else '+')
  {
    var h := OffsetHours(timezone);
    var name := ZoneName(timezone);
    NatToStringRoundTrip(Abs(h));
    assert name[..7] == "Etc/GMT";
    assert name[8..] == NatToString(Abs(h));
  }
}
