/** What the session list and the session detail page print in the same way:
    durations, amounts of money and the start of a session. */
module SessionDisplay {
  import opened Common
  import opened Text
  import RealtimeChat

  // ---------------------------------------------------------------------------
  // Durations: the `formatDuration` helper both pages define, character for
  // character the same: whole seconds split into hours, minutes and seconds,
  // printed without padding and with leading zero units left out.

  /** `Math.floor(seconds / 3600)`. */
  function Hours(s: int): int { s / 3600 }

  /** `Math.floor((seconds % 3600) / 60)`, with JavaScript's `%`. */
  function Minutes(s: int): int { JsRem(s, 3600) / 60 }

  /** `seconds % 60`, with JavaScript's `%`. */
  function Secs(s: int): int { JsRem(s, 60) }

  /** `formatDuration(seconds)`. */
  function FormatDuration(s: int): string {
    if Hours(s) > 0 then
      IntToString(Hours(s)) + "h " + IntToString(Minutes(s)) + "m " + IntToString(Secs(s)) + "s"
    else if Minutes(s) > 0 then
      IntToString(Minutes(s)) + "m " + IntToString(Secs(s)) + "s"
    else
      IntToString(Secs(s)) + "s"
  }

  /** For a non-negative duration the three parts are its mixed-radix digits. */
  lemma DurationParts(s: int)
    requires s >= 0
    ensures Hours(s) * 3600 + Minutes(s) * 60 + Secs(s) == s
    ensures 0 <= Minutes(s) < 60 && 0 <= Secs(s) < 60 && Hours(s) >= 0
  {
    var h, r := s / 3600, s % 3600;
    var m, x := r / 60, r % 60;
    assert Hours(s) == h && Minutes(s) == m;
    assert s == h * 3600 + r && r == m * 60 + x && 0 <= x < 60;
    assert Secs(s) == x by {
      RemOfSplit(s, h * 60 + m, x);
    }
  }

  /** Dividing `q * 60 + x` by 60 leaves `x` when `x` is a digit of base 60. */
  lemma RemOfSplit(a: int, q: int, x: int)
    requires a == q * 60 + x && 0 <= x < 60
    ensures a % 60 == x
  {
  }

  /** The hours part is printed exactly when the duration reaches an hour. */
  lemma HoursShownIff(s: int)
    ensures 'h' in FormatDuration(s) <==> s >= 3600
  {
    var r := FormatDuration(s);
    NoLetterIn(Minutes(s), 'h');
    NoLetterIn(Secs(s), 'h');
    if Hours(s) > 0 {
      assert r[|IntToString(Hours(s))|] == 'h';
    }
  }

  /** The minutes part is printed exactly when the duration reaches a minute. */
  lemma MinutesShownIff(s: int)
    ensures 'm' in FormatDuration(s) <==> s >= 60
  {
    var r := FormatDuration(s);
    NoLetterIn(Hours(s), 'm');
    NoLetterIn(Minutes(s), 'm');
    NoLetterIn(Secs(s), 'm');
    if s >= 0 {
      DurationParts(s);
    }
    if Hours(s) > 0 {
      var pre := IntToString(Hours(s)) + "h " + IntToString(Minutes(s));
      assert r[|pre|] == 'm';
    } else if Minutes(s) > 0 {
      assert r[|IntToString(Minutes(s))|] == 'm';
    }
  }

  /** Neither a letter nor a space appears in the decimal text of an integer. */
  lemma NoLetterIn(n: int, c: char)
    requires c != '-' && !IsDigit(c)
    ensures c !in IntToString(n)
  {
    NatToStringDigits(if n < 0 then -n else n);
    if n < 0 {
      assert IntToString(n)[1..] == NatToString(-n);
    }
  }

  // ---------------------------------------------------------------------------
  // Reading a printed duration back

  /** `n` of a printed unit, in seconds. */
  function InUnit(n: int, unit: char): int {
    if unit == 'h' then n * 3600 else if unit == 'm' then n * 60 else n
  }

  /** Reads `"{h}h {m}m {x}s"`, `"{m}m {x}s"` or `"{x}s"` back into seconds. */
  function ParseDuration(t: string): (r: Option<int>)
    decreases |t|
  {
    var k := LeadingDigits(t);
    if k == 0 || k == |t| then None
    else
      var v := DigitsValue(t[..k]);
      if t[k] == 's' then
        if k + 1 == |t| then Some(v) else None
      else if (t[k] == 'h' || t[k] == 'm') && k + 1 < |t| && t[k + 1] == ' ' then
        match ParseDuration(t[k + 2..])
        case None => None
        case Some(rest) => Some(InUnit(v, t[k]) + rest)
      else None
  }

  /** One printed unit `"{n}{unit}…"` is read as `n` followed by what comes after. */
  lemma ParseUnit(n: nat, unit: char, rest: string)
    requires unit == 's' || unit == 'h' || unit == 'm'
    ensures var t := NatToString(n) + [unit] + rest;
      var k := |NatToString(n)|;
      && LeadingDigits(t) == k && t[k] == unit && t[..k] == NatToString(n)
      && t[k + 1..] == rest
  {
    var d := NatToString(n);
    NatToStringDigits(n);
    assert d + [unit] + rest == d + ([unit] + rest);
    LeadingDigitsOf(d, [unit] + rest);
    var t := d + [unit] + rest;
    assert t[..|d|] == d;
    assert t[|d| + 1..] == rest;
  }

  /** The last unit, `"{x}s"`, is read as `x`. */
  lemma ParseSeconds(x: nat)
    ensures ParseDuration(NatToString(x) + "s") == Some(x)
  {
    ParseUnit(x, 's', []);
    assert NatToString(x) + ['s'] + [] == NatToString(x) + "s";
    DigitsValueOfNatToString(x);
  }

  /** One unfolding of the parser on a leading `"{n}{h|m} "` whose tail parses. */
  lemma ParseStep(t: string, k: nat, n: nat, unit: char, rest: int)
    requires k == LeadingDigits(t) && 0 < k && k + 1 < |t| && t[k] == unit && t[k + 1] == ' '
    requires unit == 'h' || unit == 'm'
    requires DigitsValue(t[..k]) == n && ParseDuration(t[k + 2..]) == Some(rest)
    ensures ParseDuration(t) == Some(InUnit(n, unit) + rest)
  {
  }

  /** How `"{n}{unit} {tail}"` looks to the parser: `n`'s digits, the unit, a space, the tail. */
  lemma LeadingShape(n: nat, unit: char, tail: string)
    requires unit == 'h' || unit == 'm'
    ensures var t, k := NatToString(n) + [unit, ' '] + tail, |NatToString(n)|;
      && LeadingDigits(t) == k && k + 1 < |t| && t[k] == unit && t[k + 1] == ' '
      && DigitsValue(t[..k]) == n && t[k + 2..] == tail
  {
    var t, k := NatToString(n) + [unit, ' '] + tail, |NatToString(n)|;
    ParseUnit(n, unit, " " + tail);
    assert NatToString(n) + [unit] + (" " + tail) == t;
    DigitsValueOfNatToString(n);
  }

  /** A leading `"{n}h "` or `"{n}m "` adds `n` hours or minutes to what follows. */
  lemma ParseLeading(n: nat, unit: char, tail: string, v: int)
    requires unit == 'h' || unit == 'm'
    requires ParseDuration(tail) == Some(v)
    ensures ParseDuration(NatToString(n) + [unit, ' '] + tail) == Some(InUnit(n, unit) + v)
  {
    LeadingShape(n, unit, tail);
    ParseStep(NatToString(n) + [unit, ' '] + tail, |NatToString(n)|, n, unit, v);
  }

  /** Reading a text equal to one whose value is known. */
  lemma ParsedAs(t: string, u: string, a: int, b: int)
    requires t == u && ParseDuration(u) == Some(a) && a == b
    ensures ParseDuration(t) == Some(b)
  {
  }

  /** `"{u} "` is the two characters `u` and a space. */
  lemma UnitText(d: string, u: char, tail: string)
    requires u == 'h' || u == 'm'
    ensures u == 'h' ==> d + "h " + tail == d + [u, ' '] + tail
    ensures u == 'm' ==> d + "m " + tail == d + [u, ' '] + tail
  {
  }

  /** A leading `"{n}h "` adds `n` hours to what follows. */
  lemma ParseHoursPrefix(n: nat, tail: string, v: int)
    requires ParseDuration(tail) == Some(v)
    ensures ParseDuration(NatToString(n) + "h " + tail) == Some(n * 3600 + v)
  {
    ParseLeading(n, 'h', tail, v);
    UnitText(NatToString(n), 'h', tail);
    ParsedAs(NatToString(n) + "h " + tail, NatToString(n) + ['h', ' '] + tail, InUnit(n, 'h') + v, n * 3600 + v);
  }

  /** A leading `"{n}m "` adds `n` minutes to what follows. */
  lemma ParseMinutesPrefix(n: nat, tail: string, v: int)
    requires ParseDuration(tail) == Some(v)
    ensures ParseDuration(NatToString(n) + "m " + tail) == Some(n * 60 + v)
  {
    ParseLeading(n, 'm', tail, v);
    UnitText(NatToString(n), 'm', tail);
    ParsedAs(NatToString(n) + "m " + tail, NatToString(n) + ['m', ' '] + tail, InUnit(n, 'm') + v, n * 60 + v);
  }

  /** The printed form of a duration of an hour or more, unit by unit. */
  lemma FormatWithHours(s: int)
    requires s >= 3600
    ensures 0 <= Minutes(s) && 0 <= Secs(s)
    ensures FormatDuration(s) ==
      NatToString(Hours(s)) + "h " + (NatToString(Minutes(s)) + "m " + (NatToString(Secs(s)) + "s"))
  {
    var a, b, c := NatToString(Hours(s)), NatToString(Minutes(s)), NatToString(Secs(s));
    assert FormatDuration(s) == a + "h " + b + "m " + c + "s";
  }

  /** The printed form of a duration of a minute or more but under an hour. */
  lemma FormatWithMinutes(s: int)
    requires 60 <= s < 3600
    ensures 0 <= Minutes(s) && 0 <= Secs(s)
    ensures FormatDuration(s) == NatToString(Minutes(s)) + "m " + (NatToString(Secs(s)) + "s")
  {
    var b, c := NatToString(Minutes(s)), NatToString(Secs(s));
    DurationParts(s);
    assert FormatDuration(s) == b + "m " + c + "s";
  }

  /** Every non-negative duration is read back as itself. */
  lemma FormatDurationRoundTrip(s: int)
    requires s >= 0
    ensures ParseDuration(FormatDuration(s)) == Some(s)
  {
    if s >= 3600 {
      RoundTripWithHours(s);
    } else if s >= 60 {
      RoundTripWithMinutes(s);
    } else {
      assert FormatDuration(s) == NatToString(s) + "s" by {
        DurationParts(s);
      }
      ParseSeconds(s);
    }
  }

  lemma RoundTripWithMinutes(s: int)
    requires 60 <= s < 3600
    ensures ParseDuration(FormatDuration(s)) == Some(s)
  {
    FormatWithMinutes(s);
    var m, x := Minutes(s), Secs(s);
    ParseSeconds(x);
    ParseMinutesPrefix(m, NatToString(x) + "s", x);
    assert m * 60 + x == s by {
      DurationParts(s);
    }
    ParsedAs(FormatDuration(s), NatToString(m) + "m " + (NatToString(x) + "s"), m * 60 + x, s);
  }

  lemma RoundTripWithHours(s: int)
    requires s >= 3600
    ensures ParseDuration(FormatDuration(s)) == Some(s)
  {
    var h, v := Hours(s), Minutes(s) * 60 + Secs(s);
    HoursSplit(s);
    var tail :| FormatDuration(s) == NatToString(h) + "h " + tail && ParseDuration(tail) == Some(v);
    assert h * 3600 + v == s by {
      DurationParts(s);
    }
    HoursThen(FormatDuration(s), h, tail, v, s);
  }

  /** A text made of `"{h}h "` and a tail read as `v` is read as `h` hours and `v`. */
  lemma HoursThen(t: string, h: nat, tail: string, v: int, s: int)
    requires t == NatToString(h) + "h " + tail && ParseDuration(tail) == Some(v) && h * 3600 + v == s
    ensures ParseDuration(t) == Some(s)
  {
    ParseHoursPrefix(h, tail, v);
  }

  /** After the hours, a duration of an hour or more prints a text read as
      its minutes and seconds. */
  lemma HoursSplit(s: int)
    requires s >= 3600
    ensures exists tail :: FormatDuration(s) == NatToString(Hours(s)) + "h " + tail
                          && ParseDuration(tail) == Some(Minutes(s) * 60 + Secs(s))
  {
    FormatWithHours(s);
    var m, x := Minutes(s), Secs(s);
    var tail := NatToString(m) + "m " + (NatToString(x) + "s");
    MinutesTextParses(m, x);
    assert FormatDuration(s) == NatToString(Hours(s)) + "h " + tail;
  }

  /** `"{m}m {x}s"` is read as `m` minutes and `x` seconds. */
  lemma MinutesTextParses(m: nat, x: nat)
    ensures ParseDuration(NatToString(m) + "m " + (NatToString(x) + "s")) == Some(m * 60 + x)
  {
    ParseSeconds(x);
    ParseMinutesPrefix(m, NatToString(x) + "s", x);
  }

  // ---------------------------------------------------------------------------
  // Money: `toFixed(2)` on a stored cost, held here in whole cents

  /** Dollars and exactly two digits of cents. */
  function CentsText(c: int): string {
    if c >= 0 then NatToString(c / 100) + "." + PadStart2(NatToString(c % 100))
    else "-" + NatToString(-c / 100) + "." + PadStart2(NatToString(-c % 100))
  }

  /** A non-negative amount prints as digits, a point and two digits, and
      reading the two numbers back gives the amount in cents. */
  lemma CentsTextRoundTrip(c: int)
    requires c >= 0
    ensures var r := CentsText(c);
      && |r| >= 4 && r[|r| - 3] == '.'
      && AllDigits(r[..|r| - 3]) && AllDigits(r[|r| - 2..])
      && DigitsValue(r[..|r| - 3]) * 100 + DigitsValue(r[|r| - 2..]) == c
  {
    var whole, frac := NatToString(c / 100), PadStart2(NatToString(c % 100));
    PadStart2Value(c % 100);
    NatToStringDigits(c / 100);
    DigitsValueOfNatToString(c / 100);
    assert |NatToString(c % 100)| <= 2;
    var r := whole + "." + frac;
    assert r[..|r| - 3] == whole;
    assert r[|r| - 2..] == frac;
  }

  // ---------------------------------------------------------------------------
  // The start of a session

  /** `new Date((start_time || 0) * 1000)` as both pages write it: the stored
      start is read as seconds since the epoch. */
  function ShownStartAsWritten(startTime: int): int {
    startTime * 1000
  }

  /** The stored start as the instant it is: the chat hook stores it in
      milliseconds, the unit `new Date` takes. */
  function ShownStart(startTime: int): int {
    startTime
  }

  /** For every session the chat hook saves at a non-zero start, the pages as
      written show an instant a thousand times as far from the epoch as the
      first message, which both the store and the detail page keep in milliseconds. */
  lemma ShownStartAsWrittenMisreads(start: int, endTime: int, log: seq<RealtimeChat.Utterance>,
                                    tokens: TokenUsage, model: string, inputs: seq<RealtimeChat.Device>,
                                    outputs: seq<RealtimeChat.Device>, micId: string, speakerId: string)
    requires start != 0 && |log| > 0
    ensures var (d, ms) := RealtimeChat.SaveRequest(start, endTime, log, tokens, model, inputs, outputs, micId, speakerId);
      && ShownStartAsWritten(d.startTime) == 1000 * ms[0].timestamp
      && ShownStartAsWritten(d.startTime) != ms[0].timestamp
  {
    RealtimeChat.SaveRequestFields(start, endTime, log, tokens, model, inputs, outputs, micId, speakerId);
  }

  /** Read as milliseconds, the shown start of a saved session is the time of
      its first message, and every later message is shown `k` seconds after it. */
  lemma ShownStartIsFirstMessage(start: int, endTime: int, log: seq<RealtimeChat.Utterance>,
                                 tokens: TokenUsage, model: string, inputs: seq<RealtimeChat.Device>,
                                 outputs: seq<RealtimeChat.Device>, micId: string, speakerId: string)
    ensures var (d, ms) := RealtimeChat.SaveRequest(start, endTime, log, tokens, model, inputs, outputs, micId, speakerId);
      forall k :: 0 <= k < |ms| ==> ms[k].timestamp == ShownStart(d.startTime) + k * 1000
  {
    RealtimeChat.SaveRequestFields(start, endTime, log, tokens, model, inputs, outputs, micId, speakerId);
  }
}
