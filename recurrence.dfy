/**
 * The two recurrence patterns of the reminder inputs, as recognisers over
 * the five time fields of a crontab entry (minute, hour, day of month,
 * month, day of week; the crontab INPUT FILES format of POSIX.1-2017).
 *
 * - RequestBody: the pattern the HTTP request body must match: per field
 *   `*`, `*\/n` (the Vixie-cron step extension) or one value in range
 *   written without a leading zero.
 * - AgentTool: the richer pattern of the conversational agent's tool:
 *   per field a comma list of `*`, `*\/n`, `a`, `a-b`, `a/n`, `a-b/n`.
 *
 * Both are anchored: field, whitespace run, field, ..., field.
 */
module Recurrence {
  import opened Js

  datatype Field = Minute | Hour | DayOfMonth | Month | DayOfWeek

  const CronFields: seq<Field> := [Minute, Hour, DayOfMonth, Month, DayOfWeek]

  datatype Grammar = RequestBody | AgentTool

  /** The POSIX range of each field. */
  function Lo(f: Field): nat {
    match f
    case Minute => 0
    case Hour => 0
    case DayOfMonth => 1
    case Month => 1
    case DayOfWeek => 0
  }

  function Hi(f: Field): nat {
    match f
    case Minute => 59
    case Hour => 23
    case DayOfMonth => 31
    case Month => 12
    case DayOfWeek => 6
  }

  /** First index of `c` in `t`, or `|t|` when there is none. */
  function IndexOf(t: string, c: char): (r: nat)
    ensures r <= |t|
    ensures r < |t| ==> t[r] == c
    ensures forall k :: 0 <= k < r ==> t[k] != c
  {
    if t == [] then 0 else if t[0] == c then 0 else 1 + IndexOf(t[1..], c)
  }

  /** `\*\/[0-9]+` */
  predicate StarStep(t: string) {
    |t| >= 3 && t[0] == '*' && t[1] == '/' && AllDigits(t[2..])
  }

  /** `\*(\/[0-9]+)?` */
  predicate StarItem(t: string) {
    t == "*" || StarStep(t)
  }

  // ---------------------------------------------------------------------
  // The request-body pattern

  /** The single-value alternative of each field of the request-body
      pattern: `[0-9]|1[0-9]|...|5[0-9]`, `[0-9]|1[0-9]|2[0-3]`,
      `[1-9]|[12][0-9]|3[01]`, `[1-9]|1[0-2]`, `[0-6]`. */
  predicate BodyValue(f: Field, t: string) {
    match f
    case Minute =>
      || (|t| == 1 && IsDigit(t[0]))
      || (|t| == 2 && '1' <= t[0] <= '5' && IsDigit(t[1]))
    case Hour =>
      || (|t| == 1 && IsDigit(t[0]))
      || (|t| == 2 && t[0] == '1' && IsDigit(t[1]))
      || (|t| == 2 && t[0] == '2' && '0' <= t[1] <= '3')
    case DayOfMonth =>
      || (|t| == 1 && '1' <= t[0] <= '9')
      || (|t| == 2 && (t[0] == '1' || t[0] == '2') && IsDigit(t[1]))
      || (|t| == 2 && t[0] == '3' && (t[1] == '0' || t[1] == '1'))
    case Month =>
      || (|t| == 1 && '1' <= t[0] <= '9')
      || (|t| == 2 && t[0] == '1' && '0' <= t[1] <= '2')
    case DayOfWeek =>
      |t| == 1 && '0' <= t[0] <= '6'
  }

  /** One field of the request-body pattern: `\*`, a value, or `\*\/[0-9]+`. */
  predicate BodyToken(f: Field, t: string) {
    StarItem(t) || BodyValue(f, t)
  }

  // ---------------------------------------------------------------------
  // The agent-tool pattern

  /** The value alternative of each field of the tool pattern:
      `[0-5]?[0-9]`, `[01]?[0-9]|2[0-3]`, `[1-2]?[0-9]|3[01]`,
      `[1-9]|1[0-2]`, `[0-6]`. */
  predicate ToolValue(f: Field, t: string) {
    match f
    case Minute =>
      || (|t| == 1 && IsDigit(t[0]))
      || (|t| == 2 && '0' <= t[0] <= '5' && IsDigit(t[1]))
    case Hour =>
      || (|t| == 1 && IsDigit(t[0]))
      || (|t| == 2 && (t[0] == '0' || t[0] == '1') && IsDigit(t[1]))
      || (|t| == 2 && t[0] == '2' && '0' <= t[1] <= '3')
    case DayOfMonth =>
      || (|t| == 1 && IsDigit(t[0]))
      || (|t| == 2 && (t[0] == '1' || t[0] == '2') && IsDigit(t[1]))
      || (|t| == 2 && t[0] == '3' && (t[1] == '0' || t[1] == '1'))
    case Month =>
      || (|t| == 1 && '1' <= t[0] <= '9')
      || (|t| == 2 && t[0] == '1' && '0' <= t[1] <= '2')
    case DayOfWeek =>
      |t| == 1 && '0' <= t[0] <= '6'
  }

  /** `V(-V)?(\/[0-9]+)?`; values are digits only, so the first `/` starts
      the step and the first `-` splits the range. */
  predicate RangeItem(f: Field, t: string) {
    var p := IndexOf(t, '/');
    var body := t[..p];
    var q := IndexOf(body, '-');
    && (p == |t| || (p + 1 < |t| && AllDigits(t[p + 1..])))
    && ToolValue(f, body[..q])
    && (q == |body| || ToolValue(f, body[q + 1..]))
  }

  /** The element before the first comma: `(\*(\/[0-9]+)?)|V(-V)?(\/[0-9]+)?`. */
  predicate FirstItem(f: Field, t: string) {
    StarItem(t) || RangeItem(f, t)
  }

  /** An element after a comma: `( \*(\/[0-9]+)?)|V(-V)?(\/[0-9]+)?` — a
      star there must carry one leading space. */
  predicate LaterItem(f: Field, t: string) {
    (|t| > 0 && t[0] == ' ' && StarItem(t[1..])) || RangeItem(f, t)
  }

  /** `item(,item')*`, split at commas (no element holds one). */
  predicate ToolList(f: Field, t: string, first: bool)
    decreases |t|
  {
    var c := IndexOf(t, ',');
    && (if first then FirstItem(f, t[..c]) else LaterItem(f, t[..c]))
    && (c == |t| || ToolList(f, t[c + 1..], false))
  }

  predicate Token(g: Grammar, f: Field, t: string) {
    match g
    case RequestBody => BodyToken(f, t)
    case AgentTool => ToolList(f, t, true)
  }

  // ---------------------------------------------------------------------
  // The recogniser

  /** Whitespace at `k` ends a field unless it is the space of a `, *`
      list element (which only the tool pattern has). */
  predicate IsSeparator(s: string, k: nat)
    requires k < |s|
  {
    IsWs(s[k]) && !(s[k] == ' ' && k > 0 && s[k - 1] == ',')
  }

  function SeparatorFrom(s: string, k: nat): (r: nat)
    requires k <= |s|
    ensures k <= r <= |s|
    ensures r < |s| ==> IsSeparator(s, r)
    ensures forall m :: k <= m < r ==> !IsSeparator(s, m)
    decreases |s| - k
  {
    if k == |s| then k else if IsSeparator(s, k) then k else SeparatorFrom(s, k + 1)
  }

  /** Length of the whitespace run `s` starts with (`\s+` is greedy). */
  function WsRun(s: string): (n: nat)
    ensures n <= |s| && AllWs(s[..n])
    ensures n < |s| ==> !IsWs(s[n])
  {
    if |s| > 0 && IsWs(s[0]) then 1 + WsRun(s[1..]) else 0
  }

  /** Scans `s` field by field: the text up to the next separator must be a
      token of the current field, then a whitespace run, then the rest. */
  function Recognise(token: (Field, string) -> bool, s: string, fs: seq<Field>): bool
    requires |fs| > 0
    decreases |fs|
  {
    if |fs| == 1 then token(fs[0], s)
    else
      var k := SeparatorFrom(s, 0);
      && k < |s|
      && token(fs[0], s[..k])
      && Recognise(token, s[k + WsRun(s[k..])..], fs[1..])
  }

  function TokenOf(g: Grammar): (Field, string) -> bool {
    (f, t) => Token(g, f, t)
  }

  /** Whether the whole recurrence string matches the pattern. */
  predicate MatchesRecurrence(g: Grammar, s: string) {
    Recognise(TokenOf(g), s, CronFields)
  }

  // ---------------------------------------------------------------------
  // The reference definition: the pattern read as a concatenation

  /** `F0 \s+ F1 \s+ ... Fn`, anchored at both ends. */
  ghost predicate Concatenation(token: (Field, string) -> bool, s: string, fs: seq<Field>)
    requires |fs| > 0
    decreases |fs|
  {
    if |fs| == 1 then token(fs[0], s)
    else
      exists i, j :: 0 < i < j <= |s|
        && token(fs[0], s[..i]) && AllWs(s[i..j]) && Concatenation(token, s[j..], fs[1..])
  }

  /** What lets a field's end be found without backtracking: a token starts
      and ends with a non-blank, does not end with a comma, and holds no
      separator. */
  ghost predicate Delimited(t: string) {
    && |t| > 0 && !IsWs(t[0]) && !IsWs(t[|t| - 1]) && t[|t| - 1] != ','
    && forall k :: 0 <= k < |t| ==> !IsSeparator(t, k)
  }

  lemma StarItemShape(t: string)
    requires StarItem(t)
    ensures |t| > 0 && t[|t| - 1] != ',' && !IsWs(t[|t| - 1])
    ensures forall k :: 0 <= k < |t| ==> !IsWs(t[k]) && t[k] != ','
  {
    if t != "*" {
      forall k | 2 <= k < |t| ensures IsDigit(t[k]) {
        assert t[k] == t[2..][k - 2];
      }
    }
  }

  lemma ToolValueDigits(f: Field, v: string)
    requires ToolValue(f, v)
    ensures |v| > 0 && AllDigits(v)
  {
  }

  lemma RangeItemShape(f: Field, t: string)
    requires RangeItem(f, t)
    ensures |t| > 0 && t[|t| - 1] != ',' && !IsWs(t[|t| - 1])
    ensures forall k :: 0 <= k < |t| ==> !IsWs(t[k]) && t[k] != ','
  {
    var p := IndexOf(t, '/');
    var body := t[..p];
    var q := IndexOf(body, '-');
    var lo := body[..q];
    ToolValueDigits(f, lo);
    if q < |body| {
      ToolValueDigits(f, body[q + 1..]);
    }
    forall k | 0 <= k < |t| ensures IsDigit(t[k]) || t[k] == '/' || t[k] == '-' {
      if k > p {
        var step := t[p + 1..];
        assert t[k] == step[k - p - 1];
      } else if k < p {
        assert t[k] == body[k];
        if k < q {
          assert body[k] == lo[k];
        } else if k > q {
          var hi := body[q + 1..];
          assert body[k] == hi[k - q - 1];
        }
      }
    }
    if p < |t| {
      var step := t[p + 1..];
      assert t[|t| - 1] == step[|step| - 1];
    } else if q < |body| {
      var hi := body[q + 1..];
      assert t[|t| - 1] == hi[|hi| - 1];
    } else {
      assert t[|t| - 1] == lo[|lo| - 1];
    }
  }

  lemma BodyTokenDelimited(f: Field, t: string)
    requires BodyToken(f, t)
    ensures Delimited(t)
  {
    if StarItem(t) {
      StarItemShape(t);
    }
  }

  /** One list element: no comma, and at most the leading space of `, *`. */
  lemma ItemShape(f: Field, item: string, first: bool)
    requires if first then FirstItem(f, item) else LaterItem(f, item)
    ensures |item| > 0 && item[|item| - 1] != ',' && !IsWs(item[|item| - 1])
    ensures forall k :: 0 <= k < |item| ==> item[k] != ','
    ensures forall k :: 0 <= k < |item| && IsWs(item[k]) ==> k == 0 && item[k] == ' ' && !first
  {
    if StarItem(item) {
      StarItemShape(item);
    } else if RangeItem(f, item) {
      RangeItemShape(f, item);
    } else {
      StarItemShape(item[1..]);
      forall k | 1 <= k < |item| ensures !IsWs(item[k]) && item[k] != ',' {
        assert item[k] == item[1..][k - 1];
      }
      assert item[|item| - 1] == item[1..][|item| - 2];
    }
  }

  /** A list after its first element may start with the space of `, *`;
      every other blank in it directly follows a comma. */
  lemma {:induction false} ToolListShape(f: Field, t: string, first: bool)
    requires ToolList(f, t, first)
    ensures |t| > 0 && t[|t| - 1] != ',' && !IsWs(t[|t| - 1])
    ensures first ==> !IsWs(t[0])
    ensures forall k :: 0 <= k < |t| && IsWs(t[k]) ==>
              t[k] == ' ' && ((k > 0 && t[k - 1] == ',') || (k == 0 && !first))
    decreases |t|
  {
    var c := IndexOf(t, ',');
    var item := t[..c];
    ItemShape(f, item, first);
    assert t[0] == item[0];
    if c < |t| {
      var rest := t[c + 1..];
      ToolListShape(f, rest, false);
      assert t[|t| - 1] == rest[|rest| - 1];
      forall k | 0 <= k < |t| && IsWs(t[k])
        ensures t[k] == ' ' && ((k > 0 && t[k - 1] == ',') || (k == 0 && !first))
      {
        if k > c {
          assert t[k] == rest[k - c - 1];
          if k - c - 1 > 0 {
            assert t[k - 1] == rest[k - c - 2];
          }
        } else {
          assert k < c && t[k] == item[k];
        }
      }
    } else {
      assert t == item;
    }
  }

  ghost predicate TokensDelimited(token: (Field, string) -> bool) {
    forall f, t :: token(f, t) ==> Delimited(t)
  }

  lemma TokenDelimited(g: Grammar)
    ensures TokensDelimited(TokenOf(g))
  {
    forall f, t | TokenOf(g)(f, t) ensures Delimited(t) {
      if g.RequestBody? {
        BodyTokenDelimited(f, t);
      } else {
        ToolListShape(f, t, true);
      }
    }
  }

  lemma {:induction false} ConcatenationStartsSolid(token: (Field, string) -> bool, s: string, fs: seq<Field>)
    requires |fs| > 0 && TokensDelimited(token) && Concatenation(token, s, fs)
    ensures |s| > 0 && !IsWs(s[0])
  {
    if |fs| > 1 {
      var i, j :| 0 < i < j <= |s|
        && token(fs[0], s[..i]) && AllWs(s[i..j]) && Concatenation(token, s[j..], fs[1..]);
      assert Delimited(s[..i]);
    }
  }

  lemma {:induction false} RecogniseSound(token: (Field, string) -> bool, s: string, fs: seq<Field>)
    requires |fs| > 0 && TokensDelimited(token) && Recognise(token, s, fs)
    ensures Concatenation(token, s, fs)
    decreases |fs|
  {
    if |fs| > 1 {
      var k := SeparatorFrom(s, 0);
      var j := k + WsRun(s[k..]);
      assert Delimited(s[..k]);
      assert s[k..][0] == s[k];
      assert AllWs(s[k..j]) by {
        assert s[k..j] == s[k..][..WsRun(s[k..])];
      }
      RecogniseSound(token, s[j..], fs[1..]);
    }
  }

  /** A token followed by whitespace ends exactly where the scanner puts
      the first separator. */
  lemma TokenEndsAtSeparator(s: string, i: nat, j: nat)
    requires 0 < i < j <= |s| && Delimited(s[..i]) && AllWs(s[i..j])
    ensures SeparatorFrom(s, 0) == i
  {
    var t := s[..i];
    forall m | 0 <= m < i ensures !IsSeparator(s, m) {
      assert s[m] == t[m] && !IsSeparator(t, m);
      if m > 0 { assert s[m - 1] == t[m - 1]; }
    }
    assert s[i] == s[i..j][0] && s[i - 1] == t[i - 1];
    assert IsSeparator(s, i);
  }

  /** The greedy whitespace run stops where the next field starts. */
  lemma {:induction false} WsRunStopsAtField(s: string, i: nat, j: nat)
    requires i < j < |s| && AllWs(s[i..j]) && !IsWs(s[j])
    ensures WsRun(s[i..]) == j - i
    decreases j - i
  {
    assert s[i..][0] == s[i] == s[i..j][0];
    assert s[i..][1..] == s[i + 1..];
    if i + 1 < j {
      assert s[i + 1..j] == s[i..j][1..];
      WsRunStopsAtField(s, i + 1, j);
    } else {
      assert s[i + 1..][0] == s[j];
    }
  }

  /** One step of the scanner: a token at the front, then blanks up to the
      next non-blank. */
  lemma RecogniseStep(token: (Field, string) -> bool, s: string, fs: seq<Field>, i: nat, j: nat)
    requires |fs| > 1 && 0 < i < j < |s| && Delimited(s[..i]) && AllWs(s[i..j]) && !IsWs(s[j])
    ensures Recognise(token, s, fs) <==> token(fs[0], s[..i]) && Recognise(token, s[j..], fs[1..])
  {
    TokenEndsAtSeparator(s, i, j);
    WsRunStopsAtField(s, i, j);
  }

  lemma {:induction false} RecogniseComplete(token: (Field, string) -> bool, s: string, fs: seq<Field>)
    requires |fs| > 0 && TokensDelimited(token) && Concatenation(token, s, fs)
    ensures Recognise(token, s, fs)
    decreases |fs|
  {
    if |fs| > 1 {
      var i, j :| 0 < i < j <= |s|
        && token(fs[0], s[..i]) && AllWs(s[i..j]) && Concatenation(token, s[j..], fs[1..]);
      assert Delimited(s[..i]);
      ConcatenationStartsSolid(token, s[j..], fs[1..]);
      assert s[j..][0] == s[j];
      RecogniseComplete(token, s[j..], fs[1..]);
      RecogniseStep(token, s, fs, i, j);
    }
  }

  /** Both recognisers accept exactly the strings their anchored pattern
      describes. */
  lemma RecogniseIsConcatenation(g: Grammar, s: string)
    ensures MatchesRecurrence(g, s) <==> Concatenation(TokenOf(g), s, CronFields)
  {
    TokenDelimited(g);
    if MatchesRecurrence(g, s) { RecogniseSound(TokenOf(g), s, CronFields); }
    if Concatenation(TokenOf(g), s, CronFields) { RecogniseComplete(TokenOf(g), s, CronFields); }
  }

  // ---------------------------------------------------------------------
  // What the single-value alternatives mean

  /** A number below 100 renders as one or two digits. */
  lemma DecimalBelowHundred(n: nat)
    requires n < 100
    ensures n < 10 ==> Decimal(n) == [DigitChar(n)]
    ensures n >= 10 ==> Decimal(n) == [DigitChar(n / 10), DigitChar(n % 10)]
  {
  }

  /** The digits of a one- or two-character value token. */
  function TwoDigitValue(t: string): nat
    requires (|t| == 1 || |t| == 2) && AllDigits(t)
  {
    if |t| == 1 then DigitValue(t[0]) else 10 * DigitValue(t[0]) + DigitValue(t[1])
  }

  /** The request-body pattern admits in each field exactly the decimal
      renderings of the numbers of that field's POSIX range. */
  lemma BodyValueIsRange(f: Field, t: string)
    ensures BodyValue(f, t) <==> exists n :: Lo(f) <= n <= Hi(f) && t == Decimal(n)
  {
    if BodyValue(f, t) {
      BodyValueIsDecimal(f, t);
    }
    if n :| Lo(f) <= n <= Hi(f) && t == Decimal(n) {
      DecimalBelowHundred(n);
    }
  }

  lemma BodyValueIsDecimal(f: Field, t: string)
    requires BodyValue(f, t)
    ensures AllDigits(t) && Lo(f) <= TwoDigitValue(t) <= Hi(f) && t == Decimal(TwoDigitValue(t))
  {
    var n := TwoDigitValue(t);
    DecimalBelowHundred(n);
    if |t| == 2 {
      assert t == [t[0], t[1]];
    }
  }

  /** Fields of the tool pattern that also take one leading zero ("05"). */
  predicate ZeroPadded(f: Field) {
    f == Minute || f == Hour
  }

  /** The lowest value the tool pattern admits: the day-of-month
      alternative `[1-2]?[0-9]` also takes 0. */
  function ToolLo(f: Field): nat {
    if f == DayOfMonth then 0 else Lo(f)
  }

  /** The tool pattern admits in each field the renderings of
      ToolLo(f)..Hi(f), and for minute and hour the zero-padded ones too. */
  lemma ToolValueIsRange(f: Field, t: string)
    ensures ToolValue(f, t) <==>
      exists n :: ToolLo(f) <= n <= Hi(f)
        && (t == Decimal(n) || (ZeroPadded(f) && n < 10 && t == ['0'] + Decimal(n)))
  {
    if ToolValue(f, t) {
      ToolValueIsDecimal(f, t);
    }
    if n :| (ToolLo(f) <= n <= Hi(f)
             && (t == Decimal(n) || (ZeroPadded(f) && n < 10 && t == ['0'] + Decimal(n)))) {
      DecimalBelowHundred(n);
    }
  }

  lemma ToolValueIsDecimal(f: Field, t: string)
    requires ToolValue(f, t)
    ensures var n := TwoDigitValue(t);
      && ToolLo(f) <= n <= Hi(f)
      && (t == Decimal(n) || (ZeroPadded(f) && n < 10 && t == ['0'] + Decimal(n)))
  {
    var n := TwoDigitValue(t);
    DecimalBelowHundred(n);
    if |t| == 2 {
      assert t == [t[0], t[1]];
      if t[0] == '0' {
        assert t == ['0'] + Decimal(n);
      }
    }
  }

  // ---------------------------------------------------------------------
  // The two patterns compared

  lemma BodyTokenIsToolToken(f: Field, t: string)
    requires BodyToken(f, t)
    ensures ToolList(f, t, true)
  {
    if StarItem(t) {
      StarItemShape(t);
    } else {
      assert forall k :: 0 <= k < |t| ==> IsDigit(t[k]);
      assert IndexOf(t, '/') == |t| && IndexOf(t, '-') == |t|;
    }
    assert IndexOf(t, ',') == |t| && t[..|t|] == t;
  }

  /** A recogniser with more tokens accepts more strings. */
  lemma {:induction false} RecogniseMonotone(narrow: (Field, string) -> bool, wide: (Field, string) -> bool, s: string, fs: seq<Field>)
    requires |fs| > 0 && forall f, t :: narrow(f, t) ==> wide(f, t)
    requires Recognise(narrow, s, fs)
    ensures Recognise(wide, s, fs)
    decreases |fs|
  {
    if |fs| > 1 {
      var k := SeparatorFrom(s, 0);
      RecogniseMonotone(narrow, wide, s[k + WsRun(s[k..])..], fs[1..]);
    }
  }

  /** Every recurrence the request body accepts, the agent tool accepts. */
  lemma BodyWithinTool(s: string)
    ensures MatchesRecurrence(RequestBody, s) ==> MatchesRecurrence(AgentTool, s)
  {
    forall f, t | TokenOf(RequestBody)(f, t) ensures TokenOf(AgentTool)(f, t) {
      BodyTokenIsToolToken(f, t);
    }
    if MatchesRecurrence(RequestBody, s) {
      RecogniseMonotone(TokenOf(RequestBody), TokenOf(AgentTool), s, CronFields);
    }
  }

  // ---------------------------------------------------------------------
  // Example strings

  /** Splitting off the first field: what the scanner does, stated on a
      string built as token + blanks + rest. */
  lemma FirstFieldSplits(token: (Field, string) -> bool, t: string, w: string, rest: string, fs: seq<Field>)
    requires |fs| > 1 && Delimited(t) && |w| > 0 && AllWs(w) && |rest| > 0 && !IsWs(rest[0])
    ensures Recognise(token, t + w + rest, fs) <==> token(fs[0], t) && Recognise(token, rest, fs[1..])
  {
    var s := t + w + rest;
    var i, j := |t|, |t| + |w|;
    assert s[..i] == t && s[i..j] == w && s[j..] == rest && s[j] == rest[0];
    RecogniseStep(token, s, fs, i, j);
  }

  /** Five fields written with single spaces between them. */
  lemma FiveFields(token: (Field, string) -> bool, a: string, b: string, c: string, d: string, e: string)
    requires Delimited(a) && Delimited(b) && Delimited(c) && Delimited(d) && |e| > 0 && !IsWs(e[0])
    ensures Recognise(token, a + " " + (b + " " + (c + " " + (d + " " + e))), CronFields) <==>
      token(Minute, a) && token(Hour, b) && token(DayOfMonth, c) && token(Month, d) && token(DayOfWeek, e)
  {
    var r3 := d + " " + e;
    var r2 := c + " " + r3;
    var r1 := b + " " + r2;
    assert AllWs(" ");
    assert r3[0] == d[0] && r2[0] == c[0] && r1[0] == b[0];
    assert CronFields[1..] == [Hour, DayOfMonth, Month, DayOfWeek];
    assert CronFields[2..] == [DayOfMonth, Month, DayOfWeek];
    assert CronFields[3..] == [Month, DayOfWeek];
    FirstFieldSplits(token, d, " ", e, CronFields[3..]);
    assert CronFields[3..][1..] == [DayOfWeek];
    FirstFieldSplits(token, c, " ", r3, CronFields[2..]);
    assert CronFields[2..][1..] == CronFields[3..];
    FirstFieldSplits(token, b, " ", r2, CronFields[1..]);
    assert CronFields[1..][1..] == CronFields[2..];
    FirstFieldSplits(token, a, " ", r1, CronFields);
  }

  /** The pattern is anchored: a leading blank is never accepted. */
  lemma LeadingBlankRejected(g: Grammar, s: string)
    requires |s| > 0 && IsWs(s[0])
    ensures !MatchesRecurrence(g, s)
  {
    TokenDelimited(g);
    assert SeparatorFrom(s, 0) == 0;
    assert !TokenOf(g)(Minute, s[..0]) by { assert !Delimited(s[..0]); }
  }

  lemma {:induction false} TrailingBlankRejectedFrom(token: (Field, string) -> bool, s: string, fs: seq<Field>)
    requires |fs| > 0 && TokensDelimited(token) && |s| > 0 && IsWs(s[|s| - 1])
    ensures !Recognise(token, s, fs)
    decreases |fs|
  {
    if |fs| == 1 {
      assert !Delimited(s);
    } else {
      var k := SeparatorFrom(s, 0);
      if k < |s| {
        var j := k + WsRun(s[k..]);
        var rest := s[j..];
        if |rest| > 0 {
          assert rest[|rest| - 1] == s[|s| - 1];
          TrailingBlankRejectedFrom(token, rest, fs[1..]);
        } else if |fs| > 1 {
          assert !token(fs[1], rest) by { assert !Delimited(rest); }
          if |fs| > 2 {
            assert SeparatorFrom(rest, 0) == 0;
          }
        }
      }
    }
  }

  /** The pattern is anchored: a trailing blank is never accepted. */
  lemma TrailingBlankRejected(g: Grammar, s: string)
    requires |s| > 0 && IsWs(s[|s| - 1])
    ensures !MatchesRecurrence(g, s)
  {
    TokenDelimited(g);
    TrailingBlankRejectedFrom(TokenOf(g), s, CronFields);
  }

  /** A recurrence written with single spaces is accepted exactly when
      each of its five fields is. */
  lemma SingleSpaced(g: Grammar, s: string, a: string, b: string, c: string, d: string, e: string)
    requires s == a + " " + (b + " " + (c + " " + (d + " " + e)))
    requires Delimited(a) && Delimited(b) && Delimited(c) && Delimited(d) && |e| > 0 && !IsWs(e[0])
    ensures MatchesRecurrence(g, s) <==>
      Token(g, Minute, a) && Token(g, Hour, b) && Token(g, DayOfMonth, c) && Token(g, Month, d) && Token(g, DayOfWeek, e)
  {
    FiveFields(TokenOf(g), a, b, c, d, e);
  }

  /** A star is a field of either pattern. */
  lemma StarIsToken(g: Grammar, f: Field)
    ensures Delimited("*") && Token(g, f, "*")
  {
    assert "*"[..1] == "*";
  }

  /** A plain number is a token boundary-wise. */
  lemma DigitsDelimited(t: string)
    requires |t| > 0 && AllDigits(t)
    ensures Delimited(t)
  {
  }

  /** A plain number is a tool-pattern field exactly when it is a value
      of that field. */
  lemma DigitsToolToken(f: Field, t: string)
    requires |t| > 0 && AllDigits(t)
    ensures Token(AgentTool, f, t) <==> ToolValue(f, t)
  {
    assert IndexOf(t, ',') == |t| && IndexOf(t, '/') == |t| && IndexOf(t, '-') == |t|;
    assert t[..|t|] == t;
  }

  /** The accepting half of SingleSpaced, on its own. */
  lemma AcceptedWhenFieldsAre(g: Grammar, s: string, a: string, b: string, c: string, d: string, e: string)
    requires s == a + " " + (b + " " + (c + " " + (d + " " + e)))
    requires Delimited(a) && Delimited(b) && Delimited(c) && Delimited(d) && |e| > 0 && !IsWs(e[0])
    requires Token(g, Minute, a) && Token(g, Hour, b) && Token(g, DayOfMonth, c) && Token(g, Month, d)
    requires Token(g, DayOfWeek, e)
    ensures MatchesRecurrence(g, s)
  {
    SingleSpaced(g, s, a, b, c, d, e);
  }

  lemma BodyAcceptsDaily()
    ensures MatchesRecurrence(RequestBody, "0 9 * * *")
  {
    DigitsDelimited("0");
    DigitsDelimited("9");
    StarIsToken(RequestBody, DayOfMonth);
    StarIsToken(RequestBody, Month);
    StarIsToken(RequestBody, DayOfWeek);
    assert BodyToken(Minute, "0");
    assert BodyToken(Hour, "9");
    SingleSpaced(RequestBody, "0 9 * * *", "0", "9", "*", "*", "*");
  }

  lemma BodyAcceptsStep()
    ensures MatchesRecurrence(RequestBody, "*/15 * * * *")
  {
    assert Delimited("*/15");
    assert BodyToken(Minute, "*/15") by { assert AllDigits("*/15"[2..]); }
    StarIsToken(RequestBody, Hour);
    StarIsToken(RequestBody, DayOfMonth);
    StarIsToken(RequestBody, Month);
    StarIsToken(RequestBody, DayOfWeek);
    SingleSpaced(RequestBody, "*/15 * * * *", "*/15", "*", "*", "*", "*");
  }

  /** Minute 99 is out of range. */
  lemma BodyRejectsMinute99()
    ensures !MatchesRecurrence(RequestBody, "99 * * * *")
  {
    DigitsDelimited("99");
    assert !BodyToken(Minute, "99") by { assert "99"[0] == '9' && !StarItem("99"); }
    StarIsToken(RequestBody, Hour);
    SingleSpaced(RequestBody, "99 * * * *", "99", "*", "*", "*", "*");
  }

  /** Month 0 is out of range. */
  lemma BodyRejectsMonth0()
    ensures !MatchesRecurrence(RequestBody, "0 9 1 0 *")
  {
    DigitsDelimited("0");
    DigitsDelimited("9");
    DigitsDelimited("1");
    assert !BodyToken(Month, "0") by { assert "0"[0] == '0' && !StarItem("0"); }
    SingleSpaced(RequestBody, "0 9 1 0 *", "0", "9", "1", "0", "*");
  }

  /** Month 13 is out of range. */
  lemma BodyRejectsMonth13()
    ensures !MatchesRecurrence(RequestBody, "0 9 1 13 *")
  {
    DigitsDelimited("0");
    DigitsDelimited("9");
    DigitsDelimited("1");
    DigitsDelimited("13");
    assert !BodyToken(Month, "13") by { assert "13"[1] == '3' && !StarItem("13"); }
    SingleSpaced(RequestBody, "0 9 1 13 *", "0", "9", "1", "13", "*");
  }

  /** A weekday range is not part of the request-body pattern. */
  lemma BodyRejectsRange()
    ensures !MatchesRecurrence(RequestBody, "0 9 * * 1-5")
  {
    DigitsDelimited("0");
    DigitsDelimited("9");
    StarIsToken(RequestBody, DayOfMonth);
    assert !BodyToken(DayOfWeek, "1-5") by { assert "1-5"[0] == '1' && !StarItem("1-5"); }
    SingleSpaced(RequestBody, "0 9 * * 1-5", "0", "9", "*", "*", "1-5");
  }

  /** A list is not part of the request-body pattern. */
  lemma BodyRejectsList()
    ensures !MatchesRecurrence(RequestBody, "0 8,20 * * *")
  {
    DigitsDelimited("0");
    assert Delimited("8,20");
    StarIsToken(RequestBody, DayOfMonth);
    assert !BodyToken(Hour, "8,20") by { assert "8,20"[0] == '8' && !StarItem("8,20"); }
    SingleSpaced(RequestBody, "0 8,20 * * *", "0", "8,20", "*", "*", "*");
  }

  /** A leading zero is not part of the request-body pattern. */
  lemma BodyRejectsLeadingZero()
    ensures !MatchesRecurrence(RequestBody, "09 9 * * *")
  {
    DigitsDelimited("09");
    DigitsDelimited("9");
    StarIsToken(RequestBody, DayOfMonth);
    assert !BodyToken(Minute, "09") by { assert "09"[0] == '0' && !StarItem("09"); }
    SingleSpaced(RequestBody, "09 9 * * *", "09", "9", "*", "*", "*");
  }

  /** A plain value is a range item without range or step. */
  lemma ValueIsRangeItem(f: Field, v: string)
    requires ToolValue(f, v)
    ensures |v| > 0 && AllDigits(v) && Delimited(v)
    ensures IndexOf(v, ',') == |v| && RangeItem(f, v)
  {
    ToolValueDigits(f, v);
    assert IndexOf(v, ',') == |v| && IndexOf(v, '/') == |v| && IndexOf(v, '-') == |v|;
    assert v[..|v|] == v;
  }

  /** Two digit strings joined by one non-digit: where that character sits. */
  lemma JoinedDigits(x: string, c: char, y: string)
    requires AllDigits(x) && AllDigits(y) && !IsDigit(c)
    ensures IndexOf(x + [c] + y, c) == |x|
    ensures forall k :: 0 <= k < |x + [c] + y| && k != |x| ==> IsDigit((x + [c] + y)[k])
  {
    var t := x + [c] + y;
    forall k | 0 <= k < |t| && k != |x| ensures IsDigit(t[k]) {
      if k < |x| {
        assert t[k] == x[k];
      } else {
        assert t[k] == y[k - |x| - 1];
      }
    }
    assert t[|x|] == c;
  }

  /** `lo-hi` is a field of the tool pattern for any two values. */
  lemma ValueRangeToken(f: Field, lo: string, hi: string)
    requires ToolValue(f, lo) && ToolValue(f, hi)
    ensures Delimited(lo + "-" + hi) && Token(AgentTool, f, lo + "-" + hi)
  {
    ToolValueDigits(f, lo);
    ToolValueDigits(f, hi);
    var t := lo + "-" + hi;
    JoinedDigits(lo, '-', hi);
    assert t == lo + ['-'] + hi;
    assert IndexOf(t, ',') == |t| && IndexOf(t, '/') == |t| && IndexOf(t, '-') == |lo|;
    assert t[..|t|] == t && t[..|lo|] == lo && t[|lo| + 1..] == hi;
    assert RangeItem(f, t);
  }

  /** `a,b` is a field of the tool pattern for any two values. */
  lemma ValueListToken(f: Field, a: string, b: string)
    requires ToolValue(f, a) && ToolValue(f, b)
    ensures Delimited(a + "," + b) && Token(AgentTool, f, a + "," + b)
  {
    ValueIsRangeItem(f, a);
    ValueIsRangeItem(f, b);
    var t := a + "," + b;
    JoinedDigits(a, ',', b);
    assert t == a + [','] + b;
    assert t[..|a|] == a && t[|a| + 1..] == b;
    assert b[..|b|] == b;
    assert ToolList(f, b, false);
  }

  /** `a, *` is a field of the tool pattern: after a comma a star may come
      with one leading space, which then does not end the field. */
  lemma SpacedStarListToken(f: Field, a: string)
    requires ToolValue(f, a)
    ensures Delimited(a + ", *") && Token(AgentTool, f, a + ", *")
  {
    ValueIsRangeItem(f, a);
    var t := a + ", *";
    forall k | 0 <= k < |t| ensures !IsSeparator(t, k) {
      if k < |a| {
        assert t[k] == a[k];
      } else if k == |a| + 1 {
        assert t[k] == ' ' && t[k - 1] == ',';
      }
    }
    assert t[|a|] == ',';
    var c := IndexOf(t, ',');
    assert forall k :: 0 <= k < |a| ==> t[k] == a[k] && IsDigit(t[k]);
    assert c == |a|;
    assert t[..|a|] == a && t[|a| + 1..] == " *";
    assert IndexOf(" *", ',') == 2 && " *"[..2] == " *" && " *"[1..] == "*";
    assert ToolList(f, " *", false);
  }

  /** A string of digits, `-` and `/` holds no comma and no blank. */
  lemma RangeCharsDelimited(t: string)
    requires |t| > 0 && IsDigit(t[0]) && IsDigit(t[|t| - 1])
    requires forall k :: 0 <= k < |t| ==> IsDigit(t[k]) || t[k] == '-' || t[k] == '/'
    ensures Delimited(t) && IndexOf(t, ',') == |t|
  {
  }

  /** `a/n` is a field of the tool pattern for any value and any step. */
  lemma ValueStepToken(f: Field, a: string, n: string)
    requires ToolValue(f, a) && |n| > 0 && AllDigits(n)
    ensures Delimited(a + "/" + n) && Token(AgentTool, f, a + "/" + n)
  {
    ValueIsRangeItem(f, a);
    var t := a + "/" + n;
    JoinedDigits(a, '/', n);
    assert t == a + ['/'] + n;
    assert t[0] == a[0] && t[|t| - 1] == n[|n| - 1];
    RangeCharsDelimited(t);
    assert t[..|a|] == a && t[|a| + 1..] == n;
    assert a[..|a|] == a && IndexOf(a, '-') == |a|;
    assert RangeItem(f, t);
    assert t[..|t|] == t;
  }

  /** Splitting `x + [c] + y` at its first `c` gives back `x` and `y`
      when `x` holds no `c`. */
  lemma JoinedAt(x: string, c: char, y: string)
    requires forall k :: 0 <= k < |x| ==> x[k] != c
    ensures IndexOf(x + [c] + y, c) == |x|
    ensures (x + [c] + y)[..|x|] == x && (x + [c] + y)[|x| + 1..] == y
  {
    var t := x + [c] + y;
    forall k | 0 <= k < |x| ensures t[k] != c {
      assert t[k] == x[k];
    }
    assert t[|x|] == c;
  }

  /** `lo-hi` holds digits and one `-`, no `/`. */
  lemma RangeChars(lo: string, hi: string)
    requires AllDigits(lo) && AllDigits(hi)
    ensures forall k :: 0 <= k < |lo + "-" + hi| ==> (IsDigit((lo + "-" + hi)[k]) || (lo + "-" + hi)[k] == '-')
  {
    var b := lo + "-" + hi;
    forall k | 0 <= k < |b| ensures IsDigit(b[k]) || b[k] == '-' {
      if k < |lo| {
        assert b[k] == lo[k];
      } else if k > |lo| {
        assert b[k] == hi[k - |lo| - 1];
      }
    }
  }

  /** `lo-hi/n` is a field of the tool pattern for any two values and any
      step. */
  lemma RangeStepToken(f: Field, lo: string, hi: string, n: string)
    requires ToolValue(f, lo) && ToolValue(f, hi) && |n| > 0 && AllDigits(n)
    ensures Delimited(lo + "-" + hi + "/" + n) && Token(AgentTool, f, lo + "-" + hi + "/" + n)
  {
    ToolValueDigits(f, lo);
    ToolValueDigits(f, hi);
    var b := lo + "-" + hi;
    var t := b + "/" + n;
    assert b == lo + ['-'] + hi && t == b + ['/'] + n;
    JoinedAt(lo, '-', hi);
    RangeChars(lo, hi);
    JoinedAt(b, '/', n);
    forall k | 0 <= k < |t| ensures IsDigit(t[k]) || t[k] == '-' || t[k] == '/' {
      if k < |b| {
        assert t[k] == b[k];
      } else if k > |b| {
        assert t[k] == n[k - |b| - 1];
      }
    }
    assert t[0] == lo[0] && t[|t| - 1] == n[|n| - 1];
    RangeCharsDelimited(t);
    assert RangeItem(f, t);
    assert t[..|t|] == t;
  }

  /** Helper for the examples below: their first field, "0". */
  lemma ExampleZeroMinute()
    ensures Delimited("0") && Token(AgentTool, Minute, "0")
  {
    DigitsToolToken(Minute, "0");
  }

  /** Helper for the weekday example: its second field, "9". */
  lemma ExampleNineHour()
    ensures Delimited("9") && Token(AgentTool, Hour, "9")
  {
    DigitsToolToken(Hour, "9");
  }

  /** Helper for the weekday example: where the fields of "0 9 * * W"
      lie, for any weekday field W. */
  lemma ExampleWeekdayLayout(w: string)
    ensures "0 9 * * " + w == "0" + " " + ("9" + " " + ("*" + " " + ("*" + " " + w)))
  {
  }

  /** Helper for the minute examples: where the fields of "M * * * *"
      lie, for any minute field M. */
  lemma ExampleMinuteLayout(m: string)
    ensures m + " * * * *" == m + " " + ("*" + " " + ("*" + " " + ("*" + " " + "*")))
  {
  }

  /** Weekday ranges, such as "0 9 * * 1-5", are accepted by the tool. */
  lemma ToolAcceptsWeekdayRange(lo: string, hi: string)
    requires ToolValue(DayOfWeek, lo) && ToolValue(DayOfWeek, hi)
    ensures MatchesRecurrence(AgentTool, "0 9 * * " + (lo + "-" + hi))
  {
    var e := lo + "-" + hi;
    ValueRangeToken(DayOfWeek, lo, hi);
    ExampleZeroMinute();
    ExampleNineHour();
    StarIsToken(AgentTool, DayOfMonth);
    StarIsToken(AgentTool, Month);
    ExampleWeekdayLayout(e);
    AcceptedWhenFieldsAre(AgentTool, "0 9 * * " + e, "0", "9", "*", "*", e);
  }

  /** Helper for the hour-list example: where the fields of "0 H * * *"
      lie, for any hour field H. */
  lemma ExampleHourLayout(h: string)
    ensures "0 " + h + " * * *" == "0" + " " + (h + " " + ("*" + " " + ("*" + " " + "*")))
  {
  }

  /** Hour lists, such as "0 8,20 * * *", are accepted by the tool. */
  lemma ToolAcceptsHourList(a: string, b: string)
    requires ToolValue(Hour, a) && ToolValue(Hour, b)
    ensures MatchesRecurrence(AgentTool, "0 " + (a + "," + b) + " * * *")
  {
    var h := a + "," + b;
    ValueListToken(Hour, a, b);
    ExampleZeroMinute();
    StarIsToken(AgentTool, DayOfMonth);
    StarIsToken(AgentTool, Month);
    StarIsToken(AgentTool, DayOfWeek);
    ExampleHourLayout(h);
    AcceptedWhenFieldsAre(AgentTool, "0 " + h + " * * *", "0", h, "*", "*", "*");
  }

  /** After a comma a star may follow with one leading space: in
      "0, * * * * *" the first field is "0, *". */
  lemma ToolAcceptsSpacedStar(a: string)
    requires ToolValue(Minute, a)
    ensures MatchesRecurrence(AgentTool, (a + ", *") + " * * * *")
  {
    var m := a + ", *";
    SpacedStarListToken(Minute, a);
    StarIsToken(AgentTool, Hour);
    StarIsToken(AgentTool, DayOfMonth);
    StarIsToken(AgentTool, Month);
    StarIsToken(AgentTool, DayOfWeek);
    ExampleMinuteLayout(m);
    AcceptedWhenFieldsAre(AgentTool, m + " * * * *", m, "*", "*", "*", "*");
  }

  /** A stepped minute value, such as "0/15 * * * *", is accepted by the
      tool. */
  lemma ToolAcceptsValueStep(a: string, n: string)
    requires ToolValue(Minute, a) && |n| > 0 && AllDigits(n)
    ensures MatchesRecurrence(AgentTool, (a + "/" + n) + " * * * *")
  {
    var m := a + "/" + n;
    ValueStepToken(Minute, a, n);
    StarIsToken(AgentTool, Hour);
    StarIsToken(AgentTool, DayOfMonth);
    StarIsToken(AgentTool, Month);
    StarIsToken(AgentTool, DayOfWeek);
    ExampleMinuteLayout(m);
    AcceptedWhenFieldsAre(AgentTool, m + " * * * *", m, "*", "*", "*", "*");
  }

  /** Helper for the range-step example: where the fields of
      "0 H * * W" lie, for any hour field H and weekday field W. */
  lemma ExampleHourWeekdayLayout(h: string, w: string)
    ensures "0 " + h + " * * " + w == "0" + " " + (h + " " + ("*" + " " + ("*" + " " + w)))
  {
  }

  /** A stepped hour range on a weekday range, such as
      "0 9-17/2 * * 1-5", is accepted by the tool. */
  lemma ToolAcceptsRangeStep(lo: string, hi: string, n: string, wlo: string, whi: string)
    requires ToolValue(Hour, lo) && ToolValue(Hour, hi) && |n| > 0 && AllDigits(n)
    requires ToolValue(DayOfWeek, wlo) && ToolValue(DayOfWeek, whi)
    ensures MatchesRecurrence(AgentTool, "0 " + (lo + "-" + hi + "/" + n) + " * * " + (wlo + "-" + whi))
  {
    var h := lo + "-" + hi + "/" + n;
    var w := wlo + "-" + whi;
    RangeStepToken(Hour, lo, hi, n);
    ValueRangeToken(DayOfWeek, wlo, whi);
    ExampleZeroMinute();
    StarIsToken(AgentTool, DayOfMonth);
    StarIsToken(AgentTool, Month);
    ExampleHourWeekdayLayout(h, w);
    AcceptedWhenFieldsAre(AgentTool, "0 " + h + " * * " + w, "0", h, "*", "*", w);
  }

  /** Helper for the workday example: where "0 9-17/2 * * 1-5" splits
      into its parts. */
  lemma ExampleWorkdayLayout()
    ensures "0 " + ("9" + "-" + "17" + "/" + "2") + " * * " + ("1" + "-" + "5") == "0 9-17/2 * * 1-5"
  {
  }

  /** Every second hour from 9 to 17 on weekdays. */
  lemma ToolAcceptsWorkdayEveryTwoHours()
    ensures MatchesRecurrence(AgentTool, "0 9-17/2 * * 1-5")
  {
    assert ToolValue(Hour, "17") by { assert "17"[0] == '1' && "17"[1] == '7'; }
    ToolAcceptsRangeStep("9", "17", "2", "1", "5");
    ExampleWorkdayLayout();
  }

  /** The day-of-month alternative of the tool pattern takes 0. */
  lemma ToolAcceptsDayZero()
    ensures MatchesRecurrence(AgentTool, "0 0 0 * *")
  {
    DigitsDelimited("0");
    DigitsToolToken(Minute, "0");
    DigitsToolToken(Hour, "0");
    DigitsToolToken(DayOfMonth, "0");
    StarIsToken(AgentTool, Month);
    StarIsToken(AgentTool, DayOfWeek);
    assert Token(AgentTool, Minute, "0") && Token(AgentTool, Hour, "0") && Token(AgentTool, DayOfMonth, "0");
    SingleSpaced(AgentTool, "0 0 0 * *", "0", "0", "0", "*", "*");
  }

  lemma BareStarIsNoToolToken()
    ensures !ToolList(Minute, "0,*", true)
  {
    assert IndexOf("0,*", ',') == 1 && "0,*"[2..] == "*";
    assert IndexOf("*", ',') == 1 && "*"[..1] == "*";
    assert IndexOf("*", '/') == 1 && IndexOf("*", '-') == 1;
  }

  /** After a comma a star without the leading space is rejected. */
  lemma ToolRejectsBareStar()
    ensures !MatchesRecurrence(AgentTool, "0,* * * * *")
  {
    BareStarIsNoToolToken();
    assert Delimited("0,*");
    StarIsToken(AgentTool, Hour);
    SingleSpaced(AgentTool, "0,* * * * *", "0,*", "*", "*", "*", "*");
  }

  /** Weekday 7 is outside the tool pattern. */
  lemma ToolRejectsWeekday7()
    ensures !MatchesRecurrence(AgentTool, "0 0 * * 7")
  {
    DigitsDelimited("0");
    DigitsToolToken(DayOfWeek, "7");
    assert !ToolValue(DayOfWeek, "7") by { assert "7"[0] == '7'; }
    StarIsToken(AgentTool, DayOfMonth);
    SingleSpaced(AgentTool, "0 0 * * 7", "0", "0", "*", "*", "7");
  }

  /** Month 13 is outside the tool pattern. */
  lemma ToolRejectsMonth13()
    ensures !MatchesRecurrence(AgentTool, "0 0 * 13 *")
  {
    DigitsDelimited("0");
    DigitsDelimited("13");
    DigitsToolToken(Month, "13");
    assert !ToolValue(Month, "13") by { assert "13"[1] == '3'; }
    StarIsToken(AgentTool, DayOfMonth);
    SingleSpaced(AgentTool, "0 0 * 13 *", "0", "0", "*", "13", "*");
  }
}
