/** Scanners over spoken tokens: redacting phone-shaped runs, and finding a phone number the caller said. */
module Spoken {

  const MIN_PHONE_DIGITS := 7
  /** One word of the text, and how many digits it stands for. */
  datatype Token = Token(text: string, digits: nat)

  const PHONE := Token("[phone]", 0)

  const DIGIT_WORDS := {"zero", "oh", "one", "two", "three", "four", "five", "six", "seven", "eight", "nine"}

  function Bare(text: string): string {
    if text == "" then ""
    else
      var c := if 'A' <= text[0] <= 'Z' then text[0] - 'A' + 'a' else text[0];
      (if 'a' <= c <= 'z' || '0' <= c <= '9' then [c] else "") + Bare(text[1..])
  }

  function DigitCount(bare: string): nat {
    if bare == "" then 0 else (if '0' <= bare[0] <= '9' then 1 else 0) + DigitCount(bare[1..])
  }

  function Read(text: string): Token {
    Token(text, if Bare(text) in DIGIT_WORDS then 1 else DigitCount(Bare(text)))
  }

  // ---------------------------------------------------------------- redaction

  ghost predicate AllDigits(ts: seq<Token>) {
    forall i :: 0 <= i < |ts| ==> ts[i].digits > 0
  }

  function Sum(ts: seq<Token>): nat {
    if ts == [] then 0 else ts[0].digits + Sum(ts[1..])
  }

  /** The length of the longest leading run of digit-bearing tokens. */
  function RunLength(ts: seq<Token>): (n: nat)
    ensures n <= |ts|
  {
    if ts == [] || ts[0].digits == 0 then 0 else 1 + RunLength(ts[1..])
  }

  function Flushed(run: seq<Token>): seq<Token> {
    if Sum(run) >= MIN_PHONE_DIGITS then [PHONE] else run
  }

  /** Every maximal digit-bearing run of at least seven digits becomes one mark; every other token stays. */
  function Redacted(ts: seq<Token>): seq<Token>
    decreases |ts|
  {
    var n := RunLength(ts);
    if n == |ts| then Flushed(ts)
    else Flushed(ts[..n]) + [ts[n]] + Redacted(ts[n + 1..])
  }

  lemma {:induction false} RunLengthIs(run: seq<Token>, rest: seq<Token>)
    requires AllDigits(run) && (rest != [] ==> rest[0].digits == 0)
    ensures RunLength(run + rest) == |run|
  {
    if run == [] {
      assert run + rest == rest;
    } else {
      assert (run + rest)[1..] == run[1..] + rest;
      RunLengthIs(run[1..], rest);
    }
  }

  lemma RedactedAt(run: seq<Token>, t: Token, rest: seq<Token>)
    requires AllDigits(run) && t.digits == 0
    ensures Redacted(run + [t] + rest) == Flushed(run) + [t] + Redacted(rest)
  {
    var ts := run + ([t] + rest);
    RunLengthIs(run, [t] + rest);
    assert run + [t] + rest == ts;
    assert ts[..|run|] == run && ts[|run| + 1..] == rest;
  }

  lemma {:induction false} SumAppend(run: seq<Token>, t: Token)
    ensures Sum(run + [t]) == Sum(run) + t.digits
  {
    if run == [] {
      assert run + [t] == [t];
    } else {
      assert (run + [t])[1..] == run[1..] + [t];
      SumAppend(run[1..], t);
    }
  }

  function Flush(out: seq<Token>, run: seq<Token>, runDigits: nat): seq<Token> {
    if runDigits >= MIN_PHONE_DIGITS then out + [PHONE] else out + run
  }

  /** What the sweep returns when it goes on at token `i` with this output, pending run and count. */
  ghost function Swept(ts: seq<Token>, i: nat, out: seq<Token>, run: seq<Token>, runDigits: nat): seq<Token>
    requires i <= |ts|
    decreases |ts| - i
  {
    if i == |ts| then Flush(out, run, runDigits)
    else if ts[i].digits > 0 then Swept(ts, i + 1, out, run + [ts[i]], runDigits + ts[i].digits)
    else Swept(ts, i + 1, Flush(out, run, runDigits) + [ts[i]], [], 0)
  }

  lemma Associates(a: seq<Token>, b: seq<Token>, c: seq<Token>, d: seq<Token>)
    ensures a + (b + c + d) == a + b + c + d
    ensures a + (b + c) == a + b + c && [] + c == c
  {
  }

  lemma PlainStep(out: seq<Token>, run: seq<Token>, t: Token, next: seq<Token>)
    requires AllDigits(run) && t.digits == 0
    ensures out + Redacted(run + ([t] + next)) == Flush(out, run, Sum(run)) + [t] + Redacted(next)
  {
    Associates(run, [t], next, []);
    RedactedAt(run, t, next);
    Associates(out, Flushed(run), [t], Redacted(next));
  }

  lemma DigitStep(run: seq<Token>, t: Token, next: seq<Token>)
    requires AllDigits(run) && t.digits > 0
    ensures AllDigits(run + [t]) && Sum(run + [t]) == Sum(run) + t.digits
    ensures run + ([t] + next) == run + [t] + next
  {
    SumAppend(run, t);
    Associates(run, [t], next, []);
  }

  lemma EndStep(out: seq<Token>, run: seq<Token>)
    requires AllDigits(run)
    ensures out + Redacted(run + []) == Flush(out, run, Sum(run))
  {
    RedactedRun(run);
    assert run + [] == run;
  }

  lemma {:induction false} SweptIs(ts: seq<Token>, i: nat, out: seq<Token>, run: seq<Token>, rest: seq<Token>)
    requires i <= |ts| && AllDigits(run) && rest == ts[i..]
    ensures Swept(ts, i, out, run, Sum(run)) == out + Redacted(run + rest)
    decreases |ts| - i
  {
    if i == |ts| {
      EndStep(out, run);
    } else {
      var t, next := ts[i], ts[i + 1..];
      assert rest == [t] + next;
      if t.digits == 0 {
        PlainStep(out, run, t, next);
        SweptIs(ts, i + 1, Flush(out, run, Sum(run)) + [t], [], next);
        Associates([], [], next, []);
      } else {
        DigitStep(run, t, next);
        SweptIs(ts, i + 1, out, run + [t], next);
      }
    }
  }

  /** The redactor's token pass: one sweep with a pending run and its digit count. */
  method RedactTokens(tokens: seq<Token>) returns (out: seq<Token>)
    ensures out == Redacted(tokens)
  {
    out := [];
    var run: seq<Token> := [];
    var runDigits: nat := 0;
    for i := 0 to |tokens|
      invariant Swept(tokens, i, out, run, runDigits) == Swept(tokens, 0, [], [], 0)
    {
      var token := tokens[i];
      if token.digits > 0 {
        run := run + [token];
        runDigits := runDigits + token.digits;
      } else {
        out := Flush(out, run, runDigits) + [token];
        run, runDigits := [], 0;
      }
    }
    out := Flush(out, run, runDigits);
    SweptIs(tokens, 0, [], [], tokens);
    assert [] + tokens == tokens;
  }

  /** No stretch of digit-bearing tokens carries seven digits or more. */
  ghost predicate NoPhone(ts: seq<Token>) {
    forall a, b {:trigger NoPhoneRun(ts[a..b])} :: 0 <= a <= b <= |ts| ==> NoPhoneRun(ts[a..b])
  }

  ghost predicate NoPhoneRun(run: seq<Token>) {
    AllDigits(run) ==> Sum(run) < 7
  }

  lemma {:induction false} SumConcat(a: seq<Token>, b: seq<Token>)
    ensures Sum(a + b) == Sum(a) + Sum(b)
  {
    if a == [] {
      assert a + b == b;
    } else {
      assert (a + b)[1..] == a[1..] + b;
      SumConcat(a[1..], b);
    }
  }

  lemma RunPrefix(ts: seq<Token>)
    ensures AllDigits(ts[..RunLength(ts)])
    ensures RunLength(ts) < |ts| ==> ts[RunLength(ts)].digits == 0
  {
    if ts != [] && ts[0].digits > 0 {
      RunPrefix(ts[1..]);
      var n := RunLength(ts);
      assert forall i :: 0 < i < n ==> ts[..n][i] == ts[1..][..n - 1][i - 1];
    }
  }

  lemma CutInThree(ts: seq<Token>, a: nat, b: nat)
    requires a <= b <= |ts|
    ensures ts == ts[..a] + (ts[a..b] + ts[b..])
  {
  }

  /** A part of a run carries no more digits than the run. */
  lemma PartOfRun(ts: seq<Token>, a: nat, b: nat)
    requires a <= b <= |ts|
    ensures Sum(ts[a..b]) <= Sum(ts)
  {
    var front, part, back := ts[..a], ts[a..b], ts[b..];
    CutInThree(ts, a, b);
    SumConcat(front, part + back);
    SumConcat(part, back);
  }

  /** A stretch without phones, a plain token, and another such stretch make one. */
  lemma NoPhoneJoins(left: seq<Token>, t: Token, right: seq<Token>)
    requires NoPhone(left) && NoPhone(right) && t.digits == 0
    ensures NoPhone(left + [t] + right)
  {
    var ts := left + [t] + right;
    var m := |left|;
    forall a, b | 0 <= a <= b <= |ts|
      ensures NoPhoneRun(ts[a..b])
    {
      if b <= m {
        assert ts[a..b] == left[a..b];
      } else if m < a {
        assert ts[a..b] == right[a - m - 1..b - m - 1];
      } else {
        assert ts[a..b][m - a] == t;
      }
    }
  }

  lemma FlushedHasNoPhone(run: seq<Token>)
    requires AllDigits(run)
    ensures NoPhone(Flushed(run))
  {
    var out := Flushed(run);
    forall a, b | 0 <= a <= b <= |out|
      ensures NoPhoneRun(out[a..b])
    {
      if out == [PHONE] && a < b {
        assert out[a..b][0] == PHONE;
      } else if out == [PHONE] {
        assert out[a..b] == [];
      } else {
        PartOfRun(run, a, b);
      }
    }
  }

  /** After redaction no phone-shaped run is left anywhere. */
  lemma {:induction false} RedactedHasNoPhone(ts: seq<Token>)
    ensures NoPhone(Redacted(ts))
    decreases |ts|
  {
    var n := RunLength(ts);
    RunPrefix(ts);
    if n == |ts| {
      assert ts[..n] == ts;
      FlushedHasNoPhone(ts);
    } else {
      FlushedHasNoPhone(ts[..n]);
      RedactedHasNoPhone(ts[n + 1..]);
      NoPhoneJoins(Flushed(ts[..n]), ts[n], Redacted(ts[n + 1..]));
    }
  }

  lemma NoPhoneSuffix(ts: seq<Token>, from: nat)
    requires NoPhone(ts) && from <= |ts|
    ensures NoPhone(ts[from..])
  {
    var rest := ts[from..];
    forall a, b | 0 <= a <= b <= |rest|
      ensures NoPhoneRun(rest[a..b])
    {
      assert rest[a..b] == ts[from + a..from + b];
    }
  }

  lemma NoPhonePrefix(ts: seq<Token>, n: nat)
    requires NoPhone(ts) && n <= |ts|
    ensures NoPhoneRun(ts[..n])
  {
    assert ts[0..n] == ts[..n];
  }

  /** A run short of seven digits, then a plain word, then text that is left alone. */
  lemma UnchangedAt(run: seq<Token>, t: Token, rest: seq<Token>)
    requires AllDigits(run) && NoPhoneRun(run) && t.digits == 0 && Redacted(rest) == rest
    ensures Redacted(run + [t] + rest) == run + [t] + rest
  {
    RedactedAt(run, t, rest);
  }

  lemma RedactedRun(run: seq<Token>)
    requires AllDigits(run)
    ensures Redacted(run) == Flushed(run)
  {
    RunLengthIs(run, []);
    assert run + [] == run;
  }

  lemma CutAt(ts: seq<Token>, n: nat)
    requires n < |ts|
    ensures ts == ts[..n] + [ts[n]] + ts[n + 1..]
  {
  }

  lemma WholeCut(ts: seq<Token>)
    ensures ts[..|ts|] == ts
  {
  }

  /** Text without a phone-shaped run is left exactly as it was. */
  lemma {:induction false} NoPhoneUnchanged(ts: seq<Token>)
    requires NoPhone(ts)
    ensures Redacted(ts) == ts
    decreases |ts|
  {
    var n := RunLength(ts);
    var run := ts[..n];
    RunPrefix(ts);
    NoPhonePrefix(ts, n);
    if n < |ts| {
      NoPhoneSuffix(ts, n + 1);
      NoPhoneUnchanged(ts[n + 1..]);
      UnchangedAt(run, ts[n], ts[n + 1..]);
      CutAt(ts, n);
    } else {
      RedactedRun(run);
      WholeCut(ts);
    }
  }

  /** Redaction is exact: it changes a text if and only if the text holds a phone-shaped run. */
  lemma RedactsIffPhone(ts: seq<Token>)
    ensures Redacted(ts) == ts <==> NoPhone(ts)
  {
    RedactedHasNoPhone(ts);
    if NoPhone(ts) {
      NoPhoneUnchanged(ts);
    }
  }

  lemma RedactionIsIdempotent(ts: seq<Token>)
    ensures Redacted(Redacted(ts)) == Redacted(ts)
  {
    RedactedHasNoPhone(ts);
    NoPhoneUnchanged(Redacted(ts));
  }

  // ---------------------------------------------------------------- what becomes of each token

  /** `ts[a..b]` is a maximal stretch of digit-bearing tokens with digits enough for a phone number. */
  ghost predicate PhoneRun(ts: seq<Token>, a: nat, b: nat) {
    && a < b <= |ts| && AllDigits(ts[a..b]) && Sum(ts[a..b]) >= 7
    && (a > 0 ==> ts[a - 1].digits == 0) && (b < |ts| ==> ts[b].digits == 0)
  }

  ghost predicate InPhoneRun(ts: seq<Token>, i: nat) {
    exists a: nat, b: nat :: a <= i < b && PhoneRun(ts, a, b)
  }

  /** What output token `t` stands for in `ts[a..b]`: a whole phone run, or one token that is in none. */
  ghost predicate StandsFor(ts: seq<Token>, t: Token, a: nat, b: nat) {
    if b == a + 1 && a < |ts| && !InPhoneRun(ts, a) then t == ts[a] else t == PHONE && PhoneRun(ts, a, b)
  }

  /** `at` cuts the input from `from` to its end into the stretches that the output tokens stand for, in order. */
  ghost predicate Traces(ts: seq<Token>, from: nat, out: seq<Token>, at: seq<nat>) {
    && |at| == |out| + 1 && at[0] == from && at[|out|] == |ts|
    && forall k :: 0 <= k < |out| ==> at[k] < at[k + 1] && StandsFor(ts, out[k], at[k], at[k + 1])
  }

  lemma RunInside(ts: seq<Token>, a: nat, b: nat, i: nat)
    requires PhoneRun(ts, a, b) && a <= i < b
    ensures ts[i].digits > 0
  {
    assert ts[a..b][i - a] == ts[i];
  }

  /** Between two tokens without digits a phone run that holds one token of the stretch is the whole stretch. */
  lemma OnlyRun(ts: seq<Token>, p: nat, e: nat, i: nat, a: nat, b: nat)
    requires p <= i < e <= |ts| && (p > 0 ==> ts[p - 1].digits == 0) && (e < |ts| ==> ts[e].digits == 0)
    requires forall k :: p <= k < e ==> ts[k].digits > 0
    requires PhoneRun(ts, a, b) && a <= i < b
    ensures a == p && b == e
  {
    if a < p {
      RunInside(ts, a, b, p - 1);
    }
    if e < b {
      RunInside(ts, a, b, e);
    }
  }

  /** One more input stretch in front of a trace. */
  lemma TraceFront(ts: seq<Token>, a: nat, b: nat, t: Token, out: seq<Token>, at: seq<nat>)
    requires a < b && StandsFor(ts, t, a, b) && Traces(ts, b, out, at)
    ensures Traces(ts, a, [t] + out, [a] + at)
  {
    forall k | 0 <= k < |out| + 1
      ensures ([a] + at)[k] < ([a] + at)[k + 1] && StandsFor(ts, ([t] + out)[k], ([a] + at)[k], ([a] + at)[k + 1])
    {
      if k > 0 {
        assert at[k - 1] < at[k] && StandsFor(ts, out[k - 1], at[k - 1], at[k]);
      }
    }
  }

  /** Tokens that are in no phone run, one by one in front of a trace. */
  lemma {:induction false} TraceTokens(ts: seq<Token>, p: nat, e: nat, out: seq<Token>, at: seq<nat>) returns (at': seq<nat>)
    requires p <= e <= |ts| && Traces(ts, e, out, at)
    requires forall i :: p <= i < e ==> !InPhoneRun(ts, i)
    ensures Traces(ts, p, ts[p..e] + out, at')
    decreases e - p
  {
    if p == e {
      assert ts[p..e] + out == out;
      return at;
    }
    var more := TraceTokens(ts, p + 1, e, out, at);
    TraceFront(ts, p, p + 1, ts[p], ts[p + 1..e] + out, more);
    assert [ts[p]] + (ts[p + 1..e] + out) == ts[p..e] + out;
    return [p] + more;
  }

  /** The stretch `ts[p..e]` of digit-bearing tokens, as it is flushed, in front of a trace. */
  lemma TraceRun(ts: seq<Token>, p: nat, e: nat, out: seq<Token>, at: seq<nat>) returns (at': seq<nat>)
    requires p <= e <= |ts| && Traces(ts, e, out, at)
    requires (p > 0 ==> ts[p - 1].digits == 0) && (e < |ts| ==> ts[e].digits == 0) && AllDigits(ts[p..e])
    ensures Traces(ts, p, Flushed(ts[p..e]) + out, at')
  {
    forall k | p <= k < e
      ensures ts[k].digits > 0
    {
      assert ts[p..e][k - p] == ts[k];
    }
    if Sum(ts[p..e]) >= MIN_PHONE_DIGITS {
      assert PhoneRun(ts, p, e);
      TraceFront(ts, p, e, PHONE, out, at);
      return [p] + at;
    }
    forall i | p <= i < e
      ensures !InPhoneRun(ts, i)
    {
      forall a: nat, b: nat | a <= i < b && PhoneRun(ts, a, b)
        ensures false
      {
        OnlyRun(ts, p, e, i, a, b);
      }
    }
    at' := TraceTokens(ts, p, e, out, at);
  }

  /** The first token without digits from `p` on, or the end. */
  function Break(ts: seq<Token>, p: nat): (e: nat)
    requires p <= |ts|
    ensures p <= e <= |ts|
    decreases |ts| - p
  {
    if p == |ts| || ts[p].digits == 0 then p else Break(ts, p + 1)
  }

  lemma {:induction false} BreakIs(ts: seq<Token>, p: nat)
    requires p <= |ts|
    ensures forall i :: p <= i < Break(ts, p) ==> ts[i].digits > 0
    ensures Break(ts, p) < |ts| ==> ts[Break(ts, p)].digits == 0
    decreases |ts| - p
  {
    if p < |ts| && ts[p].digits > 0 {
      BreakIs(ts, p + 1);
    }
  }

  /** The redaction of the text from `p` on, by positions. */
  function RedactedFrom(ts: seq<Token>, p: nat): seq<Token>
    requires p <= |ts|
    decreases |ts| - p
  {
    var e := Break(ts, p);
    if e == |ts| then Flushed(ts[p..e]) else Flushed(ts[p..e]) + [ts[e]] + RedactedFrom(ts, e + 1)
  }

  lemma RunBeforeBreak(ts: seq<Token>, p: nat)
    requires p <= |ts|
    ensures AllDigits(ts[p..Break(ts, p)])
  {
    BreakIs(ts, p);
  }

  lemma SuffixAtBreak(ts: seq<Token>, p: nat, e: nat)
    requires p <= e <= |ts|
    ensures if e == |ts| then ts[p..] == ts[p..e] else ts[p..] == ts[p..e] + [ts[e]] + ts[e + 1..]
  {
  }

  lemma {:induction false} RedactedFromIs(ts: seq<Token>, p: nat)
    requires p <= |ts|
    ensures RedactedFrom(ts, p) == Redacted(ts[p..])
    decreases |ts| - p
  {
    var e := Break(ts, p);
    BreakIs(ts, p);
    RunBeforeBreak(ts, p);
    SuffixAtBreak(ts, p, e);
    if e == |ts| {
      RedactedRun(ts[p..e]);
    } else {
      RedactedFromIs(ts, e + 1);
      RedactedAt(ts[p..e], ts[e], ts[e + 1..]);
    }
  }

  lemma {:induction false} TracesFrom(ts: seq<Token>, p: nat) returns (at: seq<nat>)
    requires p <= |ts| && (p > 0 ==> ts[p - 1].digits == 0)
    ensures Traces(ts, p, RedactedFrom(ts, p), at)
    decreases |ts| - p
  {
    var e := Break(ts, p);
    BreakIs(ts, p);
    RunBeforeBreak(ts, p);
    var tail, rest := [], [];
    if e < |ts| {
      tail := RedactedFrom(ts, e + 1);
      rest := TracesFrom(ts, e + 1);
    }
    at := TraceOn(ts, p, e, tail, rest);
  }

  /**
   * The redaction token by token. The output cuts the text into consecutive stretches: each mark stands for
   * one whole phone run, and every token outside those runs stands for itself, so nothing else is lost,
   * moved or changed, short digit runs included.
   */
  lemma RedactionTraces(ts: seq<Token>) returns (at: seq<nat>)
    ensures Traces(ts, 0, Redacted(ts), at)
  {
    RedactedFromIs(ts, 0);
    assert ts[0..] == ts;
    at := TracesFrom(ts, 0);
  }

  /** From one break to the next: the stretch before the break, the token at it, and the trace behind it. */
  lemma TraceOn(ts: seq<Token>, p: nat, e: nat, tail: seq<Token>, rest: seq<nat>) returns (at: seq<nat>)
    requires p <= e <= |ts| && (p > 0 ==> ts[p - 1].digits == 0) && AllDigits(ts[p..e])
    requires e < |ts| ==> ts[e].digits == 0 && Traces(ts, e + 1, tail, rest)
    ensures Traces(ts, p, if e == |ts| then Flushed(ts[p..e]) else Flushed(ts[p..e]) + [ts[e]] + tail, at)
  {
    if e == |ts| {
      at := TraceLast(ts, p);
    } else {
      at := TraceBreak(ts, p, e, tail, rest);
    }
  }

  lemma TraceLast(ts: seq<Token>, p: nat) returns (at: seq<nat>)
    requires p <= |ts| && (p > 0 ==> ts[p - 1].digits == 0) && AllDigits(ts[p..|ts|])
    ensures Traces(ts, p, Flushed(ts[p..|ts|]), at)
  {
    at := TraceRun(ts, p, |ts|, [], [|ts|]);
    assert Flushed(ts[p..|ts|]) + [] == Flushed(ts[p..|ts|]);
  }

  /** A stretch of digit-bearing tokens and the token without digits behind it, in front of a trace. */
  lemma TraceBreak(ts: seq<Token>, p: nat, e: nat, tail: seq<Token>, rest: seq<nat>) returns (at: seq<nat>)
    requires p <= e < |ts| && (p > 0 ==> ts[p - 1].digits == 0) && ts[e].digits == 0 && AllDigits(ts[p..e])
    requires Traces(ts, e + 1, tail, rest)
    ensures Traces(ts, p, Flushed(ts[p..e]) + [ts[e]] + tail, at)
  {
    PlainTokenInNoRun(ts, e);
    TraceFront(ts, e, e + 1, ts[e], tail, rest);
    at := TraceRun(ts, p, e, [ts[e]] + tail, [e] + rest);
    Associates(Flushed(ts[p..e]), [ts[e]], tail, []);
  }

  lemma PlainTokenInNoRun(ts: seq<Token>, i: nat)
    requires i < |ts| && ts[i].digits == 0
    ensures !InPhoneRun(ts, i)
  {
    forall a: nat, b: nat | a <= i < b && PhoneRun(ts, a, b)
      ensures false
    {
      RunInside(ts, a, b, i);
    }
  }

  /** The tokens that carry no digits, marks aside, in order. */
  function Plain(ts: seq<Token>): seq<Token> {
    if ts == [] then []
    else (if ts[0].digits == 0 && ts[0] != PHONE then [ts[0]] else []) + Plain(ts[1..])
  }

  lemma {:induction false} PlainConcat(a: seq<Token>, b: seq<Token>)
    ensures Plain(a + b) == Plain(a) + Plain(b)
  {
    if a == [] {
      assert a + b == b;
    } else {
      assert (a + b)[1..] == a[1..] + b;
      PlainConcat(a[1..], b);
    }
  }

  lemma {:induction false} PlainOfRun(run: seq<Token>)
    requires AllDigits(run)
    ensures Plain(run) == []
  {
    if run != [] {
      PlainOfRun(run[1..]);
    }
  }

  lemma PlainFlushed(run: seq<Token>)
    requires AllDigits(run)
    ensures Plain(Flushed(run)) == [] == Plain(run)
  {
    PlainOfRun(run);
    assert [PHONE][1..] == [];
  }

  lemma PlainAround(front: seq<Token>, t: Token, rest: seq<Token>)
    requires Plain(front) == []
    ensures Plain(front + [t] + rest) == Plain([t]) + Plain(rest)
  {
    PlainConcat(front + [t], rest);
    PlainConcat(front, [t]);
  }

  /** Every word that is no part of a number survives, in its order. */
  lemma {:induction false} PlainTokensSurvive(ts: seq<Token>)
    ensures Plain(Redacted(ts)) == Plain(ts)
    decreases |ts|
  {
    var n := RunLength(ts);
    var run := ts[..n];
    RunPrefix(ts);
    PlainFlushed(run);
    if n < |ts| {
      var t, rest := ts[n], ts[n + 1..];
      PlainTokensSurvive(rest);
      assert ts == run + [t] + rest;
      RedactedAt(run, t, rest);
      PlainAround(run, t, rest);
      PlainAround(Flushed(run), t, Redacted(rest));
    } else {
      RedactedRun(run);
      assert ts == run;
    }
  }

  /** Text without a digit character stands for no digits, unless it is a digit word. */
  lemma {:induction false} NoDigitCharacters(text: string)
    requires forall i :: 0 <= i < |text| ==> !('0' <= text[i] <= '9')
    ensures DigitCount(Bare(text)) == 0
  {
    if text != "" {
      NoDigitCharacters(text[1..]);
      var kept := Bare(text);
      if kept != Bare(text[1..]) {
        assert kept[1..] == Bare(text[1..]);
      }
    }
  }

  /** The digit characters of a text, in order. */
  function DigitCharacters(text: string): string {
    if text == "" then "" else (if '0' <= text[0] <= '9' then [text[0]] else "") + DigitCharacters(text[1..])
  }

  lemma {:induction false} BareKeepsDigits(text: string)
    ensures DigitCount(Bare(text)) == |DigitCharacters(text)|
  {
    if text != "" {
      BareKeepsDigits(text[1..]);
      if Bare(text) != Bare(text[1..]) {
        assert Bare(text)[1..] == Bare(text[1..]);
      }
    }
  }

  /** A token stands for one digit if it is a digit word, and otherwise for the digits it shows. */
  lemma TokenStandsFor(text: string)
    ensures Read(text).text == text
    ensures Read(text).digits == if Bare(text) in DIGIT_WORDS then 1 else |DigitCharacters(text)|
  {
    BareKeepsDigits(text);
  }

  /** The mark reads as an ordinary word, so a second pass does not count it. */
  lemma MarkReadsPlain(mark: string)
    requires |mark| >= 2 && mark[0] == '[' && mark[1] == 'p'
    requires forall i :: 0 <= i < |mark| ==> !('0' <= mark[i] <= '9')
    ensures Read(mark).digits == 0
  {
    NoDigitCharacters(mark);
    var tail := mark[1..];
    assert Bare(mark) == Bare(tail) && Bare(tail)[0] == 'p';
    assert forall w :: w in DIGIT_WORDS ==> w[0] != 'p';
  }

  /** Redaction invents nothing but the mark. */
  lemma {:induction false} OnlyOwnTokens(ts: seq<Token>, t: Token)
    requires t in Redacted(ts)
    ensures t in ts || t == PHONE
    decreases |ts|
  {
    var n := RunLength(ts);
    if n < |ts| && t in Redacted(ts[n + 1..]) {
      OnlyOwnTokens(ts[n + 1..], t);
    }
  }

  /** A text's tokens, as the redactor reads them. */
  function ReadAll(texts: seq<string>): seq<Token> {
    seq(|texts|, i requires 0 <= i < |texts| => Read(texts[i]))
  }

  function Texts(ts: seq<Token>): seq<string> {
    seq(|ts|, i requires 0 <= i < |ts| => ts[i].text)
  }

  lemma RereadSame(ts: seq<Token>)
    requires forall t :: t in ts ==> Read(t.text) == t
    ensures ReadAll(Texts(ts)) == ts
  {
  }

  lemma MarkRereads(t: Token)
    requires t == PHONE
    ensures Read(t.text) == t
  {
    MarkReadsPlain(t.text);
  }

  lemma OutputRereads(texts: seq<string>, t: Token)
    requires t in Redacted(ReadAll(texts))
    ensures Read(t.text) == t
  {
    var ts := ReadAll(texts);
    OnlyOwnTokens(ts, t);
    if t !in ts {
      MarkRereads(t);
    }
  }

  /** Running the redactor on its own output, read afresh, changes nothing. */
  lemma SecondPassChangesNothing(texts: seq<string>)
    ensures var out := Redacted(ReadAll(texts)); Redacted(ReadAll(Texts(out))) == out
  {
    var out := Redacted(ReadAll(texts));
    forall t | t in out
      ensures Read(t.text) == t
    {
      OutputRereads(texts, t);
    }
    RereadSame(out);
    RedactionIsIdempotent(ReadAll(texts));
  }

  // ---------------------------------------------------------------- a phone number the caller said

  function Joined(ds: seq<string>): string {
    if ds == [] then "" else Joined(ds[..|ds| - 1]) + ds[|ds| - 1]
  }

  /** `ds[a..b]` is a maximal stretch of tokens that each carry digits. */
  ghost predicate MaximalRun(ds: seq<string>, a: nat, b: nat) {
    && a < b <= |ds|
    && (forall i :: a <= i < b ==> ds[i] != "")
    && (a > 0 ==> ds[a - 1] == "")
    && (b < |ds| ==> ds[b] == "")
  }

  /** The digits of one whole run. */
  ghost predicate IsRunText(ds: seq<string>, text: string) {
    exists a: nat, b: nat :: MaximalRun(ds, a, b) && Joined(ds[a..b]) == text
  }

  /** `runs` holds the digits of every run that ends before `n`, and of whole runs only. */
  ghost predicate Found(ds: seq<string>, n: nat, runs: seq<string>) {
    && (forall a: nat, b: nat {:trigger MaximalRun(ds, a, b)} :: MaximalRun(ds, a, b) && b < n ==> Joined(ds[a..b]) in runs)
    && (forall text :: text in runs ==> IsRunText(ds, text))
  }

  /** `ds[start..i]` is the stretch of tokens with digits that the scanner is in. */
  ghost predicate Current(ds: seq<string>, start: nat, i: nat) {
    && start <= i <= |ds|
    && (forall k :: start <= k < i ==> ds[k] != "")
    && (start > 0 ==> ds[start - 1] == "")
  }

  /** No run ends at a token with digits. */
  lemma RunGoesOn(ds: seq<string>, i: nat, runs: seq<string>)
    requires i < |ds| && ds[i] != "" && Found(ds, i, runs)
    ensures Found(ds, i + 1, runs)
  {
    assert forall a: nat, b: nat {:trigger MaximalRun(ds, a, b)} :: MaximalRun(ds, a, b) ==> b != i;
  }

  /** A run that ends here began where the scanner's current stretch did. */
  lemma RunEndsHere(ds: seq<string>, start: nat, i: nat, runs: seq<string>)
    requires Current(ds, start, i) && (i < |ds| ==> ds[i] == "") && Found(ds, i, runs)
    ensures Found(ds, i + 1, if start < i then runs + [Joined(ds[start..i])] else runs)
  {
    assert start < i ==> MaximalRun(ds, start, i);
    assert forall a: nat {:trigger MaximalRun(ds, a, i)} :: MaximalRun(ds, a, i) ==> a == start;
  }

  /**
   * `ds` are the digits each token of the utterance stands for. The proposed number must be one whole
   * run of them: not part of a run, nor two runs put together.
   */
  method CallerStatedPhone(ds: seq<string>, proposed: string) returns (stated: bool)
    ensures stated <==> |proposed| >= 7 && IsRunText(ds, proposed)
  {
    if |proposed| < MIN_PHONE_DIGITS {
      return false;
    }
    var runs: seq<string> := [];
    var current: seq<string> := [];
    ghost var start := 0;
    for i := 0 to |ds|
      invariant Current(ds, start, i) && current == ds[start..i] && Found(ds, i, runs)
    {
      if ds[i] != "" {
        RunGoesOn(ds, i, runs);
        assert ds[start..i + 1] == ds[start..i] + [ds[i]];
        current := current + [ds[i]];
      } else {
        RunEndsHere(ds, start, i, runs);
        if current != [] {
          runs := runs + [Joined(current)];
          current := [];
        }
        start := i + 1;
      }
    }
    RunEndsHere(ds, start, |ds|, runs);
    if current != [] {
      runs := runs + [Joined(current)];
    }
    stated := proposed in runs;
  }

  lemma {:induction false} JoinedConcat(a: seq<string>, b: seq<string>)
    ensures Joined(a + b) == Joined(a) + Joined(b)
  {
    if b == [] {
      assert a + b == a;
    } else {
      var n := |b| - 1;
      assert (a + b)[..|a + b| - 1] == a + b[..n];
      JoinedConcat(a, b[..n]);
    }
  }
}
