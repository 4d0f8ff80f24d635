/**
 * The follower limit learner: starting from one reading, keep the running
 * minimum and maximum of every arm joint while the operator moves the arm,
 * turn them into integer limits (floor of the minimum, ceiling of the
 * maximum), and render those as the `M750_LIMITS` block of the configuration
 * file. Servo release, the firmware writes and the file rewrite are not modelled.
 */
module SetLimits {
  import opened Wrappers
  import opened Numeric

  /** `angles and len(angles) == 6`: only complete six-joint readings update the extremes. */
  predicate Accepted(reading: Option<seq<real>>)
  {
    reading.Some? && |reading.value| == 6
  }

  predicate AnyAccepted(readings: seq<Option<seq<real>>>)
  {
    exists k :: 0 <= k < |readings| && Accepted(readings[k])
  }

  /** Running minimum of joint `i`, starting at `init`, over the accepted readings. */
  function RunMin(init: real, readings: seq<Option<seq<real>>>, i: nat): real
    requires i < 6
  {
    if |readings| == 0 then init
    else
      var prev := RunMin(init, readings[..|readings| - 1], i);
      var last := readings[|readings| - 1];
      if Accepted(last) && last.value[i] < prev then last.value[i] else prev
  }

  /** Running maximum of joint `i`, starting at `init`, over the accepted readings. */
  function RunMax(init: real, readings: seq<Option<seq<real>>>, i: nat): real
    requires i < 6
  {
    if |readings| == 0 then init
    else
      var prev := RunMax(init, readings[..|readings| - 1], i);
      var last := readings[|readings| - 1];
      if Accepted(last) && last.value[i] > prev then last.value[i] else prev
  }

  /** The running minimum is below the start and below every accepted reading. */
  lemma {:induction false} RunMinIsLowerBound(init: real, readings: seq<Option<seq<real>>>, i: nat)
    requires i < 6
    ensures RunMin(init, readings, i) <= init
    ensures forall k :: 0 <= k < |readings| && Accepted(readings[k]) ==> RunMin(init, readings, i) <= readings[k].value[i]
  {
    if |readings| > 0 {
      var init' := readings[..|readings| - 1];
      RunMinIsLowerBound(init, init', i);
      assert forall k :: 0 <= k < |init'| ==> init'[k] == readings[k];
    }
  }

  /** The running maximum is above the start and above every accepted reading. */
  lemma {:induction false} RunMaxIsUpperBound(init: real, readings: seq<Option<seq<real>>>, i: nat)
    requires i < 6
    ensures init <= RunMax(init, readings, i)
    ensures forall k :: 0 <= k < |readings| && Accepted(readings[k]) ==> readings[k].value[i] <= RunMax(init, readings, i)
  {
    if |readings| > 0 {
      var init' := readings[..|readings| - 1];
      RunMaxIsUpperBound(init, init', i);
      assert forall k :: 0 <= k < |init'| ==> init'[k] == readings[k];
    }
  }

  /** The running minimum is a value actually seen: the start or some accepted reading. */
  lemma {:induction false} RunMinIsAttained(init: real, readings: seq<Option<seq<real>>>, i: nat)
    requires i < 6
    ensures RunMin(init, readings, i) == init
         || exists k :: 0 <= k < |readings| && Accepted(readings[k]) && RunMin(init, readings, i) == readings[k].value[i]
  {
    if |readings| > 0 {
      var init' := readings[..|readings| - 1];
      RunMinIsAttained(init, init', i);
      if RunMin(init, readings, i) != init && RunMin(init, readings, i) == RunMin(init, init', i) {
        var k :| 0 <= k < |init'| && Accepted(init'[k]) && RunMin(init, init', i) == init'[k].value[i];
        assert readings[k] == init'[k];
      }
    }
  }

  /** The running maximum is a value actually seen: the start or some accepted reading. */
  lemma {:induction false} RunMaxIsAttained(init: real, readings: seq<Option<seq<real>>>, i: nat)
    requires i < 6
    ensures RunMax(init, readings, i) == init
         || exists k :: 0 <= k < |readings| && Accepted(readings[k]) && RunMax(init, readings, i) == readings[k].value[i]
  {
    if |readings| > 0 {
      var init' := readings[..|readings| - 1];
      RunMaxIsAttained(init, init', i);
      if RunMax(init, readings, i) != init && RunMax(init, readings, i) == RunMax(init, init', i) {
        var k :| 0 <= k < |init'| && Accepted(init'[k]) && RunMax(init, init', i) == init'[k].value[i];
        assert readings[k] == init'[k];
      }
    }
  }

  /** One more reading never raises the minimum nor lowers the maximum. */
  lemma ExtremesMonotone(init: real, readings: seq<Option<seq<real>>>, next: Option<seq<real>>, i: nat)
    requires i < 6
    ensures RunMin(init, readings + [next], i) <= RunMin(init, readings, i)
    ensures RunMax(init, readings + [next], i) >= RunMax(init, readings, i)
    ensures Accepted(next) ==> RunMin(init, readings + [next], i) <= next.value[i] <= RunMax(init, readings + [next], i)
  {
    assert (readings + [next])[..|readings|] == readings;
  }

  /** Starting min and max from the same reading keeps min <= max throughout. */
  lemma MinBelowMax(init: real, readings: seq<Option<seq<real>>>, i: nat)
    requires i < 6
    ensures RunMin(init, readings, i) <= RunMax(init, readings, i)
  {
    RunMinIsLowerBound(init, readings, i);
    RunMaxIsUpperBound(init, readings, i);
  }

  /** The extremes after one more reading: it moves them only when accepted and beyond them. */
  lemma ExtremesStep(init: real, readings: seq<Option<seq<real>>>, n: nat, i: nat)
    requires n < |readings| && i < 6
    ensures var r := readings[n];
      && RunMin(init, readings[..n + 1], i) ==
         (if Accepted(r) && r.value[i] < RunMin(init, readings[..n], i) then r.value[i] else RunMin(init, readings[..n], i))
      && RunMax(init, readings[..n + 1], i) ==
         (if Accepted(r) && r.value[i] > RunMax(init, readings[..n], i) then r.value[i] else RunMax(init, readings[..n], i))
  {
    assert readings[..n + 1][..n] == readings[..n];
    assert readings[..n + 1][n] == readings[n];
  }

  /** An accepted reading within the first `n + 1` is an accepted reading. */
  lemma AcceptedMeansAny(readings: seq<Option<seq<real>>>, n: nat)
    requires n < |readings| && Accepted(readings[n])
    ensures AnyAccepted(readings)
  {
  }

  /** A prefix with no accepted reading stays so when the next reading is not accepted. */
  lemma NoneAcceptedStep(readings: seq<Option<seq<real>>>, n: nat)
    requires n < |readings| && !Accepted(readings[n])
    ensures !AnyAccepted(readings[..n]) ==> !AnyAccepted(readings[..n + 1])
  {
    var longer, shorter := readings[..n + 1], readings[..n];
    if !AnyAccepted(shorter) {
      forall k | 0 <= k < |longer| ensures !Accepted(longer[k]) {
        if k < n { assert longer[k] == shorter[k]; }
      }
    }
  }

  datatype LearnError =
    | NoInitialReading   // "Failed to read angles. Exiting."
    | IndexError         // a first reading with fewer than six values, then a full reading

  datatype Extremes = Extremes(minVals: seq<real>, maxVals: seq<real>)

  /**
   * The learning loop: the extremes start as copies of the first reading
   * and are updated in place by every accepted reading until the operator stops.
   */
  method Learn(initial: Option<seq<real>>, readings: seq<Option<seq<real>>>) returns (r: Result<Extremes, LearnError>)
    ensures r == Failure(NoInitialReading) <==> initial.None? || |initial.value| == 0
    ensures r == Failure(IndexError) <==>
      initial.Some? && 0 < |initial.value| < 6 && AnyAccepted(readings)
    ensures r.Success? ==>
      var init := initial.value;
      && |r.value.minVals| == |init| == |r.value.maxVals|
      && (forall i :: 0 <= i < 6 && i < |init| ==>
            r.value.minVals[i] == RunMin(init[i], readings, i) && r.value.maxVals[i] == RunMax(init[i], readings, i))
      && (forall i :: 6 <= i < |init| ==> r.value.minVals[i] == init[i] == r.value.maxVals[i])
  {
    if initial.None? || |initial.value| == 0 {
      return Failure(NoInitialReading);
    }
    var init := initial.value;
    var minVals := new real[|init|](i requires 0 <= i < |init| => init[i]);
    var maxVals := new real[|init|](i requires 0 <= i < |init| => init[i]);
    for n := 0 to |readings|
      invariant |init| < 6 ==> !AnyAccepted(readings[..n])
      invariant forall i :: 0 <= i < 6 && i < |init| ==>
        minVals[i] == RunMin(init[i], readings[..n], i) && maxVals[i] == RunMax(init[i], readings[..n], i)
      invariant forall i :: 6 <= i < |init| ==> minVals[i] == init[i] == maxVals[i]
    {
      var angles := readings[n];
      if angles.Some? && |angles.value| > 0 && |angles.value| == 6 {
        if minVals.Length < 6 {
          AcceptedMeansAny(readings, n);
          return Failure(IndexError);
        }
        Absorb(minVals, maxVals, angles.value);
        forall i | 0 <= i < 6 {
          ExtremesStep(init[i], readings, n, i);
        }
      } else {
        forall i | 0 <= i < 6 && i < |init| {
          ExtremesStep(init[i], readings, n, i);
        }
        NoneAcceptedStep(readings, n);
      }
    }
    assert readings[..|readings|] == readings;
    return Success(Extremes(minVals[..], maxVals[..]));
  }

  /** One accepted reading: each of joints 1 to 6 lowers its minimum and raises its maximum; later slots stay. */
  method Absorb(minVals: array<real>, maxVals: array<real>, angles: seq<real>)
    requires minVals != maxVals && 6 <= minVals.Length == maxVals.Length && |angles| == 6
    modifies minVals, maxVals
    ensures forall j :: 0 <= j < 6 ==>
      && minVals[j] == (if angles[j] < old(minVals[j]) then angles[j] else old(minVals[j]))
      && maxVals[j] == (if angles[j] > old(maxVals[j]) then angles[j] else old(maxVals[j]))
    ensures forall j :: 6 <= j < minVals.Length ==> minVals[j] == old(minVals[j]) && maxVals[j] == old(maxVals[j])
  {
    for i := 0 to 6
      invariant forall j :: 0 <= j < minVals.Length ==>
        && minVals[j] == (if j < i && angles[j] < old(minVals[j]) then angles[j] else old(minVals[j]))
        && maxVals[j] == (if j < i && angles[j] > old(maxVals[j]) then angles[j] else old(maxVals[j]))
    {
      if angles[i] < minVals[i] { minVals[i] := angles[i]; }
      if angles[i] > maxVals[i] { maxVals[i] := angles[i]; }
    }
  }

  /** The firmware limits: floor of each minimum and ceiling of each maximum, joints 1 to 6 in order. */
  method NewLimits(minVals: seq<real>, maxVals: seq<real>) returns (r: Option<seq<(int, int)>>)
    ensures r.Some? <==> |minVals| >= 6 && |maxVals| >= 6
    ensures r.Some? ==> |r.value| == 6 && forall i :: 0 <= i < 6 ==>
      && r.value[i] == (Floor(minVals[i]), Ceil(maxVals[i]))
      && r.value[i].0 as real <= minVals[i] < r.value[i].0 as real + 1.0
      && r.value[i].1 as real - 1.0 < maxVals[i] <= r.value[i].1 as real
  {
    if |minVals| < 6 || |maxVals| < 6 {
      return None;
    }
    var newLimits: seq<(int, int)> := [];
    for i := 0 to 6
      invariant |newLimits| == i
      invariant forall j :: 0 <= j < i ==> newLimits[j] == (Floor(minVals[j]), Ceil(maxVals[j]))
    {
      var mn := Floor(minVals[i]);
      var mx := Ceil(maxVals[i]);
      newLimits := newLimits + [(mn, mx)];
    }
    return Some(newLimits);
  }

  /** Rounding outward keeps the learned interval inside the integer limits. */
  lemma LimitsEncloseExtremes(lo: real, hi: real)
    requires lo <= hi
    ensures Floor(lo) as real <= lo <= hi <= Ceil(hi) as real
    ensures Floor(lo) <= Ceil(hi)
  {
  }

  // ---------------------------------------------------------------------------
  // The configuration block text.

  function DigitChar(d: nat): char
    requires d < 10
  {
    "0123456789"[d]
  }

  function DigitValue(c: char): nat
  {
    if '0' <= c <= '9' then (c as int - '0' as int) as nat else 0
  }

  /** Decimal digits of a natural number, most significant first. */
  function NatText(n: nat): (s: string)
    ensures |s| > 0 && forall k :: 0 <= k < |s| ==> '0' <= s[k] <= '9'
  {
    if n < 10 then [DigitChar(n)] else NatText(n / 10) + [DigitChar(n % 10)]
  }

  /** Python's `str` of an integer: a minus sign for negatives, then the digits. */
  function IntText(n: int): string
  {
    if n < 0 then "-" + NatText(-n) else NatText(n)
  }

  /** `f"{n:.1f}"` of an integer: its digits followed by ".0". */
  function Fixed1(n: int): string
  {
    IntText(n) + ".0"
  }

  function ParseNat(s: string): nat
  {
    if |s| == 0 then 0 else ParseNat(s[..|s| - 1]) * 10 + DigitValue(s[|s| - 1])
  }

  function ParseInt(s: string): int
  {
    if |s| > 0 && s[0] == '-' then -(ParseNat(s[1..]) as int) else ParseNat(s)
  }

  lemma {:induction false} NatTextRoundTrip(n: nat)
    ensures ParseNat(NatText(n)) == n
  {
    var s := NatText(n);
    if n >= 10 {
      NatTextRoundTrip(n / 10);
      assert s[..|s| - 1] == NatText(n / 10);
      assert DigitValue(s[|s| - 1]) == n % 10;
    } else {
      assert s[..0] == [];
    }
  }

  lemma ConcatParts<T>(a: seq<T>, b: seq<T>)
    ensures (a + b)[..|a|] == a && (a + b)[|a|..] == b
  {
  }

  /** The integer texts written into the block read back as the same integers. */
  lemma IntTextRoundTrip(n: int)
    ensures ParseInt(IntText(n)) == n
    ensures Fixed1(n)[..|IntText(n)|] == IntText(n)
  {
    if n < 0 {
      NatTextRoundTrip(-n);
      ConcatParts("-", NatText(-n));
    } else {
      NatTextRoundTrip(n);
      assert NatText(n)[0] != '-';
    }
    ConcatParts(IntText(n), ".0");
  }

  /** One line of the block: `    (mn, mx),` and a newline. */
  function LimitLine(p: (int, int)): string
  {
    "    (" + Fixed1(p.0) + ", " + Fixed1(p.1) + "),\n"
  }

  /** Each line carries the two integers where a reader of the block finds them, and they read back unchanged. */
  lemma LimitLineFields(p: (int, int))
    ensures var a, b := IntText(p.0), IntText(p.1);
      && |LimitLine(p)| == 5 + |a| + 4 + |b| + 5
      && LimitLine(p)[..5] == "    ("
      && ParseInt(LimitLine(p)[5..5 + |a|]) == p.0
      && ParseInt(LimitLine(p)[5 + |a| + 4..5 + |a| + 4 + |b|]) == p.1
  {
    IntTextRoundTrip(p.0);
    IntTextRoundTrip(p.1);
    FieldsAt("    (", IntText(p.0), ".0", ", ", IntText(p.1), "),\n");
  }

  /** Where the two fields sit in `o + (a + d) + m + (b + d) + c` when `o` has 5 characters and `d`, `m` have 2. */
  lemma FieldsAt(o: string, a: string, d: string, m: string, b: string, c: string)
    requires |o| == 5 && |d| == 2 && |m| == 2
    ensures var line := o + (a + d) + m + (b + d) + c;
      && |line| == 5 + |a| + 4 + |b| + 2 + |c|
      && line[..5] == o
      && line[5..5 + |a|] == a
      && line[5 + |a| + 4..5 + |a| + 4 + |b|] == b
  {
    var line := o + (a + d) + m + (b + d) + c;
    assert line == o + (a + (d + (m + (b + (d + c)))));
    var r := b + (d + c);
    assert line[5 + |a| + 4..] == r;
  }

  /** The strings of `parts` joined end to end. */
  function Concat(parts: seq<string>): string
  {
    if |parts| == 0 then "" else Concat(parts[..|parts| - 1]) + parts[|parts| - 1]
  }

  /** One line per pair, in the order of the pairs. */
  function Lines(limits: seq<(int, int)>): (lines: seq<string>)
    ensures |lines| == |limits| && forall k :: 0 <= k < |limits| ==> lines[k] == LimitLine(limits[k])
  {
    seq(|limits|, k requires 0 <= k < |limits| => LimitLine(limits[k]))
  }

  const Header: string := "M750_LIMITS = [\n"

  /** The text that replaces the `M750_LIMITS` block. */
  function Block(limits: seq<(int, int)>): string
  {
    Header + Concat(Lines(limits)) + "]"
  }

  /** Joining two runs of strings is joining each, one after the other. */
  lemma {:induction false} ConcatAppend(a: seq<string>, b: seq<string>)
    ensures Concat(a + b) == Concat(a) + Concat(b)
  {
    if |b| == 0 {
      assert a + b == a;
    } else {
      var b', x := b[..|b| - 1], b[|b| - 1];
      assert (a + b)[..|a + b| - 1] == a + b';
      assert (a + b)[|a + b| - 1] == x;
      assert Concat(a + b) == Concat(a + b') + x;
      assert Concat(b) == Concat(b') + x;
      ConcatAppend(a, b');
      AppendAssoc(Concat(a), Concat(b'), x);
    }
  }

  lemma SplitAt<T>(s: seq<T>, k: nat)
    requires k < |s|
    ensures s == (s[..k] + [s[k]]) + s[k + 1..]
  {
    assert s[..k + 1] == s[..k] + [s[k]];
    assert s == s[..k + 1] + s[k + 1..];
  }

  lemma ConcatSplit(parts: seq<string>, k: nat)
    requires k < |parts|
    ensures Concat(parts) == Concat(parts[..k]) + parts[k] + Concat(parts[k + 1..])
  {
    var pre, mid, post := parts[..k], parts[k], parts[k + 1..];
    SplitAt(parts, k);
    ConcatAppend(pre + [mid], post);
    ConcatSnoc(pre, mid);
  }

  /** Joining one more string appends it. */
  lemma ConcatSnoc(parts: seq<string>, x: string)
    ensures Concat(parts + [x]) == Concat(parts) + x
  {
    assert (parts + [x])[..|parts|] == parts;
  }

  /** The lines of one more pair are the earlier lines and then its own. */
  lemma LinesSnoc(limits: seq<(int, int)>, k: nat)
    requires k < |limits|
    ensures Lines(limits[..k + 1]) == Lines(limits[..k]) + [LimitLine(limits[k])]
  {
    var l1, l0 := Lines(limits[..k + 1]), Lines(limits[..k]);
    assert |l1| == |l0 + [LimitLine(limits[k])]|;
    forall j | 0 <= j < k + 1
      ensures l1[j] == (l0 + [LimitLine(limits[k])])[j]
    {
      assert limits[..k + 1][j] == limits[j];
      if j < k {
        assert limits[..k][j] == limits[j];
      }
    }
  }

  /** The lines of pair `k` sit between the lines of the pairs before it and those after it. */
  lemma LinesOrder(limits: seq<(int, int)>, k: nat)
    requires k < |limits|
    ensures Concat(Lines(limits)) == Concat(Lines(limits[..k])) + LimitLine(limits[k]) + Concat(Lines(limits[k + 1..]))
  {
    var lines := Lines(limits);
    ConcatSplit(lines, k);
    var pre, post := Lines(limits[..k]), Lines(limits[k + 1..]);
    assert lines[..k] == pre by {
      forall j | 0 <= j < k ensures lines[..k][j] == pre[j] {
        assert limits[..k][j] == limits[j];
      }
    }
    assert lines[k + 1..] == post by {
      forall j | 0 <= j < |limits| - k - 1 ensures lines[k + 1..][j] == post[j] {
        assert limits[k + 1..][j] == limits[k + 1 + j];
      }
    }
  }

  lemma BlockAround(limits: seq<(int, int)>, a: string, p: (int, int), b: string)
    requires Concat(Lines(limits)) == a + LimitLine(p) + b
    ensures Block(limits) == Header + a + LimitLine(p) + b + "]"
  {
    Regroup(Header, a, LimitLine(p), b, "]");
  }

  lemma Regroup(h: string, a: string, l: string, b: string, t: string)
    ensures h + (a + l + b) + t == h + a + l + b + t
  {
  }

  /** Pair `k` appears in the block, as its own line, right after the lines of the pairs before it. */
  lemma LineOrder(limits: seq<(int, int)>, k: nat)
    requires k < |limits|
    ensures Block(limits) == Header + Concat(Lines(limits[..k])) + LimitLine(limits[k]) + Concat(Lines(limits[k + 1..])) + "]"
  {
    LinesOrder(limits, k);
    BlockAround(limits, Concat(Lines(limits[..k])), limits[k], Concat(Lines(limits[k + 1..])));
  }

  lemma BlockStep(limits: seq<(int, int)>, k: nat, block: string)
    requires k < |limits| && block == Header + Concat(Lines(limits[..k]))
    ensures block + LimitLine(limits[k]) == Header + Concat(Lines(limits[..k + 1]))
  {
    LinesSnoc(limits, k);
    ConcatSnoc(Lines(limits[..k]), LimitLine(limits[k]));
    AppendAssoc(Header, Concat(Lines(limits[..k])), LimitLine(limits[k]));
  }

  lemma AppendAssoc(h: string, x: string, l: string)
    ensures (h + x) + l == h + (x + l)
  {
  }

  lemma BlockClose(limits: seq<(int, int)>, block: string)
    requires block == Header + Concat(Lines(limits))
    ensures block + "]" == Block(limits)
  {
  }

  /** `update_config_file`'s string building: header line, one line per pair in order, closing bracket. */
  method ConfigBlock(newLimits: seq<(int, int)>) returns (newBlock: string)
    ensures newBlock == Block(newLimits)
  {
    newBlock := Header;
    assert newLimits[..0] == [];
    for k := 0 to |newLimits|
      invariant newBlock == Header + Concat(Lines(newLimits[..k]))
    {
      var (mn, mx) := newLimits[k];
      BlockStep(newLimits, k, newBlock);
      newBlock := newBlock + LimitLine((mn, mx));
    }
    assert newLimits[..|newLimits|] == newLimits;
    BlockClose(newLimits, newBlock);
    newBlock := newBlock + "]";
  }
}
