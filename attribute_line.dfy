/**
 * The tokenizer of a development's attribute line. The tooltip highlights
 * "[...]" names, numbers, the operators + x * % and "::...::" values; the
 * rest of the line is plain text.
 */
module AttributeLine {

  import opened Strings

  datatype Kind = Bracket | Value | Normal

  /** `{ type, text }`. A bracket segment's text omits the brackets. */
  datatype Segment = Segment(kind: Kind, text: string)

  /** The one-character operators: `+`, `x`, `*`, `%`. */
  predicate IsOp(c: char) {
    c == '+' || c == 'x' || c == '*' || c == '%'
  }

  /** "::" starts at index `k` of `s`. */
  predicate PairAt(s: string, k: int) {
    0 <= k && k + 1 < |s| && s[k] == ':' && s[k + 1] == ':'
  }

  /** A character that ends a run of plain text. */
  predicate StopChar(c: char) {
    c == '[' || IsDigit(c) || IsOp(c)
  }

  /** Plain text ends at a stop character or at a "::". */
  predicate StopsNormal(line: string, j: nat)
    requires j < |line|
  {
    StopChar(line[j]) || PairAt(line, j)
  }

  /** `line.indexOf(c, from)`: the first index at or after `from` holding `c`, or -1. */
  function IndexOf(line: string, c: char, from: nat): (r: int)
    ensures r == -1 || (from <= r < |line| && line[r] == c)
    ensures r == -1 ==> forall k :: from <= k < |line| ==> line[k] != c
    ensures r != -1 ==> forall k :: from <= k < r ==> line[k] != c
    decreases |line| - from
  {
    if from >= |line| then -1
    else if line[from] == c then from
    else IndexOf(line, c, from + 1)
  }

  /** `line.indexOf("::", from)`. */
  function IndexOfPair(line: string, from: nat): (r: int)
    ensures r == -1 || (from <= r && PairAt(line, r))
    ensures r == -1 ==> forall k :: from <= k < |line| ==> !PairAt(line, k)
    ensures r != -1 ==> forall k :: from <= k < r ==> !PairAt(line, k)
    decreases |line| - from
  {
    if from >= |line| then -1
    else if PairAt(line, from) then from
    else IndexOfPair(line, from + 1)
  }

  /** The end of the digit run starting at `i`. */
  function DigitEnd(line: string, i: nat): (r: nat)
    requires i <= |line|
    ensures i <= r <= |line|
    ensures forall k :: i <= k < r ==> IsDigit(line[k])
    ensures r == |line| || !IsDigit(line[r])
    decreases |line| - i
  {
    if i == |line| || !IsDigit(line[i]) then i else DigitEnd(line, i + 1)
  }

  /** The end of the plain-text run starting at `i`. */
  function NormalEnd(line: string, i: nat): (r: nat)
    requires i <= |line|
    ensures i <= r <= |line|
    ensures forall k :: i <= k < r ==> !StopsNormal(line, k)
    ensures r == |line| || StopsNormal(line, r)
    decreases |line| - i
  {
    if i == |line| || StopsNormal(line, i) then i else NormalEnd(line, i + 1)
  }

  /**
   * One pass of the scanner at index `i`: the segments it pushes (none or
   * one) and the index it moves to.
   */
  function Step(line: string, i: nat): (r: (seq<Segment>, nat))
    requires i < |line|
    ensures i < r.1 <= |line|
    ensures |r.0| <= 1
  {
    if line[i] == '[' then
      var end := IndexOf(line, ']', i);
      if end == -1 then ([Segment(Normal, [line[i]])], i + 1)
      else ([Segment(Bracket, line[i + 1..end])], end + 1)
    else if PairAt(line, i) && IndexOfPair(line, i + 2) != -1 then
      var end := IndexOfPair(line, i + 2);
      ([Segment(Value, line[i..end + 2])], end + 2)
    else if IsDigit(line[i]) then
      var j := DigitEnd(line, i);
      ([Segment(Value, line[i..j])], j)
    else if IsOp(line[i]) then
      ([Segment(Value, [line[i]])], i + 1)
    else
      var j := NormalEnd(line, i);
      if j > i then ([Segment(Normal, line[i..j])], j) else ([], i + 1)
  }

  /** The segments the scanner pushes from index `i` to the end of the line. */
  function SegmentsFrom(line: string, i: nat): seq<Segment>
    requires i <= |line|
    decreases |line| - i
  {
    if i == |line| then []
    else
      var (emitted, next) := Step(line, i);
      emitted + SegmentsFrom(line, next)
  }

  lemma Unfold(line: string, i: nat)
    requires i < |line|
    ensures SegmentsFrom(line, i) == Step(line, i).0 + SegmentsFrom(line, Step(line, i).1)
  {
  }

  /**
   * The segments `parseAttributeLine` returns, as a value: every one of them
   * has the shape its kind promises.
   */
  function Tokenize(line: string): (segments: seq<Segment>)
    ensures forall k :: 0 <= k < |segments| ==> WellFormed(segments[k])
  {
    SegmentsWellFormed(line, 0);
    SegmentsFrom(line, 0)
  }

  /** `parseAttributeLine`: the scanning loop, one iteration per call of `ScanSegment`. */
  method ParseAttributeLine(line: string) returns (segments: seq<Segment>)
    ensures segments == Tokenize(line)
  {
    segments := [];
    var i := 0;
    while i < |line|
      invariant 0 <= i <= |line|
      invariant segments + SegmentsFrom(line, i) == Tokenize(line)
      decreases |line| - i
    {
      var emitted, next := ScanSegment(line, i);
      assert segments + (emitted + SegmentsFrom(line, next)) == segments + emitted + SegmentsFrom(line, next);
      segments := segments + emitted;
      i := next;
    }
  }

  /**
   * The body of the scanning loop at index `i`: the segments it pushes and the
   * index the next iteration starts from, with the inner digit and text loops.
   */
  method ScanSegment(line: string, i: nat) returns (emitted: seq<Segment>, next: nat)
    requires i < |line|
    ensures (emitted, next) == Step(line, i)
  {
    if line[i] == '[' {
      var end := IndexOf(line, ']', i);
      if end == -1 {
        return [Segment(Normal, [line[i]])], i + 1;
      } else {
        return [Segment(Bracket, line[i + 1..end])], end + 1;
      }
    }
    if line[i] == ':' && i + 1 < |line| && line[i + 1] == ':' {
      var end := IndexOfPair(line, i + 2);
      if end != -1 {
        return [Segment(Value, line[i..end + 2])], end + 2;
      }
    }
    emitted, next := ScanRun(line, i);
  }

  /** The rest of the loop body, once neither a "[" nor a closed "::" starts at `i`. */
  method ScanRun(line: string, i: nat) returns (emitted: seq<Segment>, next: nat)
    requires i < |line| && line[i] != '['
    requires PairAt(line, i) ==> IndexOfPair(line, i + 2) == -1
    ensures (emitted, next) == Step(line, i)
  {
    if IsDigit(line[i]) {
      var j := ScanDigits(line, i);
      return [Segment(Value, line[i..j])], j;
    }
    if IsOp(line[i]) {
      return [Segment(Value, [line[i]])], i + 1;
    }
    var j := ScanText(line, i);
    if j > i {
      emitted := [Segment(Normal, line[i..j])];
    } else {
      emitted := [];
    }
    next := if j > i then j else i + 1;
  }

  /** The inner loop over a run of digits. */
  method ScanDigits(line: string, i: nat) returns (j: nat)
    requires i <= |line|
    ensures i <= j <= |line|
    ensures forall k :: i <= k < j ==> IsDigit(line[k])
    ensures j == |line| || !IsDigit(line[j])
  {
    j := i;
    while j < |line| && IsDigit(line[j])
      invariant i <= j <= |line|
      invariant forall k :: i <= k < j ==> IsDigit(line[k])
    {
      j := j + 1;
    }
  }

  /** The inner loop over a run of plain text, which stops before a stop character or "::". */
  method ScanText(line: string, i: nat) returns (j: nat)
    requires i <= |line|
    ensures i <= j <= |line|
    ensures forall k :: i <= k < j ==> !StopsNormal(line, k)
    ensures j == |line| || StopsNormal(line, j)
  {
    j := i;
    while j < |line| && !StopChar(line[j]) && !(line[j] == ':' && j + 1 < |line| && line[j + 1] == ':')
      invariant i <= j <= |line|
      invariant forall k :: i <= k < j ==> !StopsNormal(line, k)
    {
      j := j + 1;
    }
  }

  // ---------------------------------------------------------------------
  // What each segment looks like
  // ---------------------------------------------------------------------

  /** No "::" anywhere in `s`. */
  predicate NoPair(s: string) {
    forall k :: 0 <= k < |s| ==> !PairAt(s, k)
  }

  /** A digit run, one operator, or "::" ... "::" closed at the first "::" after the opening one. */
  predicate ValueText(t: string) {
    (t != [] && forall k :: 0 <= k < |t| ==> IsDigit(t[k]))
    || (|t| == 1 && IsOp(t[0]))
    || (|t| >= 4 && t[..2] == "::" && t[|t| - 2..] == "::" && NoPair(t[2..|t| - 1]))
  }

  /** An unclosed "[", or a non-empty run free of stop characters and of "::". */
  predicate NormalText(t: string) {
    t == "["
    || (t != [] && (forall k :: 0 <= k < |t| ==> !StopChar(t[k])) && NoPair(t))
  }

  predicate WellFormed(s: Segment) {
    match s.kind
    case Bracket => forall k :: 0 <= k < |s.text| ==> s.text[k] != ']'
    case Value => ValueText(s.text)
    case Normal => NormalText(s.text)
  }

  lemma PairValueText(line: string, i: nat, end: nat)
    requires i + 2 <= end && PairAt(line, i) && PairAt(line, end)
    requires forall k :: i + 2 <= k < end ==> !PairAt(line, k)
    ensures ValueText(line[i..end + 2])
  {
    var t := line[i..end + 2];
    assert t[..2] == "::" && t[|t| - 2..] == "::";
    var mid := t[2..|t| - 1];
    assert |t| == end + 2 - i;
    assert forall k :: 0 <= k < |mid| ==> mid[k] == line[i + 2 + k];
    forall k | 0 <= k < |mid|
      ensures !PairAt(mid, k)
    {
      if k + 1 < |mid| {
        assert !PairAt(line, i + 2 + k);
      }
    }
  }

  lemma NormalRunText(line: string, i: nat, j: nat)
    requires i < j <= |line|
    requires forall k :: i <= k < j ==> !StopsNormal(line, k)
    ensures NormalText(line[i..j])
  {
    var t := line[i..j];
    forall k | 0 <= k < |t|
      ensures !StopChar(t[k]) && !PairAt(t, k)
    {
      assert !StopsNormal(line, i + k);
      assert PairAt(t, k) ==> PairAt(line, i + k);
    }
  }

  lemma BracketText(line: string, i: nat)
    requires i < |line| && line[i] == '['
    ensures forall k :: 0 <= k < |Step(line, i).0| ==> WellFormed(Step(line, i).0[k])
  {
    var end := IndexOf(line, ']', i);
    if end != -1 {
      assert line[i] != ']';
      var t := line[i + 1..end];
      assert Step(line, i).0 == [Segment(Bracket, t)];
      forall k | 0 <= k < |t| ensures t[k] != ']' {
        assert t[k] == line[i + 1 + k];
      }
    }
  }

  lemma StepWellFormed(line: string, i: nat)
    requires i < |line|
    ensures forall k :: 0 <= k < |Step(line, i).0| ==> WellFormed(Step(line, i).0[k])
  {
    if line[i] == '[' {
      BracketText(line, i);
    } else if PairAt(line, i) && IndexOfPair(line, i + 2) != -1 {
      var end := IndexOfPair(line, i + 2);
      assert Step(line, i).0 == [Segment(Value, line[i..end + 2])];
      PairValueText(line, i, end);
    } else if IsDigit(line[i]) {
      var j := DigitEnd(line, i);
      var t := line[i..j];
      assert Step(line, i).0 == [Segment(Value, t)];
      assert forall k :: 0 <= k < |t| ==> t[k] == line[i + k];
    } else if IsOp(line[i]) {
      assert Step(line, i).0 == [Segment(Value, [line[i]])];
    } else if NormalEnd(line, i) > i {
      var j := NormalEnd(line, i);
      assert Step(line, i).0 == [Segment(Normal, line[i..j])];
      NormalRunText(line, i, j);
    } else {
      assert Step(line, i).0 == [];
    }
  }

  /** Every segment the tokenizer returns has the shape its kind promises. */
  lemma {:induction false} SegmentsWellFormed(line: string, i: nat)
    requires i <= |line|
    ensures forall k :: 0 <= k < |SegmentsFrom(line, i)| ==> WellFormed(SegmentsFrom(line, i)[k])
    decreases |line| - i
  {
    if i < |line| {
      StepWellFormed(line, i);
      SegmentsWellFormed(line, Step(line, i).1);
    }
  }

  lemma EmptyLine()
    ensures Tokenize("") == []
  {
  }

  // ---------------------------------------------------------------------
  // The first segment from an index, by case
  // ---------------------------------------------------------------------

  /** A "[" closed by the first later "]" gives the text strictly between them. */
  lemma ClosedBracket(line: string, i: nat, e: nat)
    requires i < e < |line| && line[i] == '[' && line[e] == ']'
    requires forall k :: i < k < e ==> line[k] != ']'
    ensures SegmentsFrom(line, i) == [Segment(Bracket, line[i + 1..e])] + SegmentsFrom(line, e + 1)
  {
    assert IndexOf(line, ']', i) == e;
    assert Step(line, i) == ([Segment(Bracket, line[i + 1..e])], e + 1);
    Unfold(line, i);
  }

  /** A "[" that no later "]" closes is plain text on its own. */
  lemma UnclosedBracket(line: string, i: nat)
    requires i < |line| && line[i] == '['
    requires forall k :: i < k < |line| ==> line[k] != ']'
    ensures SegmentsFrom(line, i) == [Segment(Normal, "[")] + SegmentsFrom(line, i + 1)
  {
    assert IndexOf(line, ']', i) == -1;
    Unfold(line, i);
  }

  /** "::" closed by a later "::" is one value, both delimiters included. */
  lemma ClosedPair(line: string, i: nat, e: nat)
    requires i + 2 <= e && PairAt(line, i) && PairAt(line, e)
    requires forall k :: i + 2 <= k < e ==> !PairAt(line, k)
    ensures SegmentsFrom(line, i) == [Segment(Value, line[i..e + 2])] + SegmentsFrom(line, e + 2)
  {
    var r := IndexOfPair(line, i + 2);
    assert r != -1 by {
      assert i + 2 <= e < |line| && PairAt(line, e);
    }
    assert !(r < e) && !(e < r);
    assert line[i] != '[';
    assert Step(line, i) == ([Segment(Value, line[i..e + 2])], e + 2);
    Unfold(line, i);
  }

  /** "::" with no later "::" pushes nothing and moves past its first ':'. */
  lemma UnclosedPair(line: string, i: nat)
    requires PairAt(line, i)
    requires forall k :: i + 2 <= k < |line| ==> !PairAt(line, k)
    ensures SegmentsFrom(line, i) == SegmentsFrom(line, i + 1)
  {
    assert IndexOfPair(line, i + 2) == -1;
    assert NormalEnd(line, i) == i;
    assert Step(line, i) == ([], i + 1);
    Unfold(line, i);
  }

  /** The only step that pushes no segment is at an unclosed "::". */
  lemma EmitsNothingIff(line: string, i: nat)
    requires i < |line|
    ensures Step(line, i).0 == [] <==>
            PairAt(line, i) && forall k :: i + 2 <= k < |line| ==> !PairAt(line, k)
  {
    if PairAt(line, i) && forall k :: i + 2 <= k < |line| ==> !PairAt(line, k) {
      assert IndexOfPair(line, i + 2) == -1;
    }
  }

  /** A maximal run of digits is one value. */
  lemma DigitRun(line: string, i: nat, j: nat)
    requires i < j <= |line|
    requires forall k :: i <= k < j ==> IsDigit(line[k])
    requires j == |line| || !IsDigit(line[j])
    ensures SegmentsFrom(line, i) == [Segment(Value, line[i..j])] + SegmentsFrom(line, j)
  {
    assert IsDigit(line[i]);
    assert DigitEnd(line, i) == j;
  }

  /** Each operator is a one-character value of its own. */
  lemma Operator(line: string, i: nat)
    requires i < |line| && IsOp(line[i])
    ensures SegmentsFrom(line, i) == [Segment(Value, [line[i]])] + SegmentsFrom(line, i + 1)
  {
  }

  /** A maximal run of plain text is one normal segment. */
  lemma NormalRun(line: string, i: nat, j: nat)
    requires i < j <= |line|
    requires forall k :: i <= k < j ==> !StopsNormal(line, k)
    requires j == |line| || StopsNormal(line, j)
    ensures SegmentsFrom(line, i) == [Segment(Normal, line[i..j])] + SegmentsFrom(line, j)
  {
    assert !StopsNormal(line, i);
    assert NormalEnd(line, i) == j;
  }

  // ---------------------------------------------------------------------
  // Reassembly
  // ---------------------------------------------------------------------

  /** A segment's text as it stood in the line: brackets put back around bracket text. */
  function Source(s: Segment): string {
    if s.kind == Bracket then "[" + s.text + "]" else s.text
  }

  function Render(segments: seq<Segment>): string {
    if segments == [] then "" else Source(segments[0]) + Render(segments[1..])
  }

  lemma RenderPrepend(emitted: seq<Segment>, rest: seq<Segment>)
    requires |emitted| <= 1
    ensures Render(emitted + rest) == Render(emitted) + Render(rest)
  {
    if emitted != [] {
      assert (emitted + rest)[1..] == rest;
      assert emitted[1..] == [];
      assert Render(emitted) == Source(emitted[0]) + Render([]);
    } else {
      assert emitted + rest == rest;
    }
  }

  lemma StepRender(line: string, i: nat)
    requires i < |line|
    requires NoPair(line)
    ensures Render(Step(line, i).0) == line[i..Step(line, i).1]
  {
    assert !PairAt(line, i);
    if line[i] == '[' {
      var end := IndexOf(line, ']', i);
      if end != -1 {
        assert line[i..end + 1] == "[" + line[i + 1..end] + "]";
      }
    }
    var (emitted, next) := Step(line, i);
    assert emitted != [];
    assert emitted[1..] == [];
  }

  /** Without "::" in the line, the segments reassemble into the line from `i` on. */
  lemma {:induction false} RenderSegmentsFrom(line: string, i: nat)
    requires i <= |line|
    requires NoPair(line)
    ensures Render(SegmentsFrom(line, i)) == line[i..]
    decreases |line| - i
  {
    if i < |line| {
      var (emitted, next) := Step(line, i);
      RenderSegmentsFrom(line, next);
      RenderPrepend(emitted, SegmentsFrom(line, next));
      StepRender(line, i);
      assert line[i..next] + line[next..] == line[i..];
    }
  }

  /** A line without "::" is exactly the concatenation of its segments, brackets re-wrapped. */
  lemma RenderTokenize(line: string)
    requires NoPair(line)
    ensures Render(Tokenize(line)) == line
  {
    RenderSegmentsFrom(line, 0);
  }
}
