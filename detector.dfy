/**
 * The scan driver of the function detector: one pass over the lines of an
 * assembly file with a two-state machine (outside / inside a function),
 * emitting a 1-based `(start, end)` pair each time an epilogue line closes
 * the function opened by the most recent label.
 *
 * The loop only ever asks three questions of a line: is it a label, a
 * prologue, an epilogue. `Step` and `Run` are the loop as functions of the
 * answers (`LineClass`) for the lines read so far; `Detected` applies them
 * to the classifiers' answers for a file. The predicate `Scanned` states,
 * without reference to the loop, what the output means; `Run` satisfies it
 * (`RunScanned`) and is the only thing that does (`ScannedUnique`). The
 * method `DetectFunction` is the loop as written and computes `Detected`.
 */
module Detector {
  import opened Text
  import opened Classify

  /** A detected function: the 1-based lines of its label and of the epilogue that closed it. */
  datatype FunctionSpan = FunctionSpan(startLine: int, endLine: int)

  /** `in_function` together with the 0-based index of the pending label. */
  datatype ScanState = Outside | Inside(startIndex: nat)

  datatype Option<T> = None | Some(value: T)

  /** The answers of the three classifiers for one line. */
  datatype Answers = Answers(isLabel: bool, isPrologue: bool, isEpilogue: bool)

  /** Answers that the classifiers can give together: never both prologue and epilogue. */
  type LineClass = a: Answers | !(a.isPrologue && a.isEpilogue) witness Answers(false, false, false)

  /** What the classifiers say about `line`. */
  function ClassOf(line: string): LineClass {
    PrologueEpilogueDisjoint(line);
    Answers(IsLabel(line), DetectFunctionPrologue(line), DetectFunctionEpilogue(line))
  }

  /** What the classifiers say about each line of `lines`. */
  function ClassesOf(lines: seq<string>): (kinds: seq<LineClass>)
    ensures |kinds| == |lines|
  {
    seq(|lines|, i requires 0 <= i < |lines| => ClassOf(lines[i]))
  }

  // ---------------------------------------------------------------------
  // The loop as functions
  // ---------------------------------------------------------------------

  /** One iteration of the loop body, on a line at 0-based index `i` classified as `c`. */
  function Step(st: ScanState, spans: seq<FunctionSpan>, c: LineClass, i: nat): (ScanState, seq<FunctionSpan>)
  {
    if c.isLabel && st.Outside? then (Inside(i), spans)
    else if st.Inside? && c.isPrologue then (st, spans)
    else if st.Inside? && c.isEpilogue then
      (Outside, spans + [FunctionSpan(st.startIndex + 1, i + 1)])
    else (st, spans)
  }

  /** State and output once the loop has run over lines classified as `kinds`. */
  function Run(kinds: seq<LineClass>): (ScanState, seq<FunctionSpan>)
    decreases |kinds|
  {
    if kinds == [] then (Outside, [])
    else
      var prev := Run(kinds[..|kinds| - 1]);
      Step(prev.0, prev.1, kinds[|kinds| - 1], |kinds| - 1)
  }

  /** The list of spans the detector returns for `lines`. */
  function Detected(lines: seq<string>): seq<FunctionSpan> {
    Run(ClassesOf(lines)).1
  }

  // ---------------------------------------------------------------------
  // What the output means
  // ---------------------------------------------------------------------

  /** No line at a 0-based index in `[lo, hi)` is an epilogue. */
  ghost predicate EpilogueFree(kinds: seq<LineClass>, lo: int, hi: int) {
    0 <= lo <= hi <= |kinds| && forall q :: lo <= q < hi ==> !kinds[q].isEpilogue
  }

  /**
   * `sp` lies within the first `n` kinds, starts at a label, ends at an
   * epilogue, is at least two lines long, and no line strictly between its
   * ends is an epilogue: its end is the first epilogue after its label.
   */
  ghost predicate ClosedSpan(kinds: seq<LineClass>, n: int, sp: FunctionSpan) {
    1 <= sp.startLine < sp.endLine <= n <= |kinds|
    && kinds[sp.startLine - 1].isLabel
    && kinds[sp.endLine - 1].isEpilogue
    && EpilogueFree(kinds, sp.startLine, sp.endLine - 1)
  }

  /** Every span in `spans` is closed within the first `n` kinds. */
  ghost predicate AllClosed(kinds: seq<LineClass>, n: int, spans: seq<FunctionSpan>) {
    forall j {:trigger ClosedSpan(kinds, n, spans[j])} :: 0 <= j < |spans| ==> ClosedSpan(kinds, n, spans[j])
  }

  /** Each span starts after the previous one ends. */
  ghost predicate Ordered(spans: seq<FunctionSpan>) {
    forall j :: 0 < j < |spans| ==> spans[j - 1].endLine < spans[j].startLine
  }

  /**
   * A pending function opened at a label after every emitted span, with no
   * epilogue after it among the first `n` kinds.
   */
  ghost predicate OpenSpan(kinds: seq<LineClass>, n: int, st: ScanState, spans: seq<FunctionSpan>) {
    st.Inside? ==>
      st.startIndex < n <= |kinds| && kinds[st.startIndex].isLabel
      && EpilogueFree(kinds, st.startIndex + 1, n)
      && (|spans| > 0 ==> spans[|spans| - 1].endLine <= st.startIndex)
  }

  /** Line `q` (0-based) lies within `sp`, ends included. */
  ghost predicate InSpan(sp: FunctionSpan, q: int) {
    sp.startLine <= q + 1 <= sp.endLine
  }

  /** Line `q` (0-based) lies in an emitted span or at or after the pending label. */
  ghost predicate Covered(spans: seq<FunctionSpan>, st: ScanState, q: int) {
    (exists j :: 0 <= j < |spans| && InSpan(spans[j], q))
    || (st.Inside? && st.startIndex <= q)
  }

  /** Every label among the first `n` kinds is covered. */
  ghost predicate LabelsCovered(kinds: seq<LineClass>, n: int, st: ScanState, spans: seq<FunctionSpan>) {
    n <= |kinds| && forall q :: 0 <= q < n && kinds[q].isLabel ==> Covered(spans, st, q)
  }

  /**
   * After `n` kinds the state is `st` and the output `spans`: every span is
   * closed and they are in order, the pending function (if any) is open,
   * and every label among the first `n` kinds is covered.
   */
  ghost predicate Scanned(kinds: seq<LineClass>, n: int, st: ScanState, spans: seq<FunctionSpan>) {
    0 <= n <= |kinds|
    && AllClosed(kinds, n, spans)
    && Ordered(spans)
    && OpenSpan(kinds, n, st, spans)
    && LabelsCovered(kinds, n, st, spans)
  }

  // ---------------------------------------------------------------------
  // One iteration, by cases
  // ---------------------------------------------------------------------

  /**
   * Inside a function a line changes nothing unless it is an epilogue, which
   * closes the pending span; in particular a label there does not restart
   * it, and a prologue line never closes it.
   */
  lemma InsideStep(p: nat, spans: seq<FunctionSpan>, c: LineClass, i: nat)
    ensures Step(Inside(p), spans, c, i)
            == if c.isEpilogue then (Outside, spans + [FunctionSpan(p + 1, i + 1)])
               else (Inside(p), spans)
  {
  }

  /** In an ordered list of closed spans each span ends no later than any later span. */
  lemma {:induction false} OrderedEnds(kinds: seq<LineClass>, n: int, spans: seq<FunctionSpan>, j: int, k: int)
    requires AllClosed(kinds, n, spans) && Ordered(spans) && 0 <= j <= k < |spans|
    ensures spans[j].endLine <= spans[k].endLine
    ensures j < k ==> spans[j].endLine < spans[k].startLine
    decreases k - j
  {
    if j < k {
      assert ClosedSpan(kinds, n, spans[j + 1]);
      OrderedEnds(kinds, n, spans, j + 1, k);
    }
  }

  /** A closed span needs at least two kinds. */
  lemma FirstSpanFits(kinds: seq<LineClass>, n: int, spans: seq<FunctionSpan>)
    requires AllClosed(kinds, n, spans)
    ensures |spans| > 0 ==> 2 <= n
  {
    if |spans| > 0 {
      assert ClosedSpan(kinds, n, spans[0]);
    }
  }

  /** Among ordered closed spans, the last one ends last. */
  lemma LastEndsLast(kinds: seq<LineClass>, n: int, spans: seq<FunctionSpan>)
    requires AllClosed(kinds, n, spans) && Ordered(spans) && |spans| > 0
    ensures forall j :: 0 <= j < |spans| ==> spans[j].endLine <= spans[|spans| - 1].endLine
  {
    forall j | 0 <= j < |spans| ensures spans[j].endLine <= spans[|spans| - 1].endLine {
      OrderedEnds(kinds, n, spans, j, |spans| - 1);
    }
  }

  /** Spans closed within `n` kinds are closed within any longer prefix. */
  lemma AllClosedGrow(kinds: seq<LineClass>, n: int, n': int, spans: seq<FunctionSpan>)
    requires AllClosed(kinds, n, spans) && n <= n' <= |kinds|
    ensures AllClosed(kinds, n', spans)
  {
    forall j | 0 <= j < |spans| ensures ClosedSpan(kinds, n', spans[j]) {
      assert ClosedSpan(kinds, n, spans[j]);
    }
  }

  /** Ordered closed spans that all end before line `n` are closed within `n - 1` lines. */
  lemma AllClosedShrink(kinds: seq<LineClass>, n: int, spans: seq<FunctionSpan>)
    requires AllClosed(kinds, n, spans) && Ordered(spans)
    requires |spans| > 0 ==> spans[|spans| - 1].endLine < n
    ensures AllClosed(kinds, n - 1, spans)
  {
    if |spans| > 0 {
      LastEndsLast(kinds, n, spans);
      forall j | 0 <= j < |spans| ensures ClosedSpan(kinds, n - 1, spans[j]) {
        assert ClosedSpan(kinds, n, spans[j]);
      }
    }
  }

  /** A label-line outside a function opens one at that line. */
  lemma StepOpens(kinds: seq<LineClass>, m: nat, spans: seq<FunctionSpan>)
    requires m < |kinds| && kinds[m].isLabel
    requires Scanned(kinds, m, Outside, spans)
    ensures Scanned(kinds, m + 1, Inside(m), spans)
  {
    AllClosedGrow(kinds, m, m + 1, spans);
    if |spans| > 0 {
      assert ClosedSpan(kinds, m, spans[|spans| - 1]);
    }
    forall q | 0 <= q < m + 1 && kinds[q].isLabel ensures Covered(spans, Inside(m), q) {
      if q < m {
        assert Covered(spans, Outside, q);
      }
    }
  }

  /** An epilogue line inside a function closes it. */
  lemma StepCloses(kinds: seq<LineClass>, m: nat, p: nat, spans: seq<FunctionSpan>)
    requires m < |kinds| && kinds[m].isEpilogue
    requires Scanned(kinds, m, Inside(p), spans)
    ensures Scanned(kinds, m + 1, Outside, spans + [FunctionSpan(p + 1, m + 1)])
  {
    var sp := FunctionSpan(p + 1, m + 1);
    var spans' := spans + [sp];
    assert ClosedSpan(kinds, m + 1, sp);
    AllClosedGrow(kinds, m, m + 1, spans);
    forall j | 0 <= j < |spans'| ensures ClosedSpan(kinds, m + 1, spans'[j]) {
      if j < |spans| {
        assert spans'[j] == spans[j];
      }
    }
    forall j | 0 < j < |spans'| ensures spans'[j - 1].endLine < spans'[j].startLine {
      if j < |spans| {
        assert spans'[j - 1] == spans[j - 1] && spans'[j] == spans[j];
      }
    }
    forall q | 0 <= q < m + 1 && kinds[q].isLabel ensures Covered(spans', Outside, q) {
      if q < p {
        assert Covered(spans, Inside(p), q);
        var j :| 0 <= j < |spans| && InSpan(spans[j], q);
        assert spans'[j] == spans[j];
      } else {
        assert InSpan(spans'[|spans|], q);
      }
    }
  }

  /** A line that is not an epilogue leaves a function open. */
  lemma StepStaysInside(kinds: seq<LineClass>, m: nat, p: nat, spans: seq<FunctionSpan>)
    requires m < |kinds| && !kinds[m].isEpilogue
    requires Scanned(kinds, m, Inside(p), spans)
    ensures Scanned(kinds, m + 1, Inside(p), spans)
  {
    AllClosedGrow(kinds, m, m + 1, spans);
    forall q | 0 <= q < m + 1 && kinds[q].isLabel ensures Covered(spans, Inside(p), q) {
      if q < m {
        assert Covered(spans, Inside(p), q);
      }
    }
  }

  /** A line that is not a label leaves the scan outside any function. */
  lemma StepStaysOutside(kinds: seq<LineClass>, m: nat, spans: seq<FunctionSpan>)
    requires m < |kinds| && !kinds[m].isLabel
    requires Scanned(kinds, m, Outside, spans)
    ensures Scanned(kinds, m + 1, Outside, spans)
  {
    AllClosedGrow(kinds, m, m + 1, spans);
    forall q | 0 <= q < m + 1 && kinds[q].isLabel ensures Covered(spans, Outside, q) {
      assert q < m;
    }
  }

  /** One more line keeps `Scanned`. */
  lemma StepScanned(kinds: seq<LineClass>, m: nat, st: ScanState, spans: seq<FunctionSpan>)
    requires m < |kinds|
    requires Scanned(kinds, m, st, spans)
    ensures var next := Step(st, spans, kinds[m], m); Scanned(kinds, m + 1, next.0, next.1)
  {
    var c := kinds[m];
    match st
    case Outside =>
      if c.isLabel {
        StepOpens(kinds, m, spans);
      } else {
        StepStaysOutside(kinds, m, spans);
      }
    case Inside(p) =>
      InsideStep(p, spans, c, m);
      if c.isEpilogue {
        StepCloses(kinds, m, p, spans);
      } else {
        StepStaysInside(kinds, m, p, spans);
      }
  }

  /** `Run` satisfies `Scanned` after every prefix of the input. */
  lemma {:induction false} RunScanned(kinds: seq<LineClass>, n: nat)
    requires n <= |kinds|
    ensures Scanned(kinds, n, Run(kinds[..n]).0, Run(kinds[..n]).1)
  {
    if n > 0 {
      RunScanned(kinds, n - 1);
      assert kinds[..n][..n - 1] == kinds[..n - 1];
      var prev := Run(kinds[..n - 1]);
      StepScanned(kinds, n - 1, prev.0, prev.1);
    }
  }

  // ---------------------------------------------------------------------
  // `Scanned` determines the output
  // ---------------------------------------------------------------------

  /** Undoing a label that was just opened. */
  lemma BackOpened(kinds: seq<LineClass>, n: nat, spans: seq<FunctionSpan>)
    requires 0 < n && Scanned(kinds, n, Inside(n - 1), spans)
    ensures kinds[n - 1].isLabel
    ensures Scanned(kinds, n - 1, Outside, spans)
  {
    AllClosedShrink(kinds, n, spans);
    forall q | 0 <= q < n - 1 && kinds[q].isLabel ensures Covered(spans, Outside, q) {
      assert Covered(spans, Inside(n - 1), q);
    }
  }

  /** Undoing a line inside a function that did not close it. */
  lemma BackInside(kinds: seq<LineClass>, n: nat, p: nat, spans: seq<FunctionSpan>)
    requires 0 < n && p < n - 1 && Scanned(kinds, n, Inside(p), spans)
    ensures !kinds[n - 1].isEpilogue
    ensures Scanned(kinds, n - 1, Inside(p), spans)
  {
    AllClosedShrink(kinds, n, spans);
  }

  /** Undoing the epilogue that closed the last span. */
  lemma BackClosed(kinds: seq<LineClass>, n: nat, spans: seq<FunctionSpan>)
    requires 0 < n && Scanned(kinds, n, Outside, spans)
    requires |spans| > 0 && spans[|spans| - 1].endLine == n
    ensures kinds[n - 1].isEpilogue
    ensures 1 <= spans[|spans| - 1].startLine
    ensures Scanned(kinds, n - 1, Inside(spans[|spans| - 1].startLine - 1), spans[..|spans| - 1])
  {
    var sp := spans[|spans| - 1];
    var spans' := spans[..|spans| - 1];
    assert ClosedSpan(kinds, n, sp);
    var st' := Inside(sp.startLine - 1);
    assert AllClosed(kinds, n - 1, spans') by {
      forall j | 0 <= j < |spans'| ensures ClosedSpan(kinds, n - 1, spans'[j]) {
        assert spans'[j] == spans[j];
        assert ClosedSpan(kinds, n, spans[j]);
        OrderedEnds(kinds, n, spans, j, |spans| - 1);
      }
    }
    assert Ordered(spans') by {
      forall j | 0 < j < |spans'| ensures spans'[j - 1].endLine < spans'[j].startLine {
        assert spans'[j - 1] == spans[j - 1] && spans'[j] == spans[j];
      }
    }
    assert OpenSpan(kinds, n - 1, st', spans') by {
      if |spans'| > 0 {
        OrderedEnds(kinds, n, spans, |spans'| - 1, |spans| - 1);
        assert spans'[|spans'| - 1] == spans[|spans'| - 1];
      }
    }
    assert LabelsCovered(kinds, n - 1, st', spans') by {
      forall q | 0 <= q < n - 1 && kinds[q].isLabel ensures Covered(spans', st', q) {
        assert Covered(spans, Outside, q);
        var j :| 0 <= j < |spans| && InSpan(spans[j], q);
        if j < |spans'| {
          assert spans'[j] == spans[j];
        }
      }
    }
  }

  /** Undoing a line outside every function. */
  lemma BackOutside(kinds: seq<LineClass>, n: nat, spans: seq<FunctionSpan>)
    requires 0 < n && Scanned(kinds, n, Outside, spans)
    requires |spans| > 0 ==> spans[|spans| - 1].endLine < n
    ensures !kinds[n - 1].isLabel
    ensures Scanned(kinds, n - 1, Outside, spans)
  {
    AllClosedShrink(kinds, n, spans);
    if kinds[n - 1].isLabel {
      LastEndsLast(kinds, n, spans);
      assert false;
    }
  }

  /** Undoing the last line of a `Scanned` configuration gives a `Scanned` one that steps to it. */
  lemma StepBack(kinds: seq<LineClass>, n: nat, st: ScanState, spans: seq<FunctionSpan>)
      returns (st': ScanState, spans': seq<FunctionSpan>)
    requires 0 < n && Scanned(kinds, n, st, spans)
    ensures Scanned(kinds, n - 1, st', spans')
    ensures Step(st', spans', kinds[n - 1], n - 1) == (st, spans)
  {
    var c := kinds[n - 1];
    match st
    case Inside(p) =>
      if p == n - 1 {
        BackOpened(kinds, n, spans);
        st', spans' := Outside, spans;
      } else {
        BackInside(kinds, n, p, spans);
        st', spans' := st, spans;
        InsideStep(p, spans, c, n - 1);
      }
    case Outside =>
      if |spans| > 0 && spans[|spans| - 1].endLine == n {
        BackClosed(kinds, n, spans);
        var sp := spans[|spans| - 1];
        st', spans' := Inside(sp.startLine - 1), spans[..|spans| - 1];
        InsideStep(sp.startLine - 1, spans', c, n - 1);
        assert spans' + [sp] == spans;
      } else {
        if |spans| > 0 {
          assert ClosedSpan(kinds, n, spans[|spans| - 1]);
        }
        BackOutside(kinds, n, spans);
        st', spans' := Outside, spans;
      }
  }

  /** `Scanned` determines the state and the output: they are those of `Run`. */
  lemma {:induction false} ScannedUnique(kinds: seq<LineClass>, n: nat, st: ScanState, spans: seq<FunctionSpan>)
    requires Scanned(kinds, n, st, spans)
    ensures (st, spans) == Run(kinds[..n])
  {
    if n == 0 {
      assert kinds[..0] == [];
      FirstSpanFits(kinds, 0, spans);
    } else {
      var st', spans' := StepBack(kinds, n, st, spans);
      ScannedUnique(kinds, n - 1, st', spans');
      assert kinds[..n][..n - 1] == kinds[..n - 1];
    }
  }

  // ---------------------------------------------------------------------
  // Properties of the detector's output
  // ---------------------------------------------------------------------

  /**
   * `sp` is a function of `lines`: `1 <= start < end <= |lines|`, the start
   * line is a label, the end line is an epilogue and no line strictly
   * between them is one.
   */
  ghost predicate LinesSpan(lines: seq<string>, sp: FunctionSpan) {
    1 <= sp.startLine < sp.endLine <= |lines|
    && IsLabel(lines[sp.startLine - 1])
    && DetectFunctionEpilogue(lines[sp.endLine - 1])
    && forall q :: sp.startLine <= q < sp.endLine - 1 ==> !DetectFunctionEpilogue(lines[q])
  }

  /** The class of line `q` records the three classifiers' answers for it. */
  lemma ClassAt(lines: seq<string>, q: int)
    requires 0 <= q < |lines|
    ensures ClassesOf(lines)[q].isLabel == IsLabel(lines[q])
    ensures ClassesOf(lines)[q].isPrologue == DetectFunctionPrologue(lines[q])
    ensures ClassesOf(lines)[q].isEpilogue == DetectFunctionEpilogue(lines[q])
  {
  }

  /** The first line of a span closed over the classes of `lines` is a label. */
  lemma ClosedLinesStart(lines: seq<string>, sp: FunctionSpan)
    requires ClosedSpan(ClassesOf(lines), |lines|, sp)
    ensures IsLabel(lines[sp.startLine - 1])
  {
    ClassAt(lines, sp.startLine - 1);
  }

  /** The last line of a span closed over the classes of `lines` is an epilogue. */
  lemma ClosedLinesEnd(lines: seq<string>, sp: FunctionSpan)
    requires ClosedSpan(ClassesOf(lines), |lines|, sp)
    ensures DetectFunctionEpilogue(lines[sp.endLine - 1])
  {
    ClassAt(lines, sp.endLine - 1);
  }

  /** No line strictly inside a span closed over the classes of `lines` is an epilogue. */
  lemma ClosedLinesInterior(lines: seq<string>, sp: FunctionSpan, q: int)
    requires ClosedSpan(ClassesOf(lines), |lines|, sp)
    requires sp.startLine <= q < sp.endLine - 1
    ensures !DetectFunctionEpilogue(lines[q])
  {
    ClassAt(lines, q);
  }

  /** A span closed over the classes of `lines` is a function of `lines`. */
  lemma ClosedLinesSpan(lines: seq<string>, sp: FunctionSpan)
    requires ClosedSpan(ClassesOf(lines), |lines|, sp)
    ensures LinesSpan(lines, sp)
  {
    ClosedLinesStart(lines, sp);
    ClosedLinesEnd(lines, sp);
    forall q | sp.startLine <= q < sp.endLine - 1 ensures !DetectFunctionEpilogue(lines[q]) {
      ClosedLinesInterior(lines, sp, q);
    }
  }

  /**
   * The output is exactly the list of spans that, with some final state,
   * satisfies `Scanned` over the classes of every line.
   */
  lemma {:induction false} DetectedCharacterized(lines: seq<string>, spans: seq<FunctionSpan>)
    ensures spans == Detected(lines) <==> exists st :: Scanned(ClassesOf(lines), |lines|, st, spans)
  {
    var kinds := ClassesOf(lines);
    assert kinds[..|kinds|] == kinds;
    RunScanned(kinds, |kinds|);
    if st :| Scanned(kinds, |lines|, st, spans) {
      ScannedUnique(kinds, |kinds|, st, spans);
    }
  }

  /**
   * Every span satisfies `1 <= start < end <= |lines|`, starts at a label
   * and ends at the first epilogue after it; the spans are strictly ordered
   * and do not overlap.
   */
  lemma {:induction false} DetectedSpans(lines: seq<string>)
    ensures forall j :: 0 <= j < |Detected(lines)| ==> LinesSpan(lines, Detected(lines)[j])
    ensures Ordered(Detected(lines))
  {
    var kinds := ClassesOf(lines);
    assert kinds[..|kinds|] == kinds;
    RunScanned(kinds, |kinds|);
    var spans := Detected(lines);
    forall j | 0 <= j < |spans| ensures LinesSpan(lines, spans[j]) {
      assert ClosedSpan(kinds, |lines|, spans[j]);
      ClosedLinesSpan(lines, spans[j]);
    }
  }

  /** An empty file yields no spans. */
  lemma EmptyInput()
    ensures Detected([]) == []
  {
  }

  /**
   * A label that is not an epilogue, with no epilogue after it, lies in no
   * emitted span, and the scan ends inside a function opened at or before it.
   */
  lemma UnclosedKinds(kinds: seq<LineClass>, q: nat)
    requires q < |kinds| && kinds[q].isLabel && !kinds[q].isEpilogue
    requires EpilogueFree(kinds, q + 1, |kinds|)
    ensures forall j :: 0 <= j < |Run(kinds).1| ==> Run(kinds).1[j].endLine <= q
    ensures Run(kinds).0.Inside? && Run(kinds).0.startIndex <= q
  {
    assert kinds[..|kinds|] == kinds;
    RunScanned(kinds, |kinds|);
    var st, spans := Run(kinds).0, Run(kinds).1;
    forall j | 0 <= j < |spans| ensures spans[j].endLine <= q {
      assert ClosedSpan(kinds, |kinds|, spans[j]);
    }
    assert Covered(spans, st, q);
  }

  /** No line after `q` is an epilogue, in terms of the classes of `lines`. */
  lemma EpilogueFreeAfter(lines: seq<string>, q: nat)
    requires q < |lines|
    requires forall r :: q < r < |lines| ==> !DetectFunctionEpilogue(lines[r])
    ensures EpilogueFree(ClassesOf(lines), q + 1, |lines|)
  {
    forall r | q + 1 <= r < |lines| ensures !ClassesOf(lines)[r].isEpilogue {
      ClassAt(lines, r);
    }
  }

  /**
   * A label line that is not itself an epilogue and has no epilogue after
   * it lies in no emitted span: the scan ends inside an open function that
   * is never emitted.
   */
  lemma UnclosedLabel(lines: seq<string>, q: nat)
    requires q < |lines| && IsLabel(lines[q]) && !DetectFunctionEpilogue(lines[q])
    requires forall r :: q < r < |lines| ==> !DetectFunctionEpilogue(lines[r])
    ensures forall j :: 0 <= j < |Detected(lines)| ==> Detected(lines)[j].endLine <= q
    ensures Run(ClassesOf(lines)).0.Inside? && Run(ClassesOf(lines)).0.startIndex <= q
  {
    ClassAt(lines, q);
    EpilogueFreeAfter(lines, q);
    UnclosedKinds(ClassesOf(lines), q);
  }

  /** The loop body without the prologue `continue`. */
  function StepWithoutPrologue(st: ScanState, spans: seq<FunctionSpan>, c: LineClass, i: nat): (ScanState, seq<FunctionSpan>)
  {
    if c.isLabel && st.Outside? then (Inside(i), spans)
    else if st.Inside? && c.isEpilogue then
      (Outside, spans + [FunctionSpan(st.startIndex + 1, i + 1)])
    else (st, spans)
  }

  /** The loop run with `StepWithoutPrologue`. */
  function RunWithoutPrologue(kinds: seq<LineClass>): (ScanState, seq<FunctionSpan>)
    decreases |kinds|
  {
    if kinds == [] then (Outside, [])
    else
      var prev := RunWithoutPrologue(kinds[..|kinds| - 1]);
      StepWithoutPrologue(prev.0, prev.1, kinds[|kinds| - 1], |kinds| - 1)
  }

  /** The prologue test never changes the state or the output. */
  lemma {:induction false} PrologueIsInert(kinds: seq<LineClass>)
    ensures RunWithoutPrologue(kinds) == Run(kinds)
    decreases |kinds|
  {
    if kinds != [] {
      PrologueIsInert(kinds[..|kinds| - 1]);
    }
  }

  /** Spans are emitted in order and never retracted: classifying more lines only appends. */
  lemma {:induction false} RunGrows(kinds: seq<LineClass>, n: nat)
    requires n <= |kinds|
    ensures Run(kinds[..n]).1 <= Run(kinds).1
    decreases |kinds| - n
  {
    if n < |kinds| {
      RunGrows(kinds, n + 1);
      assert kinds[..n + 1][..n] == kinds[..n];
      assert Run(kinds[..n]).1 <= Run(kinds[..n + 1]).1;
    } else {
      assert kinds[..n] == kinds;
    }
  }

  /** The spans found in the first `n` lines of a file are a prefix of those found in the whole file. */
  lemma DetectedGrows(lines: seq<string>, n: nat)
    requires n <= |lines|
    ensures Detected(lines[..n]) <= Detected(lines)
  {
    assert ClassesOf(lines[..n]) == ClassesOf(lines)[..n];
    RunGrows(ClassesOf(lines), n);
  }

  /**
   * `kinds` holds the classes of `lines`, entry by entry. The entries are
   * reached only through the lines themselves, so a proof that indexes
   * `kinds` does not unfold the classifiers of every line it touches.
   */
  ghost predicate Classifies(kinds: seq<LineClass>, lines: seq<string>) {
    |kinds| == |lines| && forall q {:trigger lines[q]} :: 0 <= q < |lines| ==> kinds[q] == ClassOf(lines[q])
  }

  lemma ClassesOfClassifies(lines: seq<string>)
    ensures Classifies(ClassesOf(lines), lines)
  {
  }

  /** Only `ClassesOf(lines)` holds the classes of `lines`. */
  lemma ClassifiesUnique(kinds: seq<LineClass>, lines: seq<string>)
    requires Classifies(kinds, lines)
    ensures kinds == ClassesOf(lines)
  {
    forall q | 0 <= q < |lines| ensures kinds[q] == ClassesOf(lines)[q] {
      assert kinds[q] == ClassOf(lines[q]);
    }
  }

  /** Running the loop over entries that hold the classes of `lines` gives the detector's output. */
  lemma ClassifiedRun(kinds: seq<LineClass>, lines: seq<string>)
    requires Classifies(kinds, lines)
    ensures Run(kinds).1 == Detected(lines)
    ensures forall j :: 0 <= j < |Run(kinds).1| ==> LinesSpan(lines, Run(kinds).1[j])
    ensures Ordered(Run(kinds).1)
  {
    ClassifiesUnique(kinds, lines);
    DetectedSpans(lines);
  }

  /** One iteration on line `i` of `lines`, in terms of the three classifiers. */
  lemma LineStep(kinds: seq<LineClass>, lines: seq<string>, i: nat, st: ScanState, spans: seq<FunctionSpan>)
    requires Classifies(kinds, lines) && i < |lines|
    ensures Step(st, spans, kinds[i], i)
            == if IsLabel(lines[i]) && st.Outside? then (Inside(i), spans)
               else if st.Inside? && DetectFunctionPrologue(lines[i]) then (st, spans)
               else if st.Inside? && DetectFunctionEpilogue(lines[i]) then
                 (Outside, spans + [FunctionSpan(st.startIndex + 1, i + 1)])
               else (st, spans)
  {
    assert kinds[i] == ClassOf(lines[i]);
  }

  // ---------------------------------------------------------------------
  // The loop as written
  // ---------------------------------------------------------------------

  /** The scan state that `in_function` and `function_start_line` stand for. */
  function StateOf(inFunction: bool, functionStartLine: Option<nat>): ScanState
    requires inFunction ==> functionStartLine.Some?
  {
    if inFunction then Inside(functionStartLine.value) else Outside
  }

  /**
   * The body of the loop on line `i`: the label test, then the prologue
   * test, then the epilogue test, each reached only when the ones before it
   * did not `continue`. `kinds` holds the classes of `lines`.
   */
  method ScanLine(lines: seq<string>, i: nat, ghost kinds: seq<LineClass>,
                  inFunction: bool, functionStartLine: Option<nat>, functions: seq<FunctionSpan>)
    returns (inFunction': bool, functionStartLine': Option<nat>, functions': seq<FunctionSpan>)
    requires Classifies(kinds, lines) && i < |lines|
    requires inFunction ==> functionStartLine.Some?
    ensures inFunction' ==> functionStartLine'.Some?
    ensures (StateOf(inFunction', functionStartLine'), functions')
            == Step(StateOf(inFunction, functionStartLine), functions, kinds[i], i)
  {
    var line := lines[i];
    LineStep(kinds, lines, i, StateOf(inFunction, functionStartLine), functions);
    inFunction', functionStartLine', functions' := inFunction, functionStartLine, functions;
    if IsLabel(line) && !inFunction {
      inFunction', functionStartLine' := true, Some(i);
      return;
    }
    if inFunction && DetectFunctionPrologue(line) {
      return;
    }
    if inFunction && DetectFunctionEpilogue(line) {
      functions' := functions + [FunctionSpan(functionStartLine.value + 1, i + 1)];
      inFunction' := false;
    }
  }

  /**
   * `detect_function` over the lines already read from the file: the value
   * `f.readlines()` returns, each line with its line feed if it had one.
   */
  method DetectFunction(lines: seq<string>) returns (functions: seq<FunctionSpan>)
    ensures functions == Detected(lines)
    ensures forall j :: 0 <= j < |functions| ==> LinesSpan(lines, functions[j])
    ensures Ordered(functions)
  {
    ClassesOfClassifies(lines);
    ghost var kinds: seq<LineClass> :| Classifies(kinds, lines);
    functions := [];
    var inFunction := false;
    var functionStartLine: Option<nat> := None;
    for i := 0 to |lines|
      invariant Classifies(kinds, lines)
      invariant inFunction ==> functionStartLine.Some?
      invariant Run(kinds[..i]) == (StateOf(inFunction, functionStartLine), functions)
    {
      assert kinds[..i + 1][..i] == kinds[..i];
      inFunction, functionStartLine, functions := ScanLine(lines, i, kinds, inFunction, functionStartLine, functions);
    }
    assert kinds[..|lines|] == kinds;
    ClassifiedRun(kinds, lines);
  }
}
