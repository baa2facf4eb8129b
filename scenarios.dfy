/**
 * Concrete lines and files run through the model: the edge cases of the
 * five prefix-matched patterns and of the label rule, and small assembly
 * files with the spans the detector returns for them. Lines carry the line
 * feed that `readlines()` leaves on every line but possibly the last.
 */
module Scenarios {
  import opened Text
  import opened Classify
  import opened Detector

  // ---------------------------------------------------------------------
  // From the patterns to the classifiers
  // ---------------------------------------------------------------------

  lemma PushLine(s: string) requires MatchesPushRbp(s) ensures DetectFunctionPrologue(s) {
    PrologueCases(s);
  }

  lemma MovLine(s: string) requires MatchesMovRspRbp(s) ensures DetectFunctionPrologue(s) {
    PrologueCases(s);
  }

  lemma SubLine(s: string) requires MatchesSubRsp(s) ensures DetectFunctionPrologue(s) {
    PrologueCases(s);
  }

  lemma PopLine(s: string) requires MatchesPopRbp(s) ensures DetectFunctionEpilogue(s) {
    EpilogueCases(s);
  }

  lemma RetLine(s: string) requires MatchesRet(s) ensures DetectFunctionEpilogue(s) {
    EpilogueCases(s);
  }

  lemma NotPrologueLine(s: string)
    requires !MatchesPushRbp(s) && !MatchesMovRspRbp(s) && !MatchesSubRsp(s)
    ensures !DetectFunctionPrologue(s)
  {
    PrologueCases(s);
  }

  lemma NotEpilogueLine(s: string)
    requires !MatchesPopRbp(s) && !MatchesRet(s)
    ensures !DetectFunctionEpilogue(s)
  {
    EpilogueCases(s);
  }

  /** A line that starts with a non-whitespace character matches only the patterns whose mnemonic starts with it. */
  lemma FirstLetter(s: string)
    requires 0 < |s| && !IsSpace(s[0])
    ensures s[0] != 'p' ==> !MatchesPushRbp(s) && !MatchesPopRbp(s)
    ensures s[0] != 'm' ==> !MatchesMovRspRbp(s)
    ensures s[0] != 's' ==> !MatchesSubRsp(s)
    ensures s[0] != 'r' ==> !MatchesRet(s)
  {
    SkipSpacesAt(s, 0, 0);
    if LitAt(s, 0, "push") { LitAtHead(s, 0, "push"); }
    if LitAt(s, 0, "mov") { LitAtHead(s, 0, "mov"); }
    if LitAt(s, 0, "sub") { LitAtHead(s, 0, "sub"); }
    if LitAt(s, 0, "pop") { LitAtHead(s, 0, "pop"); }
    if LitAt(s, 0, "ret") { LitAtHead(s, 0, "ret"); }
  }

  // ---------------------------------------------------------------------
  // Epilogue lines
  // ---------------------------------------------------------------------

  lemma RetIsEpilogue() ensures DetectFunctionEpilogue("ret\n") {
    SkipSpacesAt("ret\n", 0, 0);
    RetLine("ret\n");
  }

  /** `ret` is matched as a prefix, so `retq` and `return` are epilogues too ... */
  lemma RetqIsEpilogue() ensures DetectFunctionEpilogue("retq\n") {
    SkipSpacesAt("retq\n", 0, 0);
    RetLine("retq\n");
  }

  lemma ReturnIsEpilogue() ensures DetectFunctionEpilogue("  return") {
    SkipSpacesAt("  return", 0, 2);
    RetLine("  return");
  }

  /** ... and so is a label such as `retry:`. */
  lemma RetryIsEpilogue() ensures DetectFunctionEpilogue("retry:\n") {
    SkipSpacesAt("retry:\n", 0, 0);
    RetLine("retry:\n");
  }

  lemma PopIsEpilogue() ensures DetectFunctionEpilogue("pop %rbp\n") {
    var s := "pop %rbp\n";
    SkipSpacesAt(s, 0, 0);
    SkipSpacesAt(s, 3, 4);
    PopLine(s);
  }

  /** A suffix on the mnemonic is not `pop`. */
  lemma PopqIsNotEpilogue() ensures !DetectFunctionEpilogue("popq %rbp") {
    SkipSpacesAt("popq %rbp", 0, 0);
    FirstLetter("popq %rbp");
    NotEpilogueLine("popq %rbp");
  }

  lemma LeaveIsNotEpilogue() ensures !DetectFunctionEpilogue("leave") {
    FirstLetter("leave");
    NotEpilogueLine("leave");
  }

  // ---------------------------------------------------------------------
  // Prologue lines
  // ---------------------------------------------------------------------

  lemma PushIsPrologue() ensures DetectFunctionPrologue("push %rbp\n") {
    var s := "push %rbp\n";
    SkipSpacesAt(s, 0, 0);
    SkipSpacesAt(s, 4, 5);
    PushLine(s);
  }

  /** `push\s+%rbp` is a prefix match: what follows `%rbp` is ignored ... */
  lemma PushSuffixIsPrologue() ensures DetectFunctionPrologue("push %rbpx") {
    var s := "push %rbpx";
    SkipSpacesAt(s, 0, 0);
    SkipSpacesAt(s, 4, 5);
    PushLine(s);
  }

  /** ... but a suffix on the mnemonic is not `push`. */
  lemma PushqIsNotPrologue() ensures !DetectFunctionPrologue("pushq %rbp") {
    SkipSpacesAt("pushq %rbp", 0, 0);
    FirstLetter("pushq %rbp");
    NotPrologueLine("pushq %rbp");
  }

  lemma MovIsPrologue() ensures DetectFunctionPrologue("mov %rsp, %rbp\n") {
    var s := "mov %rsp, %rbp\n";
    assert LitAt(s, 0, "mov") && LitAt(s, 4, "%rsp,") && LitAt(s, 10, "%rbp");
    MovRspRbpComplete(s, 0, 4, 10);
    MovLine(s);
  }

  lemma NoSpaceAfterComma() ensures !MatchesMovRspRbp("mov %rsp,%rbp\n") {
    SkipSpacesAt("mov %rsp,%rbp\n", 0, 0);
    SkipSpacesAt("mov %rsp,%rbp\n", 3, 4);
  }

  /** `mov\s+%rsp,\s+%rbp` needs whitespace after the comma. */
  lemma MovWithoutSpaceIsNotPrologue() ensures !DetectFunctionPrologue("mov %rsp,%rbp\n") {
    NoSpaceAfterComma();
    FirstLetter("mov %rsp,%rbp\n");
    NotPrologueLine("mov %rsp,%rbp\n");
  }

  lemma SubIsPrologue() ensures DetectFunctionPrologue("sub $0x10, %rsp\n") {
    var s := "sub $0x10, %rsp\n";
    assert LitAt(s, 0, "sub") && NoNewline(s, 4, 10) && LitAt(s, 11, "%rsp");
    SubRspComplete(s, 0, 4, 10, 11);
    SubLine(s);
  }

  /** `sub\s+.*\s+%rsp` needs two whitespace runs: two spaces before `%rsp` are enough ... */
  lemma SubTwoSpacesIsPrologue() ensures DetectFunctionPrologue("sub  %rsp") {
    var s := "sub  %rsp";
    assert LitAt(s, 0, "sub") && LitAt(s, 5, "%rsp");
    SubRspComplete(s, 0, 4, 4, 5);
    SubLine(s);
  }

  /** ... but one is not. */
  lemma SubOneSpaceIsNotPrologue() ensures !DetectFunctionPrologue("sub %rsp") {
    FirstLetter("sub %rsp");
    NotPrologueLine("sub %rsp");
  }

  lemma SubqIsNotPrologue() ensures !DetectFunctionPrologue("subq $16, %rsp") {
    SkipSpacesAt("subq $16, %rsp", 0, 0);
    FirstLetter("subq $16, %rsp");
    NotPrologueLine("subq $16, %rsp");
  }

  // ---------------------------------------------------------------------
  // Labels
  // ---------------------------------------------------------------------

  /** A label is any line whose last non-whitespace character is a colon ... */
  lemma LabelLines()
    ensures IsLabel("func1:\n")
    ensures IsLabel("  .L2:  \n")
    ensures IsLabel("retry:")
  {
  }

  /** ... and nothing else is. */
  lemma NonLabelLines()
    ensures !IsLabel("ret\n")
    ensures !IsLabel(": x")
    ensures !IsLabel("   \n")
  {
  }

  /** A line whose last character before the line feed is a colon is a label. */
  lemma ColonAtEnd(line: string)
    requires 2 <= |line| && line[|line| - 1] == '\n' && line[|line| - 2] == ':'
    ensures IsLabel(line)
  {
    LabelIff(line);
    assert ColonAt(line, |line| - 2);
  }

  /** A line whose last character before the line feed is neither a colon nor whitespace is no label. */
  lemma NoColonAtEnd(line: string)
    requires 2 <= |line| && line[|line| - 1] == '\n'
    requires line[|line| - 2] != ':' && !IsSpace(line[|line| - 2])
    ensures !IsLabel(line)
  {
    LabelIff(line);
    forall k | 0 <= k < |line| ensures !ColonAt(line, k) {
      if k < |line| - 2 {
        assert !IsSpace(line[|line| - 2]);
      }
    }
  }

  // ---------------------------------------------------------------------
  // Classes of the lines used below
  // ---------------------------------------------------------------------

  const LabelLine: LineClass := Answers(true, false, false)
  const PrologueLine: LineClass := Answers(false, true, false)
  const EpilogueLine: LineClass := Answers(false, false, true)
  const LabelEpilogueLine: LineClass := Answers(true, false, true)

  /** A label that no pattern matches: none of them starts with its first character. */
  lemma PlainLabel(line: string)
    requires IsLabel(line) && 0 < |line| && line[0] !in "mprs" && !IsSpace(line[0])
    ensures ClassOf(line) == LabelLine
  {
    FirstLetter(line);
    NotPrologueLine(line);
    NotEpilogueLine(line);
  }

  lemma PrologueClass(line: string)
    requires !IsLabel(line) && DetectFunctionPrologue(line)
    ensures ClassOf(line) == PrologueLine
  {
    PrologueEpilogueDisjoint(line);
  }

  lemma EpilogueClass(line: string)
    requires !IsLabel(line) && DetectFunctionEpilogue(line)
    ensures ClassOf(line) == EpilogueLine
  {
    PrologueEpilogueDisjoint(line);
  }

  lemma ClassOfFunc1() ensures ClassOf("func1:\n") == LabelLine {
    ColonAtEnd("func1:\n");
    PlainLabel("func1:\n");
  }

  lemma ClassOfFunc2() ensures ClassOf("func2:\n") == LabelLine {
    ColonAtEnd("func2:\n");
    PlainLabel("func2:\n");
  }

  lemma ClassOfF() ensures ClassOf("f:\n") == LabelLine {
    ColonAtEnd("f:\n");
    PlainLabel("f:\n");
  }

  lemma ClassOfG() ensures ClassOf("g:\n") == LabelLine {
    ColonAtEnd("g:\n");
    PlainLabel("g:\n");
  }

  lemma ClassOfRetry() ensures ClassOf("retry:\n") == LabelEpilogueLine {
    ColonAtEnd("retry:\n");
    RetryIsEpilogue();
    PrologueEpilogueDisjoint("retry:\n");
  }

  lemma ClassOfPush() ensures ClassOf("push %rbp\n") == PrologueLine {
    PushIsPrologue();
    NoColonAtEnd("push %rbp\n");
    PrologueClass("push %rbp\n");
  }

  lemma ClassOfMov() ensures ClassOf("mov %rsp, %rbp\n") == PrologueLine {
    MovIsPrologue();
    NoColonAtEnd("mov %rsp, %rbp\n");
    PrologueClass("mov %rsp, %rbp\n");
  }

  lemma ClassOfSub() ensures ClassOf("sub $0x10, %rsp\n") == PrologueLine {
    SubIsPrologue();
    NoColonAtEnd("sub $0x10, %rsp\n");
    PrologueClass("sub $0x10, %rsp\n");
  }

  lemma ClassOfPop() ensures ClassOf("pop %rbp\n") == EpilogueLine {
    PopIsEpilogue();
    NoColonAtEnd("pop %rbp\n");
    EpilogueClass("pop %rbp\n");
  }

  lemma ClassOfRet() ensures ClassOf("ret\n") == EpilogueLine {
    RetIsEpilogue();
    NoColonAtEnd("ret\n");
    EpilogueClass("ret\n");
  }

  lemma Classified3(l0: string, l1: string, l2: string, c0: LineClass, c1: LineClass, c2: LineClass)
    requires ClassOf(l0) == c0 && ClassOf(l1) == c1 && ClassOf(l2) == c2
    ensures Detected([l0, l1, l2]) == Run([c0, c1, c2]).1
  {
    var lines, kinds := [l0, l1, l2], [c0, c1, c2];
    assert Classifies(kinds, lines) by {
      forall q | 0 <= q < 3 ensures kinds[q] == ClassOf(lines[q]) {
        if q == 0 { assert lines[q] == l0; } else if q == 1 { assert lines[q] == l1; } else { assert lines[q] == l2; }
      }
    }
    ClassifiedRun(kinds, lines);
  }

  lemma Classified4(l0: string, l1: string, l2: string, l3: string,
                    c0: LineClass, c1: LineClass, c2: LineClass, c3: LineClass)
    requires ClassOf(l0) == c0 && ClassOf(l1) == c1 && ClassOf(l2) == c2 && ClassOf(l3) == c3
    ensures Detected([l0, l1, l2, l3]) == Run([c0, c1, c2, c3]).1
  {
    var lines, kinds := [l0, l1, l2, l3], [c0, c1, c2, c3];
    assert Classifies(kinds, lines) by {
      forall q | 0 <= q < 4 ensures kinds[q] == ClassOf(lines[q]) {
        if q == 0 { assert lines[q] == l0; } else if q == 1 { assert lines[q] == l1; }
        else if q == 2 { assert lines[q] == l2; } else { assert lines[q] == l3; }
      }
    }
    ClassifiedRun(kinds, lines);
  }

  lemma Classified7(l0: string, l1: string, l2: string, l3: string, l4: string, l5: string, l6: string,
                    c0: LineClass, c1: LineClass, c2: LineClass, c3: LineClass,
                    c4: LineClass, c5: LineClass, c6: LineClass)
    requires ClassOf(l0) == c0 && ClassOf(l1) == c1 && ClassOf(l2) == c2 && ClassOf(l3) == c3
    requires ClassOf(l4) == c4 && ClassOf(l5) == c5 && ClassOf(l6) == c6
    ensures Detected([l0, l1, l2, l3, l4, l5, l6]) == Run([c0, c1, c2, c3, c4, c5, c6]).1
  {
    var lines, kinds := [l0, l1, l2, l3, l4, l5, l6], [c0, c1, c2, c3, c4, c5, c6];
    assert Classifies(kinds, lines) by {
      forall q | 0 <= q < 7 ensures kinds[q] == ClassOf(lines[q]) {
        if q == 0 { assert lines[q] == l0; } else if q == 1 { assert lines[q] == l1; }
        else if q == 2 { assert lines[q] == l2; } else if q == 3 { assert lines[q] == l3; }
        else if q == 4 { assert lines[q] == l4; } else if q == 5 { assert lines[q] == l5; }
        else { assert lines[q] == l6; }
      }
    }
    ClassifiedRun(kinds, lines);
  }

  // ---------------------------------------------------------------------
  // The scan over the classes of those files
  // ---------------------------------------------------------------------

  lemma RunLabelProloguesEpilogue()
    ensures Run([LabelLine, PrologueLine, PrologueLine, EpilogueLine]).1 == [FunctionSpan(1, 4)]
  {
    var L, P, E := LabelLine, PrologueLine, EpilogueLine;
    assert Run([L]) == (Inside(0), []);
    assert [L, P][..1] == [L];
    assert Run([L, P]) == (Inside(0), []);
    assert [L, P, P][..2] == [L, P];
    assert Run([L, P, P]) == (Inside(0), []);
    assert [L, P, P, E][..3] == [L, P, P];
    assert Run([L, P, P, E]) == Step(Inside(0), [], E, 3);
    assert [] + [FunctionSpan(1, 4)] == [FunctionSpan(1, 4)];
  }

  lemma RunTwoSpans()
    ensures Run([LabelLine, PrologueLine, EpilogueLine, LabelLine, PrologueLine, EpilogueLine, EpilogueLine]).1
            == [FunctionSpan(1, 3), FunctionSpan(4, 6)]
  {
    var L, P, E := LabelLine, PrologueLine, EpilogueLine;
    var s1, s2 := FunctionSpan(1, 3), FunctionSpan(4, 6);
    assert Run([L]) == (Inside(0), []);
    assert [L, P][..1] == [L];
    assert Run([L, P]) == (Inside(0), []);
    assert [L, P, E][..2] == [L, P];
    assert Run([L, P, E]) == Step(Inside(0), [], E, 2);
    assert [] + [s1] == [s1];
    assert Run([L, P, E]) == (Outside, [s1]);
    assert [L, P, E, L][..3] == [L, P, E];
    assert Run([L, P, E, L]) == (Inside(3), [s1]);
    assert [L, P, E, L, P][..4] == [L, P, E, L];
    assert Run([L, P, E, L, P]) == (Inside(3), [s1]);
    assert [L, P, E, L, P, E][..5] == [L, P, E, L, P];
    assert Run([L, P, E, L, P, E]) == Step(Inside(3), [s1], E, 5);
    assert [s1] + [s2] == [s1, s2];
    assert Run([L, P, E, L, P, E]) == (Outside, [s1, s2]);
    assert [L, P, E, L, P, E, E][..6] == [L, P, E, L, P, E];
  }

  lemma RunLabelPrologues()
    ensures Run([LabelLine, PrologueLine, PrologueLine]).1 == []
  {
    var L, P := LabelLine, PrologueLine;
    assert Run([L]) == (Inside(0), []);
    assert [L, P][..1] == [L];
    assert Run([L, P]) == (Inside(0), []);
    assert [L, P, P][..2] == [L, P];
  }

  lemma RunLabelPrologueEpilogue()
    ensures Run([LabelLine, PrologueLine, EpilogueLine]).1 == [FunctionSpan(1, 3)]
  {
    var L, P, E := LabelLine, PrologueLine, EpilogueLine;
    assert Run([L]) == (Inside(0), []);
    assert [L, P][..1] == [L];
    assert Run([L, P]) == (Inside(0), []);
    assert [L, P, E][..2] == [L, P];
    assert Run([L, P, E]) == Step(Inside(0), [], E, 2);
    assert [] + [FunctionSpan(1, 3)] == [FunctionSpan(1, 3)];
  }

  lemma RunLabelsEpilogue()
    ensures Run([LabelLine, LabelLine, EpilogueLine]).1 == [FunctionSpan(1, 3)]
  {
    var L, E := LabelLine, EpilogueLine;
    assert Run([L]) == (Inside(0), []);
    assert [L, L][..1] == [L];
    assert Run([L, L]) == (Inside(0), []);
    assert [L, L, E][..2] == [L, L];
    assert Run([L, L, E]) == Step(Inside(0), [], E, 2);
    assert [] + [FunctionSpan(1, 3)] == [FunctionSpan(1, 3)];
  }

  lemma RunLabelEpilogueLabel()
    ensures Run([LabelLine, LabelEpilogueLine, EpilogueLine]).1 == [FunctionSpan(1, 2)]
  {
    var L, LE, E := LabelLine, LabelEpilogueLine, EpilogueLine;
    assert Run([L]) == (Inside(0), []);
    assert [L, LE][..1] == [L];
    assert Run([L, LE]) == Step(Inside(0), [], LE, 1);
    assert [] + [FunctionSpan(1, 2)] == [FunctionSpan(1, 2)];
    assert Run([L, LE]) == (Outside, [FunctionSpan(1, 2)]);
    assert [L, LE, E][..2] == [L, LE];
  }

  // ---------------------------------------------------------------------
  // Whole files
  // ---------------------------------------------------------------------

  /** A minimal function: label, two prologue lines, `ret`. */
  lemma MinimalFunction()
    ensures Detected(["func1:\n", "push %rbp\n", "mov %rsp, %rbp\n", "ret\n"]) == [FunctionSpan(1, 4)]
  {
    ClassOfFunc1(); ClassOfPush(); ClassOfMov(); ClassOfRet();
    Classified4("func1:\n", "push %rbp\n", "mov %rsp, %rbp\n", "ret\n",
                LabelLine, PrologueLine, PrologueLine, EpilogueLine);
    RunLabelProloguesEpilogue();
  }

  /**
   * Two functions in a row. `pop %rbp` is itself an epilogue, so the second
   * span ends at line 6, not at the `ret` on line 7.
   */
  lemma TwoFunctions()
    ensures Detected(["func1:\n", "push %rbp\n", "ret\n", "func2:\n", "push %rbp\n", "pop %rbp\n", "ret\n"])
            == [FunctionSpan(1, 3), FunctionSpan(4, 6)]
  {
    ClassOfFunc1(); ClassOfPush(); ClassOfRet(); ClassOfFunc2(); ClassOfPop();
    Classified7("func1:\n", "push %rbp\n", "ret\n", "func2:\n", "push %rbp\n", "pop %rbp\n", "ret\n",
                LabelLine, PrologueLine, EpilogueLine, LabelLine, PrologueLine, EpilogueLine, EpilogueLine);
    RunTwoSpans();
  }

  /** A label without a later epilogue gives no span. */
  lemma Unterminated()
    ensures Detected(["func1:\n", "push %rbp\n", "mov %rsp, %rbp\n"]) == []
  {
    ClassOfFunc1(); ClassOfPush(); ClassOfMov();
    Classified3("func1:\n", "push %rbp\n", "mov %rsp, %rbp\n", LabelLine, PrologueLine, PrologueLine);
    RunLabelPrologues();
  }

  /** A stack adjustment is a prologue line and does not end the span. */
  lemma StackAdjustment()
    ensures Detected(["func1:\n", "sub $0x10, %rsp\n", "ret\n"]) == [FunctionSpan(1, 3)]
  {
    ClassOfFunc1(); ClassOfSub(); ClassOfRet();
    Classified3("func1:\n", "sub $0x10, %rsp\n", "ret\n", LabelLine, PrologueLine, EpilogueLine);
    RunLabelPrologueEpilogue();
  }

  /** A label inside a function does not restart it ... */
  lemma NestedLabelIgnored()
    ensures Detected(["f:\n", "g:\n", "ret\n"]) == [FunctionSpan(1, 3)]
  {
    ClassOfF(); ClassOfG(); ClassOfRet();
    Classified3("f:\n", "g:\n", "ret\n", LabelLine, LabelLine, EpilogueLine);
    RunLabelsEpilogue();
  }

  /** ... but one that also matches `ret` closes it, and the `ret` after it is then inert. */
  lemma LabelClosesSpan()
    ensures Detected(["f:\n", "retry:\n", "ret\n"]) == [FunctionSpan(1, 2)]
  {
    ClassOfF(); ClassOfRetry(); ClassOfRet();
    Classified3("f:\n", "retry:\n", "ret\n", LabelLine, LabelEpilogueLine, EpilogueLine);
    RunLabelEpilogueLabel();
  }
}
