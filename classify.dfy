/**
 * The three line classifiers of the function detector: the label rule and
 * the prologue and epilogue pattern sets.
 *
 * Each pattern is an anchored regular expression applied with `re.match`,
 * which succeeds when a PREFIX of the line matches. Each pattern is modelled
 * twice: once as the regular expression reads, as an existential statement
 * over the positions where its pieces begin (`...At` and `...Regex`), and
 * once as a direct scan that follows greedy `\s*` / `\s+` runs (`Matches...`);
 * the `sub` scan instead tries every position of `%rsp`, and only the
 * whitespace runs inside the gap before it are greedy.
 * A lemma per pattern proves the two agree on every line.
 */
module Classify {
  import opened Text

  // ---------------------------------------------------------------------
  // Label rule: `line.strip().endswith(":")`
  // ---------------------------------------------------------------------

  /** The stripped line ends with a colon. */
  predicate IsLabel(line: string) {
    var t := Strip(line);
    |t| > 0 && t[|t| - 1] == ':'
  }

  /** `line[k]` is a colon followed only by whitespace. */
  ghost predicate ColonAt(line: string, k: int) {
    0 <= k < |line| && line[k] == ':' && SpaceRun(line, k + 1, |line|)
  }

  /** A line is a label exactly when its last non-whitespace character is a colon. */
  lemma {:induction false} LabelIff(line: string)
    ensures IsLabel(line) <==> exists k :: ColonAt(line, k)
  {
    var lo := SkipSpaces(line, 0);
    var hi := SpaceStart(line, |line|);
    if IsLabel(line) {
      assert lo < |line|;
      assert lo < hi;
      assert Strip(line) == line[lo..hi];
      assert ColonAt(line, hi - 1);
    }
    if k :| ColonAt(line, k) {
      assert lo <= k;
      assert hi == k + 1;
      assert Strip(line) == line[lo..k + 1];
    }
  }

  // ---------------------------------------------------------------------
  // Shared pieces: `\s*lit` at the line start and `\s+lit` at a position
  // ---------------------------------------------------------------------

  /** `\s+` starting at `from`, then `lit` where that run ends. */
  predicate SpacedLitAt(s: string, from: int, lit: string) {
    0 <= from < |s| && IsSpace(s[from]) && LitAt(s, SkipSpaces(s, from), lit)
  }

  /** Character `k` of a literal found at `i`. */
  lemma LitAtIndex(s: string, i: int, lit: string, k: int)
    requires LitAt(s, i, lit) && 0 <= k < |lit|
    ensures s[i + k] == lit[k]
  {
    assert s[i..i + |lit|][k] == s[i + k];
  }

  /** A literal that begins with a non-space, preceded only by spaces, begins where `SkipSpaces` stops. */
  lemma LeadLitAt(s: string, from: nat, j: int, lit: string)
    requires from <= |s|
    requires SpaceRun(s, from, j) && LitAt(s, j, lit)
    requires |lit| > 0 && !IsSpace(lit[0])
    ensures SkipSpaces(s, from) == j
  {
    LitAtHead(s, j, lit);
    SkipSpacesAt(s, from, j);
  }

  /** Any decomposition of `\s+lit` at `from` is the greedy one. */
  lemma SpacedLitWitness(s: string, from: int, j: int, lit: string)
    requires from < j && SpaceRun(s, from, j) && LitAt(s, j, lit)
    requires |lit| > 0 && !IsSpace(lit[0])
    ensures j == SkipSpaces(s, from) && SpacedLitAt(s, from, lit)
  {
    LeadLitAt(s, from, j, lit);
  }

  /** The greedy decomposition of `\s+lit` at `from`. */
  lemma SpacedLitGreedy(s: string, from: int, lit: string)
    requires SpacedLitAt(s, from, lit)
    ensures var j := SkipSpaces(s, from); from < j && SpaceRun(s, from, j) && LitAt(s, j, lit)
  {
  }

  // ---------------------------------------------------------------------
  // Prologue pattern 1: ^\s*push\s+%rbp
  // ---------------------------------------------------------------------

  /** `push` at `i` after leading whitespace, then a whitespace run, then `%rbp` at `j`. */
  ghost predicate PushRbpAt(s: string, i: int, j: int) {
    SpaceRun(s, 0, i) && LitAt(s, i, "push")
    && i + 4 < j && SpaceRun(s, i + 4, j) && LitAt(s, j, "%rbp")
  }

  ghost predicate PushRbpRegex(s: string) {
    exists i, j :: PushRbpAt(s, i, j)
  }

  predicate MatchesPushRbp(s: string) {
    var i := SkipSpaces(s, 0);
    LitAt(s, i, "push") && SpacedLitAt(s, i + 4, "%rbp")
  }

  lemma {:induction false} PushRbpMatch(s: string)
    ensures MatchesPushRbp(s) <==> PushRbpRegex(s)
  {
    var i := SkipSpaces(s, 0);
    if MatchesPushRbp(s) {
      SpacedLitGreedy(s, i + 4, "%rbp");
      assert PushRbpAt(s, i, SkipSpaces(s, i + 4));
    }
    if i', j :| PushRbpAt(s, i', j) {
      LeadLitAt(s, 0, i', "push");
      SpacedLitWitness(s, i' + 4, j, "%rbp");
    }
  }

  // ---------------------------------------------------------------------
  // Prologue pattern 2: ^\s*mov\s+%rsp,\s+%rbp
  // ---------------------------------------------------------------------

  /** `mov` at `i`, a whitespace run, `%rsp,` at `j`, a whitespace run, `%rbp` at `k`. */
  ghost predicate MovRspRbpAt(s: string, i: int, j: int, k: int) {
    SpaceRun(s, 0, i) && LitAt(s, i, "mov")
    && i + 3 < j && SpaceRun(s, i + 3, j) && LitAt(s, j, "%rsp,")
    && j + 5 < k && SpaceRun(s, j + 5, k) && LitAt(s, k, "%rbp")
  }

  ghost predicate MovRspRbpRegex(s: string) {
    exists i, j, k :: MovRspRbpAt(s, i, j, k)
  }

  predicate MatchesMovRspRbp(s: string) {
    var i := SkipSpaces(s, 0);
    LitAt(s, i, "mov") && SpacedLitAt(s, i + 3, "%rsp,")
    && SpacedLitAt(s, SkipSpaces(s, i + 3) + 5, "%rbp")
  }

  /** The greedy matcher's positions are a decomposition of the expression. */
  lemma MovRspRbpSound(s: string)
    requires MatchesMovRspRbp(s)
    ensures MovRspRbpRegex(s)
  {
    var i := SkipSpaces(s, 0);
    SpacedLitGreedy(s, i + 3, "%rsp,");
    var j := SkipSpaces(s, i + 3);
    SpacedLitGreedy(s, j + 5, "%rbp");
    assert MovRspRbpAt(s, i, j, SkipSpaces(s, j + 5));
  }

  /** Any decomposition of the expression is the greedy one. */
  lemma MovRspRbpComplete(s: string, i: int, j: int, k: int)
    requires MovRspRbpAt(s, i, j, k)
    ensures MatchesMovRspRbp(s)
  {
    LeadLitAt(s, 0, i, "mov");
    SpacedLitWitness(s, i + 3, j, "%rsp,");
    SpacedLitWitness(s, j + 5, k, "%rbp");
  }

  lemma {:induction false} MovRspRbpMatch(s: string)
    ensures MatchesMovRspRbp(s) <==> MovRspRbpRegex(s)
  {
    if MatchesMovRspRbp(s) {
      MovRspRbpSound(s);
    }
    if i, j, k :| MovRspRbpAt(s, i, j, k) {
      MovRspRbpComplete(s, i, j, k);
    }
  }

  // ---------------------------------------------------------------------
  // Prologue pattern 3: ^\s*sub\s+.*\s+%rsp
  // ---------------------------------------------------------------------

  /**
   * `sub` at `i`; a whitespace run over `[i + 3, a)`; any characters but a
   * line feed over `[a, b)` (the `.*`); a whitespace run over `[b, k)`; then
   * `%rsp` at `k`.
   */
  ghost predicate SubRspAt(s: string, i: int, a: int, b: int, k: int) {
    SpaceRun(s, 0, i) && LitAt(s, i, "sub")
    && i + 3 < a <= b < k
    && SpaceRun(s, i + 3, a) && NoNewline(s, a, b) && SpaceRun(s, b, k)
    && LitAt(s, k, "%rsp")
  }

  ghost predicate SubRspRegex(s: string) {
    exists i, a, b, k :: SubRspAt(s, i, a, b, k)
  }

  /**
   * `\s+.*\s+` can span `[p, k)`: at least two characters, whitespace at
   * both ends, and no line feed between the end of the leading whitespace
   * run and the start of the trailing one (when the runs do not meet).
   */
  predicate SubGap(s: string, p: int, k: int) {
    0 <= p && p + 2 <= k <= |s| && IsSpace(s[p]) && IsSpace(s[k - 1])
    && var r := SkipSpaces(s, p);
       r >= k || NoNewline(s, r, SpaceStart(s, k))
  }

  /** `sub\s+.*\s+%rsp`: not greedy in `.*`; some position of `%rsp` has a valid gap before it. */
  predicate MatchesSubRsp(s: string) {
    var i := SkipSpaces(s, 0);
    LitAt(s, i, "sub")
    && exists k :: i + 5 <= k <= |s| - 4 && LitAt(s, k, "%rsp") && SubGap(s, i + 3, k)
  }

  /** `SubGap` holds exactly when the gap splits as `\s+`, `.*`, `\s+`. */
  lemma {:induction false} SubGapSplit(s: string, p: int, k: int)
    requires 0 <= p <= k <= |s|
    ensures SubGap(s, p, k) <==>
            exists a, b :: p < a <= b < k && SpaceRun(s, p, a) && NoNewline(s, a, b) && SpaceRun(s, b, k)
  {
    if SubGap(s, p, k) {
      var r := SkipSpaces(s, p);
      if r >= k {
        assert SpaceRun(s, p, k - 1) && NoNewline(s, k - 1, k - 1) && SpaceRun(s, k - 1, k);
      } else {
        var l := SpaceStart(s, k);
        assert p < r < l < k;
        assert SpaceRun(s, p, r) && NoNewline(s, r, l) && SpaceRun(s, l, k);
      }
    }
    if a, b :| p < a <= b < k && SpaceRun(s, p, a) && NoNewline(s, a, b) && SpaceRun(s, b, k) {
      assert IsSpace(s[p]) && IsSpace(s[k - 1]);
      var r := SkipSpaces(s, p);
      if r < k {
        var l := SpaceStart(s, k);
        assert a <= r < l <= b;
        assert NoNewline(s, r, l);
      }
    }
  }

  /** The matcher's positions are a decomposition of the expression. */
  lemma SubRspSound(s: string)
    requires MatchesSubRsp(s)
    ensures SubRspRegex(s)
  {
    var i := SkipSpaces(s, 0);
    var k :| i + 5 <= k <= |s| - 4 && LitAt(s, k, "%rsp") && SubGap(s, i + 3, k);
    SubGapSplit(s, i + 3, k);
    var a, b :| i + 3 < a <= b < k && SpaceRun(s, i + 3, a) && NoNewline(s, a, b) && SpaceRun(s, b, k);
    assert SubRspAt(s, i, a, b, k);
  }

  /** Any decomposition of the expression is found by the matcher. */
  lemma SubRspComplete(s: string, i: int, a: int, b: int, k: int)
    requires SubRspAt(s, i, a, b, k)
    ensures MatchesSubRsp(s)
  {
    LeadLitAt(s, 0, i, "sub");
    SubGapSplit(s, i + 3, k);
    assert LitAt(s, k, "%rsp") && SubGap(s, i + 3, k);
  }

  lemma {:induction false} SubRspMatch(s: string)
    ensures MatchesSubRsp(s) <==> SubRspRegex(s)
  {
    if MatchesSubRsp(s) {
      SubRspSound(s);
    }
    if i, a, b, k :| SubRspAt(s, i, a, b, k) {
      SubRspComplete(s, i, a, b, k);
    }
  }

  // ---------------------------------------------------------------------
  // Epilogue pattern 1: ^\s*pop\s+%rbp
  // ---------------------------------------------------------------------

  /** `pop` at `i` after leading whitespace, then a whitespace run, then `%rbp` at `j`. */
  ghost predicate PopRbpAt(s: string, i: int, j: int) {
    SpaceRun(s, 0, i) && LitAt(s, i, "pop")
    && i + 3 < j && SpaceRun(s, i + 3, j) && LitAt(s, j, "%rbp")
  }

  ghost predicate PopRbpRegex(s: string) {
    exists i, j :: PopRbpAt(s, i, j)
  }

  predicate MatchesPopRbp(s: string) {
    var i := SkipSpaces(s, 0);
    LitAt(s, i, "pop") && SpacedLitAt(s, i + 3, "%rbp")
  }

  lemma {:induction false} PopRbpMatch(s: string)
    ensures MatchesPopRbp(s) <==> PopRbpRegex(s)
  {
    var i := SkipSpaces(s, 0);
    if MatchesPopRbp(s) {
      SpacedLitGreedy(s, i + 3, "%rbp");
      assert PopRbpAt(s, i, SkipSpaces(s, i + 3));
    }
    if i', j :| PopRbpAt(s, i', j) {
      LeadLitAt(s, 0, i', "pop");
      SpacedLitWitness(s, i' + 3, j, "%rbp");
    }
  }

  // ---------------------------------------------------------------------
  // Epilogue pattern 2: ^\s*ret
  // ---------------------------------------------------------------------

  /** `ret` at `i` after leading whitespace; the rest of the line is unconstrained. */
  ghost predicate RetAt(s: string, i: int) {
    SpaceRun(s, 0, i) && LitAt(s, i, "ret")
  }

  ghost predicate RetRegex(s: string) {
    exists i :: RetAt(s, i)
  }

  predicate MatchesRet(s: string) {
    LitAt(s, SkipSpaces(s, 0), "ret")
  }

  lemma {:induction false} RetMatch(s: string)
    ensures MatchesRet(s) <==> RetRegex(s)
  {
    if MatchesRet(s) {
      assert RetAt(s, SkipSpaces(s, 0));
    }
    if i :| RetAt(s, i) {
      LeadLitAt(s, 0, i, "ret");
    }
  }

  // ---------------------------------------------------------------------
  // The two classifiers
  // ---------------------------------------------------------------------

  /** The five instruction patterns. */
  datatype Pattern = PushRbp | MovRspRbp | SubRsp | PopRbp | Ret

  /** `re.match(pattern, line)` succeeds. */
  predicate MatchesPattern(p: Pattern, line: string) {
    match p
    case PushRbp => MatchesPushRbp(line)
    case MovRspRbp => MatchesMovRspRbp(line)
    case SubRsp => MatchesSubRsp(line)
    case PopRbp => MatchesPopRbp(line)
    case Ret => MatchesRet(line)
  }

  /** The patterns tried in order, stopping at the first that matches. */
  predicate AnyMatches(patterns: seq<Pattern>, line: string)
    decreases |patterns|
  {
    |patterns| > 0 && (MatchesPattern(patterns[0], line) || AnyMatches(patterns[1..], line))
  }

  /** Trying the patterns in order finds a match exactly when one of them matches. */
  lemma {:induction false} AnyMatchesIff(patterns: seq<Pattern>, line: string)
    ensures AnyMatches(patterns, line) <==> exists j :: 0 <= j < |patterns| && MatchesPattern(patterns[j], line)
    decreases |patterns|
  {
    if |patterns| > 0 {
      AnyMatchesIff(patterns[1..], line);
      if j :| 0 < j < |patterns| && MatchesPattern(patterns[j], line) {
        assert patterns[1..][j - 1] == patterns[j];
      }
    }
  }

  const ProloguePatterns: seq<Pattern> := [PushRbp, MovRspRbp, SubRsp]
  const EpiloguePatterns: seq<Pattern> := [PopRbp, Ret]

  /** `detect_function_prologue`: some prologue pattern matches the line. */
  predicate DetectFunctionPrologue(line: string) {
    AnyMatches(ProloguePatterns, line)
  }

  /** `detect_function_epilogue`: some epilogue pattern matches the line. */
  predicate DetectFunctionEpilogue(line: string) {
    AnyMatches(EpiloguePatterns, line)
  }

  /** The prologue classifier holds exactly when one of its three matchers accepts the line. */
  lemma PrologueCases(line: string)
    ensures DetectFunctionPrologue(line) <==> MatchesPushRbp(line) || MatchesMovRspRbp(line) || MatchesSubRsp(line)
  {
    AnyMatchesIff(ProloguePatterns, line);
    assert MatchesPattern(ProloguePatterns[0], line) == MatchesPushRbp(line);
    assert MatchesPattern(ProloguePatterns[1], line) == MatchesMovRspRbp(line);
    assert MatchesPattern(ProloguePatterns[2], line) == MatchesSubRsp(line);
  }

  /** The epilogue classifier holds exactly when one of its two matchers accepts the line. */
  lemma EpilogueCases(line: string)
    ensures DetectFunctionEpilogue(line) <==> MatchesPopRbp(line) || MatchesRet(line)
  {
    AnyMatchesIff(EpiloguePatterns, line);
    assert MatchesPattern(EpiloguePatterns[0], line) == MatchesPopRbp(line);
    assert MatchesPattern(EpiloguePatterns[1], line) == MatchesRet(line);
  }

  /** The prologue classifier accepts exactly the lines a prefix of which one of its regular expressions matches. */
  lemma {:induction false} PrologueRegex(line: string)
    ensures DetectFunctionPrologue(line) <==> PushRbpRegex(line) || MovRspRbpRegex(line) || SubRspRegex(line)
  {
    PrologueCases(line);
    PushRbpMatch(line);
    MovRspRbpMatch(line);
    SubRspMatch(line);
  }

  /** The epilogue classifier accepts exactly the lines a prefix of which one of its regular expressions matches. */
  lemma {:induction false} EpilogueRegex(line: string)
    ensures DetectFunctionEpilogue(line) <==> PopRbpRegex(line) || RetRegex(line)
  {
    EpilogueCases(line);
    PopRbpMatch(line);
    RetMatch(line);
  }

  /**
   * No line is both a prologue and an epilogue: every pattern starts with
   * its mnemonic at the first non-whitespace character, and `push`, `mov`,
   * `sub` differ from `pop`, `ret` within their first two letters.
   */
  lemma {:induction false} PrologueEpilogueDisjoint(line: string)
    ensures !(DetectFunctionPrologue(line) && DetectFunctionEpilogue(line))
  {
    PrologueCases(line);
    EpilogueCases(line);
    var i := SkipSpaces(line, 0);
    if MatchesPopRbp(line) {
      LitAtIndex(line, i, "pop", 0);
      LitAtIndex(line, i, "pop", 1);
      if LitAt(line, i, "push") { LitAtIndex(line, i, "push", 1); }
      if LitAt(line, i, "mov") { LitAtIndex(line, i, "mov", 0); }
      if LitAt(line, i, "sub") { LitAtIndex(line, i, "sub", 0); }
    }
    if MatchesRet(line) {
      LitAtIndex(line, i, "ret", 0);
      if LitAt(line, i, "push") { LitAtIndex(line, i, "push", 0); }
      if LitAt(line, i, "mov") { LitAtIndex(line, i, "mov", 0); }
      if LitAt(line, i, "sub") { LitAtIndex(line, i, "sub", 0); }
    }
  }
}
