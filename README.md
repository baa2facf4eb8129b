# Function-boundary detector for x86-64 assembly, in Dafny

This project models the heuristic function detector in `function_detector.py`. The detector reads the lines of an AT&T-syntax assembly file, one at a time. It runs a two-state machine over them: outside a function, or inside one opened at a pending label. It returns a list of 1-based `(start, end)` line pairs, one for each function it finds.

A line is looked at in three ways:

- **Label rule.** The line, once surrounding whitespace is removed, ends with `:`.
- **Prologue classifier.** `detect_function_prologue` tries three anchored regular expressions: `push\s+%rbp`, `mov\s+%rsp,\s+%rbp` and `sub\s+.*\s+%rsp`.
- **Epilogue classifier.** `detect_function_epilogue` tries two: `pop\s+%rbp` and `ret`.

Each expression may be preceded by whitespace. `re.match` only anchors at the start, so whatever follows the matched text is ignored.

The scan works like this:

- Outside a function, a label line opens one.
- Inside a function, a prologue line is skipped and a label line is ignored.
- Inside a function, an epilogue line closes the function and emits `(label line, epilogue line)`.

Layout:

- `text.dfy` (module `Text`): the whitespace class, greedy whitespace runs, literal matching at a position, and `str.strip()`.
- `classify.dfy` (module `Classify`): the label rule and the five patterns.
  - Each pattern is modelled twice, and a lemma proves the two agree on every line:
    - an executable matcher (`MatchesPushRbp`, …) that follows greedy whitespace runs; for `sub\s+.*\s+%rsp` it instead tries every position of `%rsp`, and only the whitespace runs inside the gap before it are greedy;
    - a reference predicate that states the regular expression directly as "there are positions where the pieces match" (`PushRbpRegex`, …).
  - Each classifier tries its list of patterns in order and stops at the first match (`AnyMatches` over `ProloguePatterns` or `EpiloguePatterns`). A lemma proves that this holds exactly when one of its patterns matches.
- `detector.dfy` (module `Detector`): the scan loop.
  - The loop is modelled twice: as functions (`Step`, `Run`, `Detected`), and as the `for` loop in method `DetectFunction`, which is proved to compute `Detected`. The loop body is the method `ScanLine`, which returns early where the source `continue`s (lines 44 and 48).
  - The predicate `Scanned` says, without reference to the loop, what the output means:
    - every span runs from a label to the first epilogue after it;
    - the spans are ordered;
    - every label lies in a span or at or after the pending label.
  - `Run` satisfies `Scanned`, and it is the only state and output that does.
- `scenarios.dfy` (module `Scenarios`): concrete lines and files, with what the model gives for them.

Whitespace is the ASCII set: space, tab, line feed, carriage return, vertical tab and form feed. Both `\s` and `str.strip()` accept these characters.

Two consequences of the code that are easy to miss:

- **`pop %rbp` closes a function.** `pop %rbp` is itself an epilogue (`function_detector.py:20`), so a function that ends in `pop %rbp` and then `ret` closes at the `pop` line (`function_detector.py:51-54`). In `Scenarios.TwoFunctions` the second function occupies lines 4 to 7 and ends with `pop %rbp` on line 6 and `ret` on line 7; its span is `(4, 6)`.
- **Every span has `start < end`.** The label line always reaches `continue` (line 44) before any epilogue test, so a span never starts and ends on the same line. `Detector.DetectedSpans` proves the strict bound.

## Model

| member | source | states |
|---|---|---|
| Text.SkipSpaces | function_detector.py:7-9 | the greedy `\s*` from a position: everything it skips is whitespace, and it stops at the end or at a non-whitespace character |
| Text.Strip | function_detector.py:40 | `line.strip()`: the result is the slice left once the leading and trailing whitespace runs are dropped, and it neither starts nor ends with whitespace |
| Classify.LabelIff | function_detector.py:40 | a line is a label exactly when it contains a `:` followed only by whitespace, that is, its last non-whitespace character is a colon |
| Classify.PushRbpMatch | function_detector.py:7 | the matcher accepts exactly the lines of the form: whitespace, `push`, at least one whitespace character, `%rbp`, anything |
| Classify.MovRspRbpSound | function_detector.py:8 | when the greedy matcher accepts a line, the positions it found are a split of the line as `mov\s+%rsp,\s+%rbp` |
| Classify.MovRspRbpComplete | function_detector.py:8 | every split of a line as `mov\s+%rsp,\s+%rbp` makes the greedy matcher accept it |
| Classify.MovRspRbpMatch | function_detector.py:8 | the matcher accepts exactly the lines of the form: whitespace, `mov`, whitespace run, `%rsp,`, at least one whitespace character, `%rbp`, anything |
| Classify.SubGapSplit | function_detector.py:9 | the middle of `sub\s+.*\s+%rsp` fits between two positions exactly when a non-empty whitespace run, then text without a line feed, then a non-empty whitespace run fill them |
| Classify.SubRspSound | function_detector.py:9 | when the matcher accepts a line, it splits as `sub\s+.*\s+%rsp` with the `.*` free of line feeds |
| Classify.SubRspComplete | function_detector.py:9 | every split of a line as `sub\s+.*\s+%rsp` makes the matcher accept it |
| Classify.SubRspMatch | function_detector.py:9 | the matcher accepts exactly the lines of the form: whitespace, `sub`, whitespace run, any text without a line feed, whitespace run, `%rsp`, anything |
| Classify.PopRbpMatch | function_detector.py:20 | the matcher accepts exactly the lines of the form: whitespace, `pop`, at least one whitespace character, `%rbp`, anything |
| Classify.RetMatch | function_detector.py:21 | the matcher accepts exactly the lines of the form: whitespace, `ret`, anything |
| Classify.AnyMatchesIff | function_detector.py:12-15 | the loop over a pattern list that returns at the first match returns true exactly when some pattern in the list matches; the same loop appears at lines 24-27 |
| Classify.PrologueCases | function_detector.py:6-15 | `detect_function_prologue` holds exactly when the `push`, the `mov` or the `sub` pattern matches |
| Classify.EpilogueCases | function_detector.py:19-27 | `detect_function_epilogue` holds exactly when the `pop` or the `ret` pattern matches |
| Classify.PrologueRegex | function_detector.py:3-15 | `detect_function_prologue` holds exactly when one of its three regular expressions matches a prefix of the line |
| Classify.EpilogueRegex | function_detector.py:17-27 | `detect_function_epilogue` holds exactly when one of its two regular expressions matches a prefix of the line |
| Classify.PrologueEpilogueDisjoint | function_detector.py:6-22 | no line is both a prologue and an epilogue |
| Detector.InsideStep | function_detector.py:40-54 | inside a function, a line closes the span exactly when it is an epilogue; otherwise nothing changes, so a label there does not restart the span |
| Detector.PrologueIsInert | function_detector.py:47-48 | removing the prologue `continue` from the loop changes neither the final state nor the output |
| Detector.RunScanned | function_detector.py:34-54 | after every prefix of the input, the loop's state and output satisfy `Scanned`: closed, ordered spans, a pending label with no epilogue after it, every label covered |
| Detector.ScannedUnique | function_detector.py:34-54 | any state and output satisfying `Scanned` are the loop's |
| Detector.DetectedCharacterized | function_detector.py:34-56 | a list of spans is the detector's output exactly when it satisfies `Scanned` over all lines with some final state |
| Detector.DetectedSpans | function_detector.py:38-54 | every span has `1 <= start < end <=` the number of lines, a label at `start`, an epilogue at `end` and no epilogue strictly between them; each span starts after the previous one ends |
| Detector.EmptyInput | function_detector.py:34-56 | an empty file yields no spans |
| Detector.UnclosedLabel | function_detector.py:34-56 | a label that is not itself an epilogue, with no epilogue after it, lies in no emitted span, and the scan ends inside an open function at or before it |
| Detector.RunGrows | function_detector.py:51-54 | spans are only ever appended: the output after a prefix of the lines is a prefix of the final output |
| Detector.DetectedGrows | function_detector.py:38-56 | the spans found in the first `n` lines of a file are a prefix of those found in the whole file |
| Detector.ScanLine | function_detector.py:40-54 | one pass of the loop body: it applies the label test, then the prologue test, then the epilogue test, each reached only when the ones before it did not `continue`; the new state and list are one `Step` of the loop |
| Detector.ClassifiedRun | function_detector.py:38-56 | a run over the per-line classes of a file gives `Detected` of that file, with spans as in `DetectedSpans` |
| Detector.DetectFunction | function_detector.py:34-56 | the loop as written returns `Detected(lines)`, and every span and the order of the spans are as in `DetectedSpans` |
| Scenarios.RetIsEpilogue | function_detector.py:21 | `ret` is an epilogue |
| Scenarios.RetqIsEpilogue | function_detector.py:21 | `retq` is an epilogue: `ret` matches a prefix |
| Scenarios.ReturnIsEpilogue | function_detector.py:21 | `  return` is an epilogue: leading whitespace is skipped and `ret` matches a prefix |
| Scenarios.RetryIsEpilogue | function_detector.py:21 | the label line `retry:` is an epilogue |
| Scenarios.PopIsEpilogue | function_detector.py:20 | `pop %rbp` is an epilogue |
| Scenarios.PopqIsNotEpilogue | function_detector.py:20-21 | `popq %rbp` is not an epilogue: no whitespace follows `pop` |
| Scenarios.LeaveIsNotEpilogue | function_detector.py:20-21 | `leave` is not an epilogue |
| Scenarios.PushIsPrologue | function_detector.py:7 | `push %rbp` is a prologue |
| Scenarios.PushSuffixIsPrologue | function_detector.py:7 | `push %rbpx` is a prologue: what follows `%rbp` is ignored |
| Scenarios.PushqIsNotPrologue | function_detector.py:7-9 | `pushq %rbp` is not a prologue |
| Scenarios.MovIsPrologue | function_detector.py:8 | `mov %rsp, %rbp` is a prologue |
| Scenarios.MovWithoutSpaceIsNotPrologue | function_detector.py:7-9 | `mov %rsp,%rbp` is not a prologue: the pattern needs whitespace after the comma |
| Scenarios.SubIsPrologue | function_detector.py:9 | `sub $0x10, %rsp` is a prologue |
| Scenarios.SubTwoSpacesIsPrologue | function_detector.py:9 | `sub  %rsp` (two spaces) is a prologue: the two whitespace runs are one space each and the `.*` is empty |
| Scenarios.SubOneSpaceIsNotPrologue | function_detector.py:7-9 | `sub %rsp` (one space) is not a prologue |
| Scenarios.SubqIsNotPrologue | function_detector.py:7-9 | `subq $16, %rsp` is not a prologue |
| Scenarios.LabelLines | function_detector.py:40 | `func1:`, `  .L2:  ` and `retry:` are labels |
| Scenarios.NonLabelLines | function_detector.py:40 | `ret`, `: x` and a blank line are not labels |
| Scenarios.MinimalFunction | function_detector.py:34-56 | label, `push`, `mov`, `ret` gives `[(1, 4)]` |
| Scenarios.TwoFunctions | function_detector.py:51-54 | the two-function file gives `[(1, 3), (4, 6)]`: in the second function it is `pop %rbp` that closes the span |
| Scenarios.Unterminated | function_detector.py:34-56 | label, `push`, `mov` with no epilogue gives `[]` |
| Scenarios.StackAdjustment | function_detector.py:47-48 | label, `sub $0x10, %rsp`, `ret` gives `[(1, 3)]` |
| Scenarios.NestedLabelIgnored | function_detector.py:40 | a second label inside a function does not restart it: `f:`, `g:`, `ret` gives `[(1, 3)]` |
| Scenarios.LabelClosesSpan | function_detector.py:40-54 | a label that is also an epilogue closes the pending function: `f:`, `retry:`, `ret` gives `[(1, 2)]` |

## Left out

- `main` (`function_detector.py:58-78`): the prompt, the printed report and the turning of exceptions into messages are terminal I/O.
- Opening and reading the file (`function_detector.py:31-32`), including `FileNotFoundError` and other read errors. `DetectFunction` takes the list `f.readlines()` would return, each line with its line feed if it had one.
- Python's full whitespace class: `str.strip()` and `\s` also accept `\x1c`-`\x1f`, `\x85`, `\xa0` and other Unicode spaces. The model accepts only the six ASCII whitespace characters.
- Text decoding: lines are sequences of characters, and the file's encoding is not modelled.
- A general regular-expression engine: only the five fixed patterns are modelled, each with a reference predicate for its expression.
- Running the detector twice gives the same output: this holds because `Detected` is a function and `DetectFunction` is proved equal to it, so no separate lemma states it.
