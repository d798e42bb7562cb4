# Include-paths branch build strategy, modelled in Dafny

This project models the decision made by the Jenkins branch build strategy
`IncludePathsStrategy`. When a branch head gets a new revision, the strategy
looks at the files the new commits touch. It builds automatically only when
one of those files matches a configured path pattern. In every doubtful case
— nothing configured, no SCM file system, any exception — it answers
"build" (it fails open).

Two methods are modelled:

- `isAutomaticBuild` becomes the function `IncludePaths.IsAutomaticBuild`. The
  body of its try block is `IncludePaths.Evaluate`, which returns either a
  verdict or the exception it raised. The catch block is `IncludePaths.Catch`.
- `isAffectedPathIncluded` becomes the function
  `PathMatching.IsAffectedPathIncluded`.

Three more functions compute parts of those methods. They carry no contract
of their own; the lemmas in the table below state what they do.

- `IncludePaths.IncludedPatterns` is the pattern list built at lines 77-79:
  split at line breaks, then trim and lower-case each piece.
- `IncludePaths.DecideOnChangeLog` is the return statement at lines 82-85:
  "build" when there are no change sets, otherwise the `anyMatch` over their
  affected paths.
- `PathMatching.ProbePattern` is the lambda at lines 95-97: compile the
  pattern, turn the normalised path into a `Path`, and match. It gives a hit,
  a miss, or the exception that one of those steps raised.

The model is pure, like the source: datatypes, functions and lemmas.

Files:

- `outcomes.dfy`: `Option` (stands for Java `null`) and `Result` (stands for a
  thrown exception).
- `java_text.dfy`: the parts of `java.lang.String` the strategy uses.
  - `trim` removes every leading and trailing character `<= ' '`.
  - `toLowerCase` is modelled on ASCII letters.
  - `split("\n")` drops trailing empty pieces.
  - `substring(0, 40)` throws when the string is shorter than 40 characters.
- `path_matching.dfy`: backslash normalisation, matching one
  (pattern, path) pair, and the two `anyMatch` streams.
- `include_paths.dfy`: revision coercion, the pattern list, the try block,
  the catch block and the properties of the whole decision.
- `examples_from_tests.dfy`: each assertion of `IncludePathsStrategyTest`,
  restated on the model with the test's own pattern strings. What the JDK
  regex engine answers for those patterns and paths is a hypothesis of each
  lemma.

Outside services are inputs:

- `SCMFileSystem.of` is a `FileSystemLookup`: it throws, it returns null, or
  it returns a file system.
- `changesSince` and `GitChangeLogParser.parse` together become a function
  from the previous revision to a `ChangeLog`: the parsed change sets, or a
  failure.
- The JDK regex path matcher and `Paths.get` are a `Platform`: whether a
  pattern compiles, what `Paths.get` makes of a path (or that it throws),
  and whether a compiled pattern fully matches a path.

Two behaviours of the code are easy to get wrong, and the model follows the
code in both:

- A build happens when the parsed change log has no change sets at all. When
  it has change sets and none of them lists a path, the answer is "skip"
  (`IncludePaths.NoAffectedPathsSkips`), not "build".
- Empty lines are not dropped from the configuration. Only trailing empty
  pieces disappear, as `String.split` drops them. An empty line inside the
  configuration gives the empty pattern.

## Model

| member | source | states |
|---|---|---|
| `JavaText.TrimStart` | src/main/java/jenkins/branch/buildstrategies/includepath/IncludePathsStrategy.java:56 | the result is a suffix of the input; everything removed is `<= ' '`; the result does not start with such a character |
| `JavaText.TrimEnd` | src/main/java/jenkins/branch/buildstrategies/includepath/IncludePathsStrategy.java:56 | the result is a prefix of the input; everything removed is `<= ' '`; the result does not end with such a character |
| `JavaText.TrimOffset` | src/main/java/jenkins/branch/buildstrategies/includepath/IncludePathsStrategy.java:56 | the number of leading characters `trim` removes: all of them are `<= ' '`, and the next character is not |
| `JavaText.Trim` | src/main/java/jenkins/branch/buildstrategies/includepath/IncludePathsStrategy.java:56 | the result is the slice of the input between a prefix and a suffix of characters `<= ' '`; it starts and ends with a character above `' '`; it is empty exactly when the input is blank |
| `JavaText.ToLowerChar` | src/main/java/jenkins/branch/buildstrategies/includepath/IncludePathsStrategy.java:78 | an upper-case ASCII letter becomes the matching lower-case letter; every other character is unchanged |
| `JavaText.ToLowerAscii` | src/main/java/jenkins/branch/buildstrategies/includepath/IncludePathsStrategy.java:78 | same length; each character is lower-cased on its own; no upper-case ASCII letter remains; a string with none is unchanged |
| `JavaText.TrimmedLowerUnchanged` | src/main/java/jenkins/branch/buildstrategies/includepath/IncludePathsStrategy.java:78 | a line that is already trimmed and lower-case is unchanged by `trim().toLowerCase()` |
| `JavaText.Pieces` | src/main/java/jenkins/branch/buildstrategies/includepath/IncludePathsStrategy.java:77 | cutting at every separator gives at least one piece, no piece holds the separator, and joining the pieces with it gives back the input |
| `JavaText.DropTrailingEmpty` | src/main/java/jenkins/branch/buildstrategies/includepath/IncludePathsStrategy.java:77 | keeps a prefix of the pieces, drops only empty ones, and the last piece kept is not empty |
| `JavaText.Split` | src/main/java/jenkins/branch/buildstrategies/includepath/IncludePathsStrategy.java:77 | `split("\n")`: a string with no separator is its own single piece; no piece holds the separator; the pieces joined are a prefix of the input, and everything after that prefix is separators; when the input holds a separator, there are no pieces or the last one is not empty |
| `JavaText.SplitNonEmpty` | src/main/java/jenkins/branch/buildstrategies/includepath/IncludePathsStrategy.java:77 | a string holding some character that is not the separator splits into at least one piece |
| `JavaText.SplitTwoLines` | src/main/java/jenkins/branch/buildstrategies/includepath/IncludePathsStrategy.java:77 | two lines joined by a line break split back into exactly those two lines |
| `JavaText.Prefix` | src/main/java/jenkins/branch/buildstrategies/includepath/IncludePathsStrategy.java:70 | `substring(0, n)` succeeds exactly when the string has at least n characters and then gives its first n characters |
| `PathMatching.Normalise` | src/main/java/jenkins/branch/buildstrategies/includepath/IncludePathsStrategy.java:97 | `path.replace('\\', '/')`: same length, each backslash becomes a slash, every other character is kept, and no backslash remains |
| `PathMatching.NormaliseIdempotent` | src/main/java/jenkins/branch/buildstrategies/includepath/IncludePathsStrategy.java:97 | normalising twice gives the same as normalising once |
| `PathMatching.NormaliseKeepsSlashedPath` | src/main/java/jenkins/branch/buildstrategies/includepath/IncludePathsStrategy.java:97 | a path without backslashes is unchanged |
| `PathMatching.SeparatorStyleIrrelevant` | src/main/java/jenkins/branch/buildstrategies/includepath/IncludePathsStrategy.java:95-97 | a pattern matches, or throws on, a path exactly when it does so on the path written with forward slashes |
| `PathMatching.IsAffectedPathIncluded` | src/main/java/jenkins/branch/buildstrategies/includepath/IncludePathsStrategy.java:93-98 | "false" exactly when every pattern compiles, `Paths.get` accepts the path and nothing matches; "true" only when some pattern matches; an exception only when trying some pattern raised it |
| `PathMatching.AnyPathIncluded` | src/main/java/jenkins/branch/buildstrategies/includepath/IncludePathsStrategy.java:82-85 | the same three-way statement over every pair of an affected path and a pattern |
| `PathMatching.AnyPathIncludedOrTrue` | src/main/java/jenkins/branch/buildstrategies/includepath/IncludePathsStrategy.java:82-89 | once exceptions are caught as "true", the answer is "true" exactly when some (path, pattern) pair matches or throws |
| `PathMatching.EvaluationOrderIrrelevant` | src/main/java/jenkins/branch/buildstrategies/includepath/IncludePathsStrategy.java:82-97 | the caught answer depends only on which paths and which patterns occur, not on their order or repetition, so any order of the parallel streams gives it |
| `IncludePaths.CoercePrevious` | src/main/java/jenkins/branch/buildstrategies/includepath/IncludePathsStrategy.java:69-73 | null and native git revisions pass through unchanged; any other revision fails exactly when its id is shorter than 40 characters, with that error, and otherwise becomes a native revision whose hash is the first 40 characters of its id |
| `IncludePaths.PatternOf` | src/main/java/jenkins/branch/buildstrategies/includepath/IncludePathsStrategy.java:78 | a pattern is trimmed, holds no upper-case ASCII letter and is no longer than its line |
| `IncludePaths.PatternsOf` | src/main/java/jenkins/branch/buildstrategies/includepath/IncludePathsStrategy.java:77-79 | one pattern per line, in the same order; every pattern is trimmed, holds no upper-case ASCII letter and is no longer than its line; lines that are all already trimmed and lower-case come out unchanged |
| `IncludePaths.PatternOfPlainLine` | src/main/java/jenkins/branch/buildstrategies/includepath/IncludePathsStrategy.java:78 | a line already trimmed and lower-case is its own pattern |
| `IncludePaths.OneLineConfiguration` | src/main/java/jenkins/branch/buildstrategies/includepath/IncludePathsStrategy.java:77-79 | a configuration with no line break yields exactly the pattern of that line |
| `IncludePaths.TwoLineConfiguration` | src/main/java/jenkins/branch/buildstrategies/includepath/IncludePathsStrategy.java:77-79 | a configuration of two lines yields the patterns of those two lines, in order |
| `IncludePaths.NonBlankConfigurationHasPattern` | src/main/java/jenkins/branch/buildstrategies/includepath/IncludePathsStrategy.java:77-79 | a configuration that passes the blank check yields at least one pattern |
| `IncludePaths.AffectedPaths` | src/main/java/jenkins/branch/buildstrategies/includepath/IncludePathsStrategy.java:83-84 | a path is in the flattened stream exactly when some change set lists it |
| `IncludePaths.IsAutomaticBuild` | src/main/java/jenkins/branch/buildstrategies/includepath/IncludePathsStrategy.java:51-91 | always answers; the listener gets an error exactly when the configuration is set and not blank and there is no SCM file system, and then the answer is "build"; "skip" only when every stage succeeded and the change log has change sets |
| `IncludePaths.ReachedChangeLogDecides` | src/main/java/jenkins/branch/buildstrategies/includepath/IncludePathsStrategy.java:75-85 | once a change log is parsed, the answer is that of the return statement on the configured patterns |
| `IncludePaths.BlankConfigurationBuilds` | src/main/java/jenkins/branch/buildstrategies/includepath/IncludePathsStrategy.java:56-58 | a blank configuration gives "build" with no error, and the file system, the change log and the regex engine do not affect it |
| `IncludePaths.NullConfigurationBuilds` | src/main/java/jenkins/branch/buildstrategies/includepath/IncludePathsStrategy.java:53-89 | a null configuration throws in `trim`, and the catch block answers "build" |
| `IncludePaths.MissingFileSystemBuilds` | src/main/java/jenkins/branch/buildstrategies/includepath/IncludePathsStrategy.java:60-65 | with no SCM file system, the error is reported and the answer is "build" |
| `IncludePaths.FaultsFailOpen` | src/main/java/jenkins/branch/buildstrategies/includepath/IncludePathsStrategy.java:86-89 | whatever exception the try block raises, the answer is "build" with no listener error |
| `IncludePaths.ShortRevisionIdBuilds` | src/main/java/jenkins/branch/buildstrategies/includepath/IncludePathsStrategy.java:69-89 | a foreign previous revision with an id shorter than 40 characters makes the try block throw that error, and the answer is "build" |
| `IncludePaths.ChangeLogFailureBuilds` | src/main/java/jenkins/branch/buildstrategies/includepath/IncludePathsStrategy.java:70-89 | a change log that cannot be produced or parsed gives "build" |
| `IncludePaths.EmptyChangeLogBuilds` | src/main/java/jenkins/branch/buildstrategies/includepath/IncludePathsStrategy.java:82 | a change log with no change sets gives "build", whatever the patterns |
| `IncludePaths.DecideOnChangeLogSettles` | src/main/java/jenkins/branch/buildstrategies/includepath/IncludePathsStrategy.java:82-89 | on change sets that exist, the caught return statement is "build" exactly when some pattern matches, or throws on, some affected path of some change set |
| `IncludePaths.BuildsIffSomePathSettles` | src/main/java/jenkins/branch/buildstrategies/includepath/IncludePathsStrategy.java:51-98 | once change sets are parsed, `isAutomaticBuild` answers "build" exactly when some configured pattern matches, or throws on, some affected path; the listener gets no error |
| `IncludePaths.SettlesIffMatches` | src/main/java/jenkins/branch/buildstrategies/includepath/IncludePathsStrategy.java:95-97 | when every pattern compiles and `Paths.get` keeps every path, a pair settles the answer exactly when the pattern fully matches the normalised path |
| `IncludePaths.DecideOnChangeLogMatches` | src/main/java/jenkins/branch/buildstrategies/includepath/IncludePathsStrategy.java:82-97 | when nothing throws, the return statement is "build" exactly when some affected path, normalised, fully matches some pattern |
| `IncludePaths.BuildsIffSomePathMatches` | src/main/java/jenkins/branch/buildstrategies/includepath/IncludePathsStrategy.java:51-98 | when nothing throws and there are change sets, `isAutomaticBuild` answers "build" exactly when some normalised affected path fully matches some configured pattern |
| `IncludePaths.NoAffectedPathsSkips` | src/main/java/jenkins/branch/buildstrategies/includepath/IncludePathsStrategy.java:82-85 | change sets that list no path give "skip", whatever the patterns |
| `IncludePaths.SettlingPathBuilds` | src/main/java/jenkins/branch/buildstrategies/includepath/IncludePathsStrategy.java:82-97 | one pattern that matches, or throws on, one affected path is enough for "build" |
| `IncludePaths.InvalidPatternBuilds` | src/main/java/jenkins/branch/buildstrategies/includepath/IncludePathsStrategy.java:82-97 | a pattern that is not a valid regex, tried on an affected path, makes the answer "build" |
| `IncludePaths.DecisionDependsOnSetsOnly` | src/main/java/jenkins/branch/buildstrategies/includepath/IncludePathsStrategy.java:82-89 | the return statement depends only on whether change sets exist, which paths they list and which patterns there are |
| `IncludePaths.ChangeSetOrderIrrelevant` | src/main/java/jenkins/branch/buildstrategies/includepath/IncludePathsStrategy.java:82-85 | reordering the change sets does not change the answer |
| `IncludePaths.PointwisePermutedPaths` | src/main/java/jenkins/branch/buildstrategies/includepath/IncludePathsStrategy.java:83-84 | change sets that each list the same paths in another order give the same set of affected paths |
| `IncludePaths.AffectedPathOrderIrrelevant` | src/main/java/jenkins/branch/buildstrategies/includepath/IncludePathsStrategy.java:82-85 | reordering the paths inside each change set does not change the answer |
| `IncludePaths.PatternOrderIrrelevant` | src/main/java/jenkins/branch/buildstrategies/includepath/IncludePathsStrategy.java:77-97 | two non-blank configurations whose patterns are the same up to order give the same answer in every environment |
| `IncludePaths.UpperCasePathNeverMatchesLiterally` | src/main/java/jenkins/branch/buildstrategies/includepath/IncludePathsStrategy.java:78-97 | patterns are lower-cased and paths are not: under an engine that matches only identical strings, a path with an upper-case letter is matched by no pattern, even one spelled like it |
| `IncludePathsExamples.FixturePreviousKept` | src/test/java/jenkins/branch/buildstrategies/includepath/IncludePathsStrategyTest.java:40 | the test's previous revision is native, so it is passed to `changesSince` unchanged |
| `IncludePathsExamples.FixturePathsSlashed` | src/test/java/jenkins/branch/buildstrategies/includepath/IncludePathsStrategyTest.java:110-112 | the three paths of the test's commit are unchanged by normalisation |
| `IncludePathsExamples.OnePlainLine` | src/test/java/jenkins/branch/buildstrategies/includepath/IncludePathsStrategyTest.java:46-49 | a one-line configuration that is already trimmed and lower-case is not blank and yields exactly that line as its pattern |
| `IncludePathsExamples.TwoPlainLines` | src/test/java/jenkins/branch/buildstrategies/includepath/IncludePathsStrategyTest.java:50-62 | a two-line configuration of such lines is not blank and yields exactly its two lines as patterns |
| `IncludePathsExamples.FixtureDecides` | src/test/java/jenkins/branch/buildstrategies/includepath/IncludePathsStrategyTest.java:80-97 | in the test's setting, with two such lines, the answer is that of the return statement on the two patterns |
| `IncludePathsExamples.FixtureDecidesOneLine` | src/test/java/jenkins/branch/buildstrategies/includepath/IncludePathsStrategyTest.java:80-97 | the same with one line |
| `IncludePathsExamples.MatchSettles` | src/test/java/jenkins/branch/buildstrategies/includepath/IncludePathsStrategyTest.java:99-113 | a path of the test's commit that a compiling pattern matches, on a platform whose `Paths.get` keeps paths, settles the answer |
| `IncludePathsExamples.FixtureCommitSettles` | src/test/java/jenkins/branch/buildstrategies/includepath/IncludePathsStrategyTest.java:99-113 | a configured pattern that settles any path of the test's commit makes the return statement "build" |
| `IncludePathsExamples.SomePatternMatchesBuilds` | src/test/java/jenkins/branch/buildstrategies/includepath/IncludePathsStrategyTest.java:50-63 | either pattern of a two-line configuration matching any of the commit's three paths gives "build" |
| `IncludePathsExamples.OneLineMatchesBuilds` | src/test/java/jenkins/branch/buildstrategies/includepath/IncludePathsStrategyTest.java:46-49 | a one-line configuration matching any of the commit's three paths gives "build" |
| `IncludePathsExamples.NoPatternMatchesSkips` | src/test/java/jenkins/branch/buildstrategies/includepath/IncludePathsStrategyTest.java:65-68 | two patterns that match none of the commit's three paths give "skip" |
| `IncludePathsExamples.EmptyOrBrokenChangeLogBuilds` | src/test/java/jenkins/branch/buildstrategies/includepath/IncludePathsStrategyTest.java:70-78 | an empty change log, or one the parser cannot read, gives "build" for two such lines and any regex engine |
| `IncludePathsExamples.Dir3JavaBuilds` | src/test/java/jenkins/branch/buildstrategies/includepath/IncludePathsStrategyTest.java:46-47 | `"src/dir3/.*\\.java"` gives "build" when it matches `src/dir3/test.java` |
| `IncludePathsExamples.SrcJavaBuilds` | src/test/java/jenkins/branch/buildstrategies/includepath/IncludePathsStrategyTest.java:48-49 | `"src/.*\\.java"` gives "build" when it matches `src/dir3/test.java` |
| `IncludePathsExamples.JavaOrJarBuilds` | src/test/java/jenkins/branch/buildstrategies/includepath/IncludePathsStrategyTest.java:50-63 | `"src/.*\\.java\nlib/.*\\.jar"` gives "build" when its first pattern matches `src/dir3/test.java` |
| `IncludePathsExamples.TextOrMarkdownBuilds` | src/test/java/jenkins/branch/buildstrategies/includepath/IncludePathsStrategyTest.java:52-53 | `"src/.*\\.txt\nsrc/.*\\.md"` gives "build" when its second pattern matches `src/dir1/test.md` |
| `IncludePathsExamples.RubyOrJarSkips` | src/test/java/jenkins/branch/buildstrategies/includepath/IncludePathsStrategyTest.java:65-68 | `"src/.*\\.rb\nlib/.*\\.jar"` gives "skip" when neither pattern matches any of the three paths |
| `IncludePathsExamples.JavaOrJarOnEmptyOrBrokenChangeLogBuilds` | src/test/java/jenkins/branch/buildstrategies/includepath/IncludePathsStrategyTest.java:70-78 | `"src/.*\\.java\nlib/.*\\.jar"` gives "build" on an empty or unreadable change log, whatever the regex engine |

## Left out

- IncludePaths.IsAutomaticBuild: "always answers" holds because the collaborators are assumed to return. The catch block at line 86 catches `Exception` only. An `Error` thrown inside the try block would escape, for example a `StackOverflowError` from the regex engine or an `OutOfMemoryError`. A backtracking match might also never end. `Platform` and the change-log function are total, so the model cannot express either case.
- `SCMFileSystem.of`, `changesSince` and the byte stream it writes: these are Jenkins I/O. Their outcomes are inputs (`FileSystemLookup`, `ChangeLog`).
- The boolean that `changesSince` returns: the source ignores it.
- `GitChangeLogParser`: the git plugin's parser is not part of this model. A change set is reduced to its affected paths. A parse failure and an empty log are both inputs.
- The JDK regex engine, `FileSystems.getDefault().getPathMatcher("regex:" + s)` and `Paths.get` are not modelled. They are the three functions of `Platform`, so whatever they answer, the properties hold.
- The parallel streams. The model evaluates the pairs in order and stops at the first match or exception. `PathMatching.EvaluationOrderIrrelevant` proves that the caught boolean is the same in every order. Which exception is logged when several could be thrown depends on scheduling, and is not modelled.
- Logging (`LOGGER.fine`, `LOGGER.log`) and message texts. Only whether `taskListener.error` is called is kept, as `Verdict.listenerError`.
- JavaText.ToLowerAscii: `toLowerCase` follows the default locale and all of Unicode in Java. The model lower-cases ASCII letters only.
- IncludePaths.PatternOf: lower-cases ASCII letters only, as `JavaText.ToLowerAscii` does.
- JavaText.Prefix: Java counts `substring` positions in UTF-16 code units. The model counts characters. A git revision id is ASCII, where the two agree.
- `IncludePathsStrategy.DescriptorImpl`: plugin registration and display name, with no decision logic.
- The constructor of `IncludePathsStrategy` (lines 38-41): the datatype `IncludePaths.IncludePathsStrategy` holds the field.
- The Mockito and PowerMock set-up of the tests. The test's regex answers are hypotheses of each example lemma, and the test's change-log text is replaced by its parsed commit.
