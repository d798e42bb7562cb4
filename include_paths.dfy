/**
 * IncludePathsStrategy.isAutomaticBuild: build a branch head
 * automatically when some file touched since the previous revision
 * matches one of the configured path patterns, and fail open in every
 * other case.
 *
 * The SCM file system, the change log it writes and the log parser
 * are Jenkins and git-plugin services; they appear here only through
 * their outcomes, given as inputs.
 */
module IncludePaths {

  import opened Outcomes
  import opened JavaText
  import opened PathMatching

  /** The strategy's one field, includedPaths; None stands for null. */
  datatype IncludePathsStrategy = IncludePathsStrategy(includedPaths: Option<string>)

  /**
   * A revision as SCMRevision.toString() shows it. GitRevision is the
   * git plugin's own AbstractGitSCMSource.SCMRevisionImpl, carrying
   * its commit hash; OtherRevision is any other implementation.
   */
  datatype Revision = GitRevision(hash: string) | OtherRevision(text: string)

  /** One parsed GitChangeSet, reduced to getAffectedPaths(). */
  datatype ChangeSet = ChangeSet(affectedPaths: seq<string>)

  /**
   * What changesSince followed by GitChangeLogParser.parse yields:
   * the change sets in log order, or a failure (either call threw).
   */
  datatype ChangeLog = ChangeLogFailed | ChangeLogParsed(changeSets: seq<ChangeSet>)

  /**
   * The outcome of SCMFileSystem.of(source, head, currRevision): it
   * threw, it returned null, or it returned a file system whose
   * changesSince(previous) is given as a function of the previous
   * revision it is asked about.
   */
  datatype FileSystemLookup =
    | LookupFailed
    | NoFileSystem
    | FileSystem(changesSince: Option<Revision> -> ChangeLog)

  /** The exceptions the try block of isAutomaticBuild can raise. */
  datatype Fault =
    | NullIncludedPaths
    | FileSystemLookupFailed
    | RevisionIdTooShort(id: string)
    | ChangeLogUnavailable
    | MatchingFailed(fault: MatchFault)

  /**
   * The boolean isAutomaticBuild returns, and whether it reported
   * "Error retrieving SCMFileSystem" to the task listener.
   */
  datatype Verdict = Verdict(build: bool, listenerError: bool)

  /** Length of a full git commit hash. */
  const HashLength: nat := 40

  /**
   * The previous revision handed to changesSince: null and native git
   * revisions pass through; any other revision becomes a native one
   * built from the first 40 characters of its string form, and a
   * shorter string form makes substring throw.
   */
  function CoercePrevious(prev: Option<Revision>): (r: Result<Option<Revision>, Fault>)
    ensures prev.None? || prev.value.GitRevision? ==> r == Ok(prev)
    ensures prev.Some? && prev.value.OtherRevision? ==>
      (r.Ok? <==> |prev.value.text| >= HashLength)
    ensures prev.Some? && prev.value.OtherRevision? && r.Err? ==>
      r.error == RevisionIdTooShort(prev.value.text)
    ensures prev.Some? && prev.value.OtherRevision? && r.Ok? ==>
      && |prev.value.text| >= HashLength
      && r.value == Some(GitRevision(prev.value.text[..HashLength]))
    ensures r.Ok? && r.value.Some? ==> r.value.value.GitRevision?
  {
    match prev
    case None => Ok(None)
    case Some(GitRevision(_)) => Ok(prev)
    case Some(OtherRevision(text)) =>
      match Prefix(text, HashLength)
      case None => Err(RevisionIdTooShort(text))
      case Some(id) => Ok(Some(GitRevision(id)))
  }

  /** One configured line as a pattern: trimmed, then lower-cased. */
  function PatternOf(line: string): (r: string)
    ensures IsTrimmed(r) && !HasAsciiUpper(r)
    ensures |r| <= |line|
  {
    ToLowerKeepsTrimmed(Trim(line));
    ToLowerAscii(Trim(line))
  }

  /**
   * Each configured line as a pattern, in order: every pattern is
   * trimmed and lower-case, and lines that already are come out as
   * they went in.
   */
  function PatternsOf(lines: seq<string>): (r: seq<string>)
    ensures |r| == |lines|
    ensures forall k :: 0 <= k < |r| ==> r[k] == PatternOf(lines[k])
    ensures forall k :: 0 <= k < |r| ==> IsTrimmed(r[k]) && !HasAsciiUpper(r[k]) && |r[k]| <= |lines[k]|
    ensures (forall k :: 0 <= k < |lines| ==> IsTrimmed(lines[k]) && !HasAsciiUpper(lines[k])) ==> r == lines
  {
    forall k | 0 <= k < |lines| && IsTrimmed(lines[k]) && !HasAsciiUpper(lines[k]) {
      PatternOfPlainLine(lines[k]);
    }
    seq(|lines|, k requires 0 <= k < |lines| => PatternOf(lines[k]))
  }

  /**
   * includedPaths.split("\n") with every piece trimmed and lower-cased:
   * one pattern per piece, in order.
   */
  function IncludedPatterns(includedPaths: string): (r: seq<string>)
  {
    PatternsOf(Split(includedPaths, '\n'))
  }

  /** A configuration line that is already trimmed and lower-case is its own pattern. */
  lemma PatternOfPlainLine(line: string)
    requires IsTrimmed(line) && !HasAsciiUpper(line)
    ensures PatternOf(line) == line
  {
    TrimmedLowerUnchanged(line);
  }

  /** A configuration of one line yields the pattern of that line. */
  lemma OneLineConfiguration(a: string)
    requires '\n' !in a
    ensures IncludedPatterns(a) == [PatternOf(a)]
  {
    var patterns := PatternsOf([a]);
    assert patterns[0] == PatternOf(a);
  }

  /** A two-line configuration yields the patterns of its two lines. */
  lemma TwoLineConfiguration(a: string, b: string)
    requires '\n' !in a && '\n' !in b && b != []
    ensures IncludedPatterns(a + ['\n'] + b) == [PatternOf(a), PatternOf(b)]
  {
    SplitTwoLines(a, b, '\n');
    var patterns := PatternsOf([a, b]);
    assert patterns[0] == PatternOf(a) && patterns[1] == PatternOf(b);
  }

  /** Every affected path of every change set, in log order. */
  function AffectedPaths(logs: seq<ChangeSet>): (r: seq<string>)
    ensures forall path :: path in r <==> exists cs :: cs in logs && path in cs.affectedPaths
  {
    if logs == [] then []
    else
      assert forall cs :: cs in logs <==> cs == logs[0] || cs in logs[1..];
      logs[0].affectedPaths + AffectedPaths(logs[1..])
  }

  /**
   * The return statement of the try block: "build" when there are no
   * change sets, otherwise the anyMatch over their affected paths.
   */
  function DecideOnChangeLog(patterns: seq<string>, logs: seq<ChangeSet>, platform: Platform): Result<Verdict, Fault>
  {
    if logs == [] then Ok(Verdict(true, false))
    else match AnyPathIncluded(platform, AffectedPaths(logs), patterns)
      case Ok(b) => Ok(Verdict(b, false))
      case Err(f) => Err(MatchingFailed(f))
  }

  /** The try block of isAutomaticBuild: a verdict, or the exception it raises. */
  function Evaluate(strategy: IncludePathsStrategy, lookup: FileSystemLookup,
                    prev: Option<Revision>, platform: Platform): Result<Verdict, Fault>
  {
    match strategy.includedPaths
    case None => Err(NullIncludedPaths)
    case Some(config) =>
      if IsBlank(config) then Ok(Verdict(true, false))
      else match lookup
        case LookupFailed => Err(FileSystemLookupFailed)
        case NoFileSystem => Ok(Verdict(true, true))
        case FileSystem(changesSince) =>
          match CoercePrevious(prev)
          case Err(f) => Err(f)
          case Ok(since) =>
            match changesSince(since)
            case ChangeLogFailed => Err(ChangeLogUnavailable)
            case ChangeLogParsed(logs) => DecideOnChangeLog(IncludedPatterns(config), logs, platform)
  }

  /** The catch block: any exception is logged and answered with "build". */
  function Catch(r: Result<Verdict, Fault>): Verdict
  {
    match r
    case Ok(v) => v
    case Err(_) => Verdict(true, false)
  }

  /**
   * isAutomaticBuild: the try block, with every exception caught and
   * turned into "build". It has no precondition and always answers;
   * the listener hears of an error exactly when there is no SCM file
   * system, and the build is skipped only when every stage succeeded
   * and produced a non-empty change log.
   */
  function IsAutomaticBuild(strategy: IncludePathsStrategy, lookup: FileSystemLookup,
                            prev: Option<Revision>, platform: Platform): (v: Verdict)
    ensures v.listenerError <==>
      strategy.includedPaths.Some? && !IsBlank(strategy.includedPaths.value) && lookup.NoFileSystem?
    ensures v.listenerError ==> v.build
    ensures !v.build ==>
      && strategy.includedPaths.Some? && !IsBlank(strategy.includedPaths.value)
      && lookup.FileSystem? && CoercePrevious(prev).Ok?
      && lookup.changesSince(CoercePrevious(prev).value).ChangeLogParsed?
      && lookup.changesSince(CoercePrevious(prev).value).changeSets != []
  {
    Catch(Evaluate(strategy, lookup, prev, platform))
  }

  // ---------------------------------------------------------------- the decision table

  /** Every stage before the matching succeeded and produced exactly these change sets. */
  predicate ReachesChangeLog(strategy: IncludePathsStrategy, lookup: FileSystemLookup,
                             prev: Option<Revision>, logs: seq<ChangeSet>)
  {
    && strategy.includedPaths.Some? && !IsBlank(strategy.includedPaths.value)
    && lookup.FileSystem? && CoercePrevious(prev).Ok?
    && lookup.changesSince(CoercePrevious(prev).value) == ChangeLogParsed(logs)
  }

  /** Once the change log is parsed, the answer is that of the return statement. */
  lemma ReachedChangeLogDecides(strategy: IncludePathsStrategy, lookup: FileSystemLookup,
                                prev: Option<Revision>, platform: Platform, logs: seq<ChangeSet>)
    requires ReachesChangeLog(strategy, lookup, prev, logs)
    ensures IsAutomaticBuild(strategy, lookup, prev, platform)
         == Catch(DecideOnChangeLog(IncludedPatterns(strategy.includedPaths.value), logs, platform))
  {
    var since := CoercePrevious(prev).value;
    assert lookup.changesSince(since) == ChangeLogParsed(logs);
    assert Evaluate(strategy, lookup, prev, platform)
        == DecideOnChangeLog(IncludedPatterns(strategy.includedPaths.value), logs, platform);
  }

  /** Blank configuration: with no pattern configured the answer is "build", whatever the SCM would say. */
  lemma BlankConfigurationBuilds(strategy: IncludePathsStrategy,
                                 lookup1: FileSystemLookup, prev1: Option<Revision>, platform1: Platform,
                                 lookup2: FileSystemLookup, prev2: Option<Revision>, platform2: Platform)
    requires strategy.includedPaths.Some? && IsBlank(strategy.includedPaths.value)
    ensures IsAutomaticBuild(strategy, lookup1, prev1, platform1) == Verdict(true, false)
    ensures IsAutomaticBuild(strategy, lookup1, prev1, platform1) == IsAutomaticBuild(strategy, lookup2, prev2, platform2)
  {
  }

  /** A null includedPaths makes trim throw, and the catch block answers "build". */
  lemma NullConfigurationBuilds(strategy: IncludePathsStrategy, lookup: FileSystemLookup,
                                prev: Option<Revision>, platform: Platform)
    requires strategy.includedPaths.None?
    ensures IsAutomaticBuild(strategy, lookup, prev, platform) == Verdict(true, false)
  {
  }

  /** No SCM file system: an error is reported and the answer is "build". */
  lemma MissingFileSystemBuilds(strategy: IncludePathsStrategy, prev: Option<Revision>, platform: Platform)
    requires strategy.includedPaths.Some? && !IsBlank(strategy.includedPaths.value)
    ensures IsAutomaticBuild(strategy, NoFileSystem, prev, platform) == Verdict(true, true)
  {
  }

  /** Whatever exception the try block raises, the answer is "build". */
  lemma FaultsFailOpen(strategy: IncludePathsStrategy, lookup: FileSystemLookup,
                       prev: Option<Revision>, platform: Platform)
    requires Evaluate(strategy, lookup, prev, platform).Err?
    ensures IsAutomaticBuild(strategy, lookup, prev, platform) == Verdict(true, false)
  {
  }

  /** A foreign previous revision whose id is shorter than a full hash makes substring throw: "build". */
  lemma ShortRevisionIdBuilds(strategy: IncludePathsStrategy, lookup: FileSystemLookup,
                              text: string, platform: Platform)
    requires strategy.includedPaths.Some? && !IsBlank(strategy.includedPaths.value)
    requires lookup.FileSystem? && |text| < HashLength
    ensures Evaluate(strategy, lookup, Some(OtherRevision(text)), platform) == Err(RevisionIdTooShort(text))
    ensures IsAutomaticBuild(strategy, lookup, Some(OtherRevision(text)), platform) == Verdict(true, false)
  {
  }

  /** A change log that cannot be produced or parsed: "build". */
  lemma ChangeLogFailureBuilds(strategy: IncludePathsStrategy, lookup: FileSystemLookup,
                               prev: Option<Revision>, platform: Platform)
    requires strategy.includedPaths.Some? && !IsBlank(strategy.includedPaths.value)
    requires lookup.FileSystem? && CoercePrevious(prev).Ok?
    requires lookup.changesSince(CoercePrevious(prev).value) == ChangeLogFailed
    ensures IsAutomaticBuild(strategy, lookup, prev, platform) == Verdict(true, false)
  {
  }

  /** No change sets: "build", whatever the patterns and the regex engine. */
  lemma EmptyChangeLogBuilds(strategy: IncludePathsStrategy, lookup: FileSystemLookup,
                             prev: Option<Revision>, platform: Platform)
    requires ReachesChangeLog(strategy, lookup, prev, [])
    ensures IsAutomaticBuild(strategy, lookup, prev, platform) == Verdict(true, false)
  {
    ReachedChangeLogDecides(strategy, lookup, prev, platform, []);
  }

  /**
   * The return statement on a non-empty change log: "build" exactly
   * when some pattern settles some affected path of some change set.
   */
  lemma DecideOnChangeLogSettles(patterns: seq<string>, logs: seq<ChangeSet>, platform: Platform)
    requires logs != []
    ensures !Catch(DecideOnChangeLog(patterns, logs, platform)).listenerError
    ensures Catch(DecideOnChangeLog(patterns, logs, platform)).build <==>
      exists cs, path, pat :: cs in logs && path in cs.affectedPaths && pat in patterns && Settles(platform, pat, path)
  {
    var paths := AffectedPaths(logs);
    AnyPathIncludedOrTrue(platform, paths, patterns);
    assert Catch(DecideOnChangeLog(patterns, logs, platform)).build == OrTrue(AnyPathIncluded(platform, paths, patterns));
  }

  /**
   * Change sets present: with a non-empty change log the answer is "build" exactly
   * when some pattern settles some affected path of some change set
   * (it matches, or trying it throws).
   */
  lemma BuildsIffSomePathSettles(strategy: IncludePathsStrategy, lookup: FileSystemLookup,
                                 prev: Option<Revision>, platform: Platform, logs: seq<ChangeSet>)
    requires ReachesChangeLog(strategy, lookup, prev, logs) && logs != []
    ensures !IsAutomaticBuild(strategy, lookup, prev, platform).listenerError
    ensures IsAutomaticBuild(strategy, lookup, prev, platform).build <==>
      exists cs, path, pat :: cs in logs && path in cs.affectedPaths
        && pat in IncludedPatterns(strategy.includedPaths.value) && Settles(platform, pat, path)
  {
    ReachedChangeLogDecides(strategy, lookup, prev, platform, logs);
    DecideOnChangeLogSettles(IncludedPatterns(strategy.includedPaths.value), logs, platform);
  }

  /** Every pattern compiles and Paths.get neither throws nor rewrites the path. */
  ghost predicate WellBehaved(platform: Platform, patterns: seq<string>)
  {
    && (forall pat :: pat in patterns ==> platform.compiles(pat))
    && (forall q :: platform.parsePath(q) == Some(q))
  }

  /** On a well-behaved platform a pattern settles a path exactly when it fully matches its normalised form. */
  lemma SettlesIffMatches(platform: Platform, patterns: seq<string>)
    requires WellBehaved(platform, patterns)
    ensures forall path, pat :: pat in patterns ==>
      (Settles(platform, pat, path) <==> platform.fullMatch(pat, Normalise(path)))
  {
    forall path, pat | pat in patterns
      ensures Settles(platform, pat, path) <==> platform.fullMatch(pat, Normalise(path))
    {
      assert platform.parsePath(Normalise(path)) == Some(Normalise(path));
    }
  }

  /** The return statement on a non-empty change log, when nothing throws. */
  lemma DecideOnChangeLogMatches(patterns: seq<string>, logs: seq<ChangeSet>, platform: Platform)
    requires logs != [] && WellBehaved(platform, patterns)
    ensures Catch(DecideOnChangeLog(patterns, logs, platform)).build <==>
      exists cs, path, pat :: cs in logs && path in cs.affectedPaths && pat in patterns && platform.fullMatch(pat, Normalise(path))
  {
    DecideOnChangeLogSettles(patterns, logs, platform);
    SettlesIffMatches(platform, patterns);
    if Catch(DecideOnChangeLog(patterns, logs, platform)).build {
      var cs, path, pat :| cs in logs && path in cs.affectedPaths && pat in patterns && Settles(platform, pat, path);
      assert platform.fullMatch(pat, Normalise(path));
    }
    if exists cs, path, pat :: cs in logs && path in cs.affectedPaths && pat in patterns && platform.fullMatch(pat, Normalise(path)) {
      var cs, path, pat :| cs in logs && path in cs.affectedPaths && pat in patterns && platform.fullMatch(pat, Normalise(path));
      assert Settles(platform, pat, path);
    }
  }

  /**
   * Change sets present and nothing throws: "build" exactly when some affected path,
   * its backslashes turned into slashes, fully matches some pattern.
   */
  lemma BuildsIffSomePathMatches(strategy: IncludePathsStrategy, lookup: FileSystemLookup,
                                 prev: Option<Revision>, platform: Platform, logs: seq<ChangeSet>)
    requires ReachesChangeLog(strategy, lookup, prev, logs) && logs != []
    requires WellBehaved(platform, IncludedPatterns(strategy.includedPaths.value))
    ensures IsAutomaticBuild(strategy, lookup, prev, platform).build <==>
      exists cs, path, pat :: cs in logs && path in cs.affectedPaths
        && pat in IncludedPatterns(strategy.includedPaths.value) && platform.fullMatch(pat, Normalise(path))
  {
    ReachedChangeLogDecides(strategy, lookup, prev, platform, logs);
    DecideOnChangeLogMatches(IncludedPatterns(strategy.includedPaths.value), logs, platform);
  }

  /** No change set lists a path: the build is skipped, whatever the patterns. */
  lemma NoAffectedPathsSkips(strategy: IncludePathsStrategy, lookup: FileSystemLookup,
                             prev: Option<Revision>, platform: Platform, logs: seq<ChangeSet>)
    requires ReachesChangeLog(strategy, lookup, prev, logs) && logs != []
    requires forall cs :: cs in logs ==> cs.affectedPaths == []
    ensures IsAutomaticBuild(strategy, lookup, prev, platform) == Verdict(false, false)
  {
    BuildsIffSomePathSettles(strategy, lookup, prev, platform, logs);
  }

  /** One pattern that settles one affected path is enough for "build". */
  lemma SettlingPathBuilds(strategy: IncludePathsStrategy, lookup: FileSystemLookup,
                           prev: Option<Revision>, platform: Platform, logs: seq<ChangeSet>,
                           cs: ChangeSet, path: string, pat: string)
    requires ReachesChangeLog(strategy, lookup, prev, logs) && cs in logs && path in cs.affectedPaths
    requires pat in IncludedPatterns(strategy.includedPaths.value) && Settles(platform, pat, path)
    ensures IsAutomaticBuild(strategy, lookup, prev, platform) == Verdict(true, false)
  {
    BuildsIffSomePathSettles(strategy, lookup, prev, platform, logs);
  }

  /** A pattern that does not compile, tried on any affected path, makes the answer "build". */
  lemma InvalidPatternBuilds(strategy: IncludePathsStrategy, lookup: FileSystemLookup,
                             prev: Option<Revision>, platform: Platform, logs: seq<ChangeSet>,
                             cs: ChangeSet, path: string, pat: string)
    requires ReachesChangeLog(strategy, lookup, prev, logs) && cs in logs && path in cs.affectedPaths
    requires pat in IncludedPatterns(strategy.includedPaths.value) && !platform.compiles(pat)
    ensures IsAutomaticBuild(strategy, lookup, prev, platform) == Verdict(true, false)
  {
    SettlingPathBuilds(strategy, lookup, prev, platform, logs, cs, path, pat);
  }

  /**
   * The return statement depends only on whether there are change
   * sets, which paths they list and which patterns there are.
   */
  lemma DecisionDependsOnSetsOnly(platform: Platform,
                                  patterns1: seq<string>, logs1: seq<ChangeSet>,
                                  patterns2: seq<string>, logs2: seq<ChangeSet>)
    requires (logs1 == []) == (logs2 == [])
    requires forall path :: path in AffectedPaths(logs1) <==> path in AffectedPaths(logs2)
    requires forall pat :: pat in patterns1 <==> pat in patterns2
    ensures Catch(DecideOnChangeLog(patterns1, logs1, platform)) == Catch(DecideOnChangeLog(patterns2, logs2, platform))
  {
    if logs1 != [] {
      var paths1, paths2 := AffectedPaths(logs1), AffectedPaths(logs2);
      EvaluationOrderIrrelevant(platform, paths1, patterns1, paths2, patterns2);
      assert Catch(DecideOnChangeLog(patterns1, logs1, platform)) == Verdict(OrTrue(AnyPathIncluded(platform, paths1, patterns1)), false);
      assert Catch(DecideOnChangeLog(patterns2, logs2, platform)) == Verdict(OrTrue(AnyPathIncluded(platform, paths2, patterns2)), false);
    }
  }

  /** Reordering the change sets leaves the answer unchanged. */
  lemma ChangeSetOrderIrrelevant(strategy: IncludePathsStrategy, prev: Option<Revision>, platform: Platform,
                                 lookup1: FileSystemLookup, logs1: seq<ChangeSet>,
                                 lookup2: FileSystemLookup, logs2: seq<ChangeSet>)
    requires ReachesChangeLog(strategy, lookup1, prev, logs1)
    requires ReachesChangeLog(strategy, lookup2, prev, logs2)
    requires multiset(logs1) == multiset(logs2)
    ensures IsAutomaticBuild(strategy, lookup1, prev, platform) == IsAutomaticBuild(strategy, lookup2, prev, platform)
  {
    var patterns := IncludedPatterns(strategy.includedPaths.value);
    ReachedChangeLogDecides(strategy, lookup1, prev, platform, logs1);
    ReachedChangeLogDecides(strategy, lookup2, prev, platform, logs2);
    if logs1 != [] {
      assert logs1[0] in multiset(logs2);
    }
    forall cs ensures cs in logs1 <==> cs in logs2 {
      assert cs in logs1 <==> cs in multiset(logs1);
      assert cs in logs2 <==> cs in multiset(logs2);
    }
    DecisionDependsOnSetsOnly(platform, patterns, logs1, patterns, logs2);
  }

  /** Change sets that list the same paths, each in its own order, give the same affected paths. */
  lemma PointwisePermutedPaths(logs1: seq<ChangeSet>, logs2: seq<ChangeSet>)
    requires |logs1| == |logs2|
    requires forall k :: 0 <= k < |logs1| ==> multiset(logs1[k].affectedPaths) == multiset(logs2[k].affectedPaths)
    ensures forall path :: path in AffectedPaths(logs1) <==> path in AffectedPaths(logs2)
  {
    forall path ensures path in AffectedPaths(logs1) ==> path in AffectedPaths(logs2) {
      if path in AffectedPaths(logs1) {
        var cs :| cs in logs1 && path in cs.affectedPaths;
        var k :| 0 <= k < |logs1| && logs1[k] == cs;
        assert path in multiset(logs2[k].affectedPaths);
        assert logs2[k] in logs2;
      }
    }
    forall path ensures path in AffectedPaths(logs2) ==> path in AffectedPaths(logs1) {
      if path in AffectedPaths(logs2) {
        var cs :| cs in logs2 && path in cs.affectedPaths;
        var k :| 0 <= k < |logs2| && logs2[k] == cs;
        assert path in multiset(logs1[k].affectedPaths);
        assert logs1[k] in logs1;
      }
    }
  }

  /** Reordering the affected paths inside each change set leaves the answer unchanged. */
  lemma AffectedPathOrderIrrelevant(strategy: IncludePathsStrategy, prev: Option<Revision>, platform: Platform,
                                    lookup1: FileSystemLookup, logs1: seq<ChangeSet>,
                                    lookup2: FileSystemLookup, logs2: seq<ChangeSet>)
    requires ReachesChangeLog(strategy, lookup1, prev, logs1)
    requires ReachesChangeLog(strategy, lookup2, prev, logs2)
    requires |logs1| == |logs2|
    requires forall k :: 0 <= k < |logs1| ==> multiset(logs1[k].affectedPaths) == multiset(logs2[k].affectedPaths)
    ensures IsAutomaticBuild(strategy, lookup1, prev, platform) == IsAutomaticBuild(strategy, lookup2, prev, platform)
  {
    var patterns := IncludedPatterns(strategy.includedPaths.value);
    ReachedChangeLogDecides(strategy, lookup1, prev, platform, logs1);
    ReachedChangeLogDecides(strategy, lookup2, prev, platform, logs2);
    PointwisePermutedPaths(logs1, logs2);
    DecisionDependsOnSetsOnly(platform, patterns, logs1, patterns, logs2);
  }

  /** Reordering the configured pattern lines leaves the answer unchanged. */
  lemma PatternOrderIrrelevant(strategy1: IncludePathsStrategy, strategy2: IncludePathsStrategy,
                               lookup: FileSystemLookup, prev: Option<Revision>, platform: Platform)
    requires strategy1.includedPaths.Some? && !IsBlank(strategy1.includedPaths.value)
    requires strategy2.includedPaths.Some? && !IsBlank(strategy2.includedPaths.value)
    requires multiset(IncludedPatterns(strategy1.includedPaths.value)) == multiset(IncludedPatterns(strategy2.includedPaths.value))
    ensures IsAutomaticBuild(strategy1, lookup, prev, platform) == IsAutomaticBuild(strategy2, lookup, prev, platform)
  {
    if lookup.FileSystem? && CoercePrevious(prev).Ok? {
      var log := lookup.changesSince(CoercePrevious(prev).value);
      if log.ChangeLogParsed? {
        var p1 := IncludedPatterns(strategy1.includedPaths.value);
        var p2 := IncludedPatterns(strategy2.includedPaths.value);
        forall pat ensures pat in p1 <==> pat in p2 {
          assert pat in p1 <==> pat in multiset(p1);
          assert pat in p2 <==> pat in multiset(p2);
        }
        ReachedChangeLogDecides(strategy1, lookup, prev, platform, log.changeSets);
        ReachedChangeLogDecides(strategy2, lookup, prev, platform, log.changeSets);
        DecisionDependsOnSetsOnly(platform, p1, log.changeSets, p2, log.changeSets);
      }
    }
  }

  /** A configuration that is not blank yields at least one pattern. */
  lemma NonBlankConfigurationHasPattern(includedPaths: string)
    requires !IsBlank(includedPaths)
    ensures IncludedPatterns(includedPaths) != []
  {
    var i :| 0 <= i < |includedPaths| && !IsTrimmable(includedPaths[i]);
    SplitNonEmpty(includedPaths, '\n', i);
  }

  /**
   * A regex engine that only matches a pattern against the identical
   * string, used to show that paths are matched in their own case.
   */
  function LiteralPlatform(): Platform
  {
    Platform(pat => true, q => Some(q), (pat, q) => pat == q)
  }

  /**
   * Patterns are lower-cased but paths are not: under a literal
   * engine a path holding an upper-case letter is never included,
   * even by the pattern line that spells it exactly.
   */
  lemma UpperCasePathNeverMatchesLiterally(includedPaths: string, path: string)
    requires HasAsciiUpper(path)
    ensures forall pat :: pat in IncludedPatterns(includedPaths) ==> ProbePattern(LiteralPlatform(), pat, path) == Miss
  {
    var i :| 0 <= i < |path| && IsAsciiUpper(path[i]);
    assert Normalise(path)[i] == path[i];
    forall pat | pat in IncludedPatterns(includedPaths)
      ensures pat != Normalise(path)
    {
      assert !HasAsciiUpper(pat);
    }
  }
}
