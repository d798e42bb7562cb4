/**
 * The assertions of IncludePathsStrategyTest, restated on the model.
 * The test's change log is one commit adding three files; what the
 * JDK regex engine answers for the test's patterns and paths is stated
 * as a hypothesis of each lemma, since the engine is not modelled.
 */
module IncludePathsExamples {

  import opened Outcomes
  import opened JavaText
  import opened PathMatching
  import opened IncludePaths

  /** The commit of the test's change log, reduced to its affected paths. */
  function FixtureCommit(): ChangeSet
  {
    ChangeSet(["src/dir1/test.md", "src/dir2/test.txt", "src/dir3/test.java"])
  }

  /** The test's previous revision, a native git revision. */
  function FixturePrevious(): Option<Revision>
  {
    Some(GitRevision("111"))
  }

  /** The test's revision is already native, so it is passed on unchanged. */
  lemma FixturePreviousKept()
    ensures CoercePrevious(FixturePrevious()) == Ok(FixturePrevious())
  {
  }

  /** A file system whose change log since the test's previous revision is this one. */
  predicate ServesChangeLog(lookup: FileSystemLookup, log: ChangeLog)
  {
    lookup.FileSystem? && lookup.changesSince(FixturePrevious()) == log
  }

  /** The test's paths already use forward slashes. */
  lemma FixturePathsSlashed()
    ensures forall path :: path in FixtureCommit().affectedPaths ==> Normalise(path) == path
  {
    NormaliseKeepsSlashedPath("src/dir1/test.md");
    NormaliseKeepsSlashedPath("src/dir2/test.txt");
    NormaliseKeepsSlashedPath("src/dir3/test.java");
  }

  /**
   * A line the test writes as a pattern: not empty, no line break,
   * nothing for trim to remove and no upper-case letter.
   */
  predicate PlainLine(line: string)
  {
    line != [] && '\n' !in line && IsTrimmed(line) && !HasAsciiUpper(line)
  }

  /** A configuration of one plain line is not blank and yields exactly that line as its pattern. */
  lemma OnePlainLine(a: string)
    requires PlainLine(a)
    ensures !IsBlank(a)
    ensures IncludedPatterns(a) == [a]
  {
    assert !IsTrimmable(a[0]);
    OneLineConfiguration(a);
    PatternOfPlainLine(a);
  }

  /** A configuration of two plain lines is not blank and yields exactly those two patterns. */
  lemma TwoPlainLines(a: string, b: string)
    requires PlainLine(a) && PlainLine(b)
    ensures !IsBlank(a + ['\n'] + b)
    ensures IncludedPatterns(a + ['\n'] + b) == [a, b]
  {
    assert (a + ['\n'] + b)[0] == a[0];
    TwoLineConfiguration(a, b);
    PatternOfPlainLine(a);
    PatternOfPlainLine(b);
  }

  /**
   * The test's setting with two plain pattern lines and a file system
   * serving the given change log: the answer is that of the return
   * statement on the two patterns.
   */
  lemma FixtureDecides(a: string, b: string, lookup: FileSystemLookup, platform: Platform, logs: seq<ChangeSet>)
    requires PlainLine(a) && PlainLine(b)
    requires ServesChangeLog(lookup, ChangeLogParsed(logs))
    ensures IsAutomaticBuild(IncludePathsStrategy(Some(a + ['\n'] + b)), lookup, FixturePrevious(), platform)
         == Catch(DecideOnChangeLog([a, b], logs, platform))
  {
    TwoPlainLines(a, b);
    FixturePreviousKept();
    ReachedChangeLogDecides(IncludePathsStrategy(Some(a + ['\n'] + b)), lookup, FixturePrevious(), platform, logs);
  }

  /** The same with one plain pattern line. */
  lemma FixtureDecidesOneLine(a: string, lookup: FileSystemLookup, platform: Platform, logs: seq<ChangeSet>)
    requires PlainLine(a)
    requires ServesChangeLog(lookup, ChangeLogParsed(logs))
    ensures IsAutomaticBuild(IncludePathsStrategy(Some(a)), lookup, FixturePrevious(), platform)
         == Catch(DecideOnChangeLog([a], logs, platform))
  {
    OnePlainLine(a);
    FixturePreviousKept();
    ReachedChangeLogDecides(IncludePathsStrategy(Some(a)), lookup, FixturePrevious(), platform, logs);
  }

  /** On a platform where Paths.get changes nothing, a path of the commit that the pattern matches is settled. */
  lemma MatchSettles(platform: Platform, pat: string, i: nat)
    requires i < |FixtureCommit().affectedPaths|
    requires platform.compiles(pat)
    requires forall q :: platform.parsePath(q) == Some(q)
    requires platform.fullMatch(pat, FixtureCommit().affectedPaths[i])
    ensures Settles(platform, pat, FixtureCommit().affectedPaths[i])
  {
    var path := FixtureCommit().affectedPaths[i];
    FixturePathsSlashed();
    assert Normalise(path) == path;
    assert platform.parsePath(path) == Some(path);
  }

  /** A pattern that is settled on one of the commit's paths decides the return statement for "build". */
  lemma FixtureCommitSettles(patterns: seq<string>, pat: string, i: nat, platform: Platform)
    requires pat in patterns && i < |FixtureCommit().affectedPaths|
    requires Settles(platform, pat, FixtureCommit().affectedPaths[i])
    ensures Catch(DecideOnChangeLog(patterns, [FixtureCommit()], platform)).build
  {
    var cs := FixtureCommit();
    DecideOnChangeLogSettles(patterns, [cs], platform);
    assert cs in [cs] && cs.affectedPaths[i] in cs.affectedPaths;
  }

  /**
   * Against the test's commit, either pattern of a two-line
   * configuration matching any of the three paths makes the answer "build".
   */
  lemma SomePatternMatchesBuilds(a: string, b: string, pat: string, i: nat,
                                 lookup: FileSystemLookup, platform: Platform)
    requires PlainLine(a) && PlainLine(b)
    requires ServesChangeLog(lookup, ChangeLogParsed([FixtureCommit()]))
    requires (pat == a || pat == b) && platform.compiles(pat)
    requires forall q :: platform.parsePath(q) == Some(q)
    requires i < |FixtureCommit().affectedPaths| && platform.fullMatch(pat, FixtureCommit().affectedPaths[i])
    ensures IsAutomaticBuild(IncludePathsStrategy(Some(a + ['\n'] + b)), lookup, FixturePrevious(), platform).build
  {
    MatchSettles(platform, pat, i);
    FixtureCommitSettles([a, b], pat, i, platform);
    FixtureDecides(a, b, lookup, platform, [FixtureCommit()]);
  }

  /** Against the test's commit, a one-line configuration matching any of the three paths makes the answer "build". */
  lemma OneLineMatchesBuilds(a: string, i: nat, lookup: FileSystemLookup, platform: Platform)
    requires PlainLine(a)
    requires ServesChangeLog(lookup, ChangeLogParsed([FixtureCommit()]))
    requires platform.compiles(a)
    requires forall q :: platform.parsePath(q) == Some(q)
    requires i < |FixtureCommit().affectedPaths| && platform.fullMatch(a, FixtureCommit().affectedPaths[i])
    ensures IsAutomaticBuild(IncludePathsStrategy(Some(a)), lookup, FixturePrevious(), platform).build
  {
    MatchSettles(platform, a, i);
    FixtureCommitSettles([a], a, i, platform);
    FixtureDecidesOneLine(a, lookup, platform, [FixtureCommit()]);
  }

  /** Against the test's commit, two patterns that match none of its paths make the answer "skip". */
  lemma NoPatternMatchesSkips(a: string, b: string, lookup: FileSystemLookup, platform: Platform)
    requires PlainLine(a) && PlainLine(b)
    requires ServesChangeLog(lookup, ChangeLogParsed([FixtureCommit()]))
    requires platform.compiles(a) && platform.compiles(b)
    requires forall q :: platform.parsePath(q) == Some(q)
    requires forall path :: path in FixtureCommit().affectedPaths ==>
      !platform.fullMatch(a, path) && !platform.fullMatch(b, path)
    ensures !IsAutomaticBuild(IncludePathsStrategy(Some(a + ['\n'] + b)), lookup, FixturePrevious(), platform).build
  {
    FixtureDecides(a, b, lookup, platform, [FixtureCommit()]);
    FixturePathsSlashed();
    DecideOnChangeLogMatches([a, b], [FixtureCommit()], platform);
  }

  /** An empty change log, or one that cannot be read, gives "build" for two plain lines and every regex engine. */
  lemma EmptyOrBrokenChangeLogBuilds(a: string, b: string, lookup: FileSystemLookup, platform: Platform)
    requires PlainLine(a) && PlainLine(b)
    requires ServesChangeLog(lookup, ChangeLogParsed([])) || ServesChangeLog(lookup, ChangeLogFailed)
    ensures IsAutomaticBuild(IncludePathsStrategy(Some(a + ['\n'] + b)), lookup, FixturePrevious(), platform).build
  {
    TwoPlainLines(a, b);
    FixturePreviousKept();
    var strategy := IncludePathsStrategy(Some(a + ['\n'] + b));
    if ServesChangeLog(lookup, ChangeLogParsed([])) {
      EmptyChangeLogBuilds(strategy, lookup, FixturePrevious(), platform);
    } else {
      ChangeLogFailureBuilds(strategy, lookup, FixturePrevious(), platform);
    }
  }

  /** testPathsRegexps, first assertion: "src/dir3/.*\\.java" matches "src/dir3/test.java". */
  lemma Dir3JavaBuilds(lookup: FileSystemLookup, platform: Platform)
    requires ServesChangeLog(lookup, ChangeLogParsed([FixtureCommit()]))
    requires forall q :: platform.parsePath(q) == Some(q)
    requires platform.compiles("src/dir3/.*\\.java") && platform.fullMatch("src/dir3/.*\\.java", "src/dir3/test.java")
    ensures IsAutomaticBuild(IncludePathsStrategy(Some("src/dir3/.*\\.java")), lookup, FixturePrevious(), platform).build
  {
    OneLineMatchesBuilds("src/dir3/.*\\.java", 2, lookup, platform);
  }

  /** testPathsRegexps, second assertion: "src/.*\\.java" matches "src/dir3/test.java". */
  lemma SrcJavaBuilds(lookup: FileSystemLookup, platform: Platform)
    requires ServesChangeLog(lookup, ChangeLogParsed([FixtureCommit()]))
    requires forall q :: platform.parsePath(q) == Some(q)
    requires platform.compiles("src/.*\\.java") && platform.fullMatch("src/.*\\.java", "src/dir3/test.java")
    ensures IsAutomaticBuild(IncludePathsStrategy(Some("src/.*\\.java")), lookup, FixturePrevious(), platform).build
  {
    OneLineMatchesBuilds("src/.*\\.java", 2, lookup, platform);
  }

  /**
   * testPathsRegexps and shouldBuildIfAnyPathsIsIncluded: in
   * "src/.*\\.java\nlib/.*\\.jar" the first pattern matches
   * "src/dir3/test.java".
   */
  lemma JavaOrJarBuilds(lookup: FileSystemLookup, platform: Platform)
    requires ServesChangeLog(lookup, ChangeLogParsed([FixtureCommit()]))
    requires forall q :: platform.parsePath(q) == Some(q)
    requires platform.compiles("src/.*\\.java") && platform.fullMatch("src/.*\\.java", "src/dir3/test.java")
    ensures IsAutomaticBuild(IncludePathsStrategy(Some("src/.*\\.java\nlib/.*\\.jar")), lookup, FixturePrevious(), platform).build
  {
    var a, b := "src/.*\\.java", "lib/.*\\.jar";
    assert "src/.*\\.java\nlib/.*\\.jar" == a + ['\n'] + b;
    SomePatternMatchesBuilds(a, b, a, 2, lookup, platform);
  }

  /**
   * testPathsRegexps: in "src/.*\\.txt\nsrc/.*\\.md" the first pattern
   * matches "src/dir2/test.txt" and the second "src/dir1/test.md".
   */
  lemma TextOrMarkdownBuilds(lookup: FileSystemLookup, platform: Platform)
    requires ServesChangeLog(lookup, ChangeLogParsed([FixtureCommit()]))
    requires forall q :: platform.parsePath(q) == Some(q)
    requires platform.compiles("src/.*\\.txt") && platform.fullMatch("src/.*\\.txt", "src/dir2/test.txt")
    requires platform.compiles("src/.*\\.md") && platform.fullMatch("src/.*\\.md", "src/dir1/test.md")
    ensures IsAutomaticBuild(IncludePathsStrategy(Some("src/.*\\.txt\nsrc/.*\\.md")), lookup, FixturePrevious(), platform).build
  {
    var a, b := "src/.*\\.txt", "src/.*\\.md";
    assert "src/.*\\.txt\nsrc/.*\\.md" == a + ['\n'] + b;
    SomePatternMatchesBuilds(a, b, b, 0, lookup, platform);
  }

  /**
   * shouldlNotBuildIfNoPathsIsIncluded: neither "src/.*\\.rb" nor
   * "lib/.*\\.jar" matches any of the three paths, so the build is skipped.
   */
  lemma RubyOrJarSkips(lookup: FileSystemLookup, platform: Platform)
    requires ServesChangeLog(lookup, ChangeLogParsed([FixtureCommit()]))
    requires forall q :: platform.parsePath(q) == Some(q)
    requires platform.compiles("src/.*\\.rb") && platform.compiles("lib/.*\\.jar")
    requires forall path :: path in FixtureCommit().affectedPaths ==>
      !platform.fullMatch("src/.*\\.rb", path) && !platform.fullMatch("lib/.*\\.jar", path)
    ensures !IsAutomaticBuild(IncludePathsStrategy(Some("src/.*\\.rb\nlib/.*\\.jar")), lookup, FixturePrevious(), platform).build
  {
    var a, b := "src/.*\\.rb", "lib/.*\\.jar";
    assert "src/.*\\.rb\nlib/.*\\.jar" == a + ['\n'] + b;
    NoPatternMatchesSkips(a, b, lookup, platform);
  }

  /**
   * shouldBuildIfChangelogEmpty and shouldBuildIfChangelogBroken: with
   * "src/.*\\.java\nlib/.*\\.jar", an empty change log or text the parser
   * cannot read gives "build", whatever the regex engine.
   */
  lemma JavaOrJarOnEmptyOrBrokenChangeLogBuilds(lookup: FileSystemLookup, platform: Platform)
    requires ServesChangeLog(lookup, ChangeLogParsed([])) || ServesChangeLog(lookup, ChangeLogFailed)
    ensures IsAutomaticBuild(IncludePathsStrategy(Some("src/.*\\.java\nlib/.*\\.jar")), lookup, FixturePrevious(), platform).build
  {
    var a, b := "src/.*\\.java", "lib/.*\\.jar";
    assert "src/.*\\.java\nlib/.*\\.jar" == a + ['\n'] + b;
    EmptyOrBrokenChangeLogBuilds(a, b, lookup, platform);
  }
}
