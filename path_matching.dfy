/**
 * isAffectedPathIncluded and the anyMatch over every affected path:
 * each configured pattern is compiled as a "regex:" path matcher and
 * tried against the path with its backslashes turned into slashes.
 */
module PathMatching {

  import opened Outcomes

  /**
   * The JDK services the matcher relies on, left uninterpreted.
   * compiles(p): getPathMatcher("regex:" + p) does not throw
   * PatternSyntaxException. parsePath(q): what Paths.get(q) yields as
   * a string, or None where it throws InvalidPathException.
   * fullMatch(p, q): the compiled pattern p matches the whole of q.
   */
  datatype Platform = Platform(
    compiles: string -> bool,
    parsePath: string -> Option<string>,
    fullMatch: (string, string) -> bool)

  /** The exceptions that trying one pattern on one path can raise. */
  datatype MatchFault = InvalidPattern(pattern: string) | InvalidPath(path: string)

  /** What trying one pattern on one path gives. */
  datatype Probe = Hit | Miss | Raised(fault: MatchFault)

  // ---------------------------------------------------------------- separators

  /** path.replace('\\', '/'). */
  function Normalise(path: string): (r: string)
    ensures |r| == |path|
    ensures forall i :: 0 <= i < |path| ==> r[i] == (if path[i] == '\\' then '/' else path[i])
    ensures '\\' !in r
  {
    seq(|path|, i requires 0 <= i < |path| => if path[i] == '\\' then '/' else path[i])
  }

  lemma NormaliseIdempotent(path: string)
    ensures Normalise(Normalise(path)) == Normalise(path)
  {
  }

  /** A path that already uses forward slashes only is left as it is. */
  lemma NormaliseKeepsSlashedPath(path: string)
    requires '\\' !in path
    ensures Normalise(path) == path
  {
  }

  // ---------------------------------------------------------------- one pattern, one path

  /**
   * The lambda of isAffectedPathIncluded for one pattern: compile it,
   * then parse the normalised path and match it.
   */
  function ProbePattern(platform: Platform, pattern: string, path: string): Probe
  {
    if !platform.compiles(pattern) then Raised(InvalidPattern(pattern))
    else match platform.parsePath(Normalise(path))
      case None => Raised(InvalidPath(path))
      case Some(p) => if platform.fullMatch(pattern, p) then Hit else Miss
  }

  /**
   * Trying this pattern on this path ends the search: it matches, or it
   * throws and the exception reaches the caller's catch block.
   */
  predicate Settles(platform: Platform, pattern: string, path: string)
  {
    ProbePattern(platform, pattern, path) != Miss
  }

  /** A path written with backslashes is matched exactly as its forward-slash form. */
  lemma SeparatorStyleIrrelevant(platform: Platform, pattern: string, path: string)
    ensures ProbePattern(platform, pattern, path).Raised? <==> ProbePattern(platform, pattern, Normalise(path)).Raised?
    ensures ProbePattern(platform, pattern, path) == Hit <==> ProbePattern(platform, pattern, Normalise(path)) == Hit
  {
    NormaliseIdempotent(path);
  }

  // ---------------------------------------------------------------- anyMatch

  /**
   * isAffectedPathIncluded(path, patterns), with the patterns tried in
   * list order: Ok(true) on the first match, Err on the first
   * exception, Ok(false) once every pattern missed.
   */
  function IsAffectedPathIncluded(platform: Platform, path: string, patterns: seq<string>): (r: Result<bool, MatchFault>)
    ensures r == Ok(false) <==> forall pat :: pat in patterns ==> ProbePattern(platform, pat, path) == Miss
    ensures r == Ok(true) ==> exists pat :: pat in patterns && ProbePattern(platform, pat, path) == Hit
    ensures r.Err? ==> exists pat :: pat in patterns && ProbePattern(platform, pat, path) == Raised(r.error)
  {
    if patterns == [] then Ok(false)
    else
      assert forall pat :: pat in patterns <==> pat == patterns[0] || pat in patterns[1..];
      match ProbePattern(platform, patterns[0], path)
      case Hit => Ok(true)
      case Raised(f) => Err(f)
      case Miss => IsAffectedPathIncluded(platform, path, patterns[1..])
  }

  /**
   * The anyMatch over the flattened affected paths, in list order:
   * Ok(true) as soon as some path is included, Err as soon as one
   * path's evaluation throws, Ok(false) once every path was excluded.
   */
  function AnyPathIncluded(platform: Platform, paths: seq<string>, patterns: seq<string>): (r: Result<bool, MatchFault>)
    ensures r == Ok(false) <==>
      forall path, pat :: path in paths && pat in patterns ==> ProbePattern(platform, pat, path) == Miss
    ensures r == Ok(true) ==>
      exists path, pat :: path in paths && pat in patterns && ProbePattern(platform, pat, path) == Hit
    ensures r.Err? ==>
      exists path, pat :: path in paths && pat in patterns && ProbePattern(platform, pat, path) == Raised(r.error)
  {
    if paths == [] then Ok(false)
    else
      assert forall path :: path in paths <==> path == paths[0] || path in paths[1..];
      match IsAffectedPathIncluded(platform, paths[0], patterns)
      case Ok(b) => if b then Ok(true) else AnyPathIncluded(platform, paths[1..], patterns)
      case Err(f) => Err(f)
  }

  /** The catch block of isAutomaticBuild turns every exception into true. */
  function OrTrue(r: Result<bool, MatchFault>): bool
  {
    match r
    case Ok(b) => b
    case Err(_) => true
  }

  /**
   * Once exceptions count as true, the outcome is: some pattern
   * settles some path.
   */
  lemma AnyPathIncludedOrTrue(platform: Platform, paths: seq<string>, patterns: seq<string>)
    ensures OrTrue(AnyPathIncluded(platform, paths, patterns)) <==>
      exists path, pat :: path in paths && pat in patterns && Settles(platform, pat, path)
  {
  }

  /**
   * The order in which the parallel streams visit paths and patterns
   * does not change the outcome once exceptions count as true: only
   * which paths and which patterns occur matters.
   */
  lemma EvaluationOrderIrrelevant(platform: Platform, paths1: seq<string>, patterns1: seq<string>,
                                  paths2: seq<string>, patterns2: seq<string>)
    requires forall path :: path in paths1 <==> path in paths2
    requires forall pat :: pat in patterns1 <==> pat in patterns2
    ensures OrTrue(AnyPathIncluded(platform, paths1, patterns1)) == OrTrue(AnyPathIncluded(platform, paths2, patterns2))
  {
    AnyPathIncludedOrTrue(platform, paths1, patterns1);
    AnyPathIncludedOrTrue(platform, paths2, patterns2);
  }
}
