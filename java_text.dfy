/**
 * The java.lang.String operations that the strategy applies to its
 * configuration, its revision ids and its paths. A Java string is a
 * sequence of chars here.
 */
module JavaText {

  import opened Outcomes

  // ---------------------------------------------------------------- trim

  /** String.trim strips every character whose code is at most U+0020. */
  predicate IsTrimmable(c: char) { c <= ' ' }

  /** A string that String.trim turns into the empty string. */
  predicate IsBlank(s: string) { forall i :: 0 <= i < |s| ==> IsTrimmable(s[i]) }

  /** A string that neither starts nor ends with a trimmable character. */
  predicate IsTrimmed(s: string) { s != [] ==> !IsTrimmable(s[0]) && !IsTrimmable(s[|s| - 1]) }

  function TrimStart(s: string): (r: string)
    ensures |r| <= |s| && r == s[|s| - |r|..]
    ensures forall i :: 0 <= i < |s| - |r| ==> IsTrimmable(s[i])
    ensures r != [] ==> !IsTrimmable(r[0])
  {
    if s != [] && IsTrimmable(s[0]) then TrimStart(s[1..]) else s
  }

  function TrimEnd(s: string): (r: string)
    ensures |r| <= |s| && r == s[..|r|]
    ensures forall i :: |r| <= i < |s| ==> IsTrimmable(s[i])
    ensures r != [] ==> !IsTrimmable(r[|r| - 1])
  {
    if s != [] && IsTrimmable(s[|s| - 1]) then TrimEnd(s[..|s| - 1]) else s
  }

  /** Where String.trim's result starts: the number of leading trimmable characters. */
  function TrimOffset(s: string): (k: nat)
    ensures k <= |s|
    ensures forall i :: 0 <= i < k ==> IsTrimmable(s[i])
    ensures k < |s| ==> !IsTrimmable(s[k])
  {
    |s| - |TrimStart(s)|
  }

  /**
   * String.trim: the infix of s left once the trimmable characters at
   * both ends are removed; it is empty exactly when s is blank.
   */
  function Trim(s: string): (r: string)
    ensures TrimOffset(s) + |r| <= |s|
    ensures r == s[TrimOffset(s)..TrimOffset(s) + |r|]
    ensures forall i :: TrimOffset(s) + |r| <= i < |s| ==> IsTrimmable(s[i])
    ensures IsTrimmed(r)
    ensures r == [] <==> IsBlank(s)
  {
    var t := TrimStart(s);
    var r := TrimEnd(t);
    assert t == s[TrimOffset(s)..];
    r
  }

  // ---------------------------------------------------------------- toLowerCase

  predicate IsAsciiUpper(c: char) { 'A' <= c <= 'Z' }

  predicate HasAsciiUpper(s: string) { exists i :: 0 <= i < |s| && IsAsciiUpper(s[i]) }

  /** Character.toLowerCase restricted to ASCII: 'A'..'Z' become 'a'..'z'. */
  function ToLowerChar(c: char): (d: char)
    ensures !IsAsciiUpper(d)
    ensures !IsAsciiUpper(c) ==> d == c
    ensures IsAsciiUpper(c) ==> 'a' <= d <= 'z' && d as int - c as int == 'a' as int - 'A' as int
  {
    if IsAsciiUpper(c) then (c as int - 'A' as int + 'a' as int) as char else c
  }

  /** String.toLowerCase on ASCII text. */
  function ToLowerAscii(s: string): (r: string)
    ensures |r| == |s|
    ensures forall i :: 0 <= i < |s| ==> r[i] == ToLowerChar(s[i])
    ensures !HasAsciiUpper(r)
    ensures !HasAsciiUpper(s) ==> r == s
  {
    seq(|s|, i requires 0 <= i < |s| => ToLowerChar(s[i]))
  }

  lemma ToLowerKeepsTrimmed(s: string)
    requires IsTrimmed(s)
    ensures IsTrimmed(ToLowerAscii(s))
  {
  }

  /** Text that is already trimmed and has no upper-case letter is left alone by trim and toLowerCase. */
  lemma TrimmedLowerUnchanged(s: string)
    requires IsTrimmed(s) && !HasAsciiUpper(s)
    ensures ToLowerAscii(Trim(s)) == s
  {
    assert TrimStart(s) == s;
    assert TrimEnd(s) == s;
  }

  // ---------------------------------------------------------------- split

  /** The pieces joined back together, one separator between neighbours. */
  function Join(parts: seq<string>, sep: char): string
  {
    if |parts| == 0 then []
    else if |parts| == 1 then parts[0]
    else parts[0] + [sep] + Join(parts[1..], sep)
  }

  /**
   * Every run of s between separators, empty runs included: the
   * pieces String.split yields before trailing empty ones are dropped.
   */
  function Pieces(s: string, sep: char): (r: seq<string>)
    ensures |r| >= 1
    ensures forall k :: 0 <= k < |r| ==> sep !in r[k]
    ensures Join(r, sep) == s
    ensures sep !in s ==> r == [s]
  {
    if s == [] then [[]]
    else
      var rest := Pieces(s[1..], sep);
      if s[0] == sep then
        assert ([[]] + rest)[1..] == rest;
        [[]] + rest
      else
        var r := [[s[0]] + rest[0]] + rest[1..];
        assert r[1..] == rest[1..];
        assert |rest| > 1 ==> Join(rest, sep) == rest[0] + [sep] + Join(rest[1..], sep);
        assert s == [s[0]] + s[1..];
        r
  }

  /** The longest prefix of parts that does not end with an empty string. */
  function DropTrailingEmpty(parts: seq<string>): (r: seq<string>)
    ensures |r| <= |parts| && r == parts[..|r|]
    ensures forall k :: |r| <= k < |parts| ==> parts[k] == []
    ensures r != [] ==> r[|r| - 1] != []
  {
    if parts != [] && parts[|parts| - 1] == [] then DropTrailingEmpty(parts[..|parts| - 1]) else parts
  }

  /** Joining one more piece appends a separator and that piece. */
  lemma {:induction false} JoinSnoc(parts: seq<string>, x: string, sep: char)
    requires parts != []
    ensures Join(parts + [x], sep) == Join(parts, sep) + [sep] + x
  {
    if |parts| == 1 {
      assert (parts + [x])[1..] == [x];
    } else {
      assert (parts + [x])[1..] == parts[1..] + [x];
      JoinSnoc(parts[1..], x, sep);
    }
  }

  /** Dropping the trailing empty pieces removes only separators from the end of the joined text. */
  lemma {:induction false} JoinDropTrailingEmpty(parts: seq<string>, sep: char)
    ensures var j, d := Join(parts, sep), Join(DropTrailingEmpty(parts), sep);
      d <= j && forall i :: |d| <= i < |j| ==> j[i] == sep
    decreases |parts|
  {
    if parts != [] && parts[|parts| - 1] == [] {
      var init := parts[..|parts| - 1];
      assert parts == init + [[]];
      JoinDropTrailingEmpty(init, sep);
      if init != [] {
        JoinSnoc(init, [], sep);
      }
    }
  }

  /**
   * String.split(String.valueOf(sep)) with the default limit of zero:
   * a string without the separator is its own single piece; otherwise
   * the pieces between separators, trailing empty pieces dropped.
   */
  function Split(s: string, sep: char): (r: seq<string>)
    ensures sep !in s ==> r == [s]
    ensures sep in s ==> r == [] || r[|r| - 1] != []
    ensures forall k :: 0 <= k < |r| ==> sep !in r[k]
    ensures Join(r, sep) <= s
    ensures forall i :: |Join(r, sep)| <= i < |s| ==> s[i] == sep
  {
    if sep !in s then [s]
    else
      var pieces := Pieces(s, sep);
      JoinDropTrailingEmpty(pieces, sep);
      DropTrailingEmpty(pieces)
  }

  /** Pieces that are all empty join to separators only. */
  lemma {:induction false} JoinOfEmpties(parts: seq<string>, sep: char)
    requires forall k :: 0 <= k < |parts| ==> parts[k] == []
    ensures forall i :: 0 <= i < |Join(parts, sep)| ==> Join(parts, sep)[i] == sep
  {
    if |parts| > 1 {
      JoinOfEmpties(parts[1..], sep);
    }
  }

  /** A string holding some character other than the separator splits into at least one piece. */
  lemma SplitNonEmpty(s: string, sep: char, i: nat)
    requires i < |s| && s[i] != sep
    ensures Split(s, sep) != []
  {
    if sep in s {
      var pieces := Pieces(s, sep);
      if DropTrailingEmpty(pieces) == [] {
        JoinOfEmpties(pieces, sep);
      }
    }
  }

  /** A separator after a separator-free run starts a new piece. */
  lemma {:induction false} PiecesAfterSeparator(a: string, b: string, sep: char)
    requires sep !in a
    ensures Pieces(a + [sep] + b, sep) == [a] + Pieces(b, sep)
  {
    if a == [] {
      assert (a + [sep] + b)[1..] == b;
    } else {
      assert (a + [sep] + b)[1..] == a[1..] + [sep] + b;
      PiecesAfterSeparator(a[1..], b, sep);
      assert [a[0]] + a[1..] == a;
    }
  }

  /** Two lines joined by one separator split back into those two lines. */
  lemma SplitTwoLines(a: string, b: string, sep: char)
    requires sep !in a && sep !in b && b != []
    ensures Split(a + [sep] + b, sep) == [a, b]
  {
    PiecesAfterSeparator(a, b, sep);
    assert (a + [sep] + b)[|a|] == sep;
  }

  // ---------------------------------------------------------------- substring

  /**
   * s.substring(0, n): the first n characters, or None where Java
   * throws StringIndexOutOfBoundsException because s is shorter.
   */
  function Prefix(s: string, n: nat): (r: Option<string>)
    ensures r.Some? <==> n <= |s|
    ensures r.Some? ==> |r.value| == n && r.value <= s
  {
    if n <= |s| then Some(s[..n]) else None
  }
}
