/** The path handling of `getIssuesofRepository`: `path.split('/')`,
    destructured into an organization and a repository, and the query
    variables built from them. */
module Paths {
  import opened Wrappers

  /** JavaScript's `s.split(sep)` for a one-character separator: the
      segments between separators, empty ones included. */
  function Split(s: string, sep: char): (parts: seq<string>)
    ensures |parts| >= 1
    ensures |parts| == 1 ==> parts[0] == s
    decreases |s|
  {
    if s == [] then [[]]
    else
      var rest := Split(s[1..], sep);
      if s[0] == sep then [[]] + rest
      else [[s[0]] + rest[0]] + rest[1..]
  }

  /** `parts.join(sep)`. */
  function Join(parts: seq<string>, sep: char): (s: string)
    requires |parts| >= 1
    decreases |parts|
  {
    if |parts| == 1 then parts[0] else parts[0] + [sep] + Join(parts[1..], sep)
  }

  /** Splitting loses nothing: joining the segments again gives the input. */
  lemma {:induction false} JoinSplit(s: string, sep: char)
    ensures Join(Split(s, sep), sep) == s
    decreases |s|
  {
    if s != [] {
      var rest := Split(s[1..], sep);
      JoinSplit(s[1..], sep);
      if s[0] == sep {
        assert Split(s, sep) == [[]] + rest;
        assert ([[]] + rest)[1..] == rest;
      } else {
        var parts := Split(s, sep);
        assert parts == [[s[0]] + rest[0]] + rest[1..];
        if |rest| == 1 {
          assert s == [s[0]] + s[1..];
        } else {
          assert parts[1..] == rest[1..];
          assert Join(rest, sep) == rest[0] + [sep] + Join(rest[1..], sep);
          assert s == [s[0]] + s[1..];
        }
      }
    }
  }

  /** No segment contains the separator. */
  lemma {:induction false} SplitSegmentsHaveNoSeparator(s: string, sep: char)
    ensures forall i :: 0 <= i < |Split(s, sep)| ==> sep !in Split(s, sep)[i]
    decreases |s|
  {
    if s != [] {
      SplitSegmentsHaveNoSeparator(s[1..], sep);
      var rest := Split(s[1..], sep);
      if s[0] != sep {
        assert sep !in rest[0];
        assert sep !in [s[0]] + rest[0];
      }
    }
  }

  /** A string without the separator is its own only segment. */
  lemma {:induction false} SplitWithoutSeparator(s: string, sep: char)
    requires sep !in s
    ensures Split(s, sep) == [s]
    decreases |s|
  {
    if s != [] {
      assert sep !in s[1..];
      SplitWithoutSeparator(s[1..], sep);
      assert [s[0]] + s[1..] == s;
    }
  }

  /** The first separator ends the first segment; the rest is split on its own. */
  lemma {:induction false} SplitAtFirstSeparator(a: string, b: string, sep: char)
    requires sep !in a
    ensures Split(a + [sep] + b, sep) == [a] + Split(b, sep)
    decreases |a|
  {
    var s := a + [sep] + b;
    if a == [] {
      assert s[1..] == b;
    } else {
      assert s[1..] == a[1..] + [sep] + b;
      assert sep !in a[1..];
      SplitAtFirstSeparator(a[1..], b, sep);
      assert [a[0]] + a[1..] == a;
    }
  }

  /** `const [organization, repository] = path.split('/')`: the repository
      is `undefined` when the path has no '/'. Segments after the second
      are dropped. */
  datatype PathParts = PathParts(organization: string, repository: Option<string>)

  /** The organization is everything before the first '/', and the
      repository is absent exactly when the path has no '/'. */
  function SplitPath(path: string): (parts: PathParts)
    ensures parts.organization <= path
    ensures '/' !in parts.organization
    ensures parts.repository.None? <==> '/' !in path
    ensures parts.repository.None? ==> parts.organization == path
    ensures parts.repository.Some? ==>
              |parts.organization| < |path| && path[|parts.organization|] == '/'
  {
    var segments := Split(path, '/');
    SplitSegmentsHaveNoSeparator(path, '/');
    JoinSplit(path, '/');
    assert |segments| > 1 ==> path == segments[0] + ['/'] + Join(segments[1..], '/');
    assert |segments| > 1 ==> path[|segments[0]|] == '/';
    PathParts(segments[0], if |segments| > 1 then Some(segments[1]) else None)
  }

  /** "o/r" with no '/' inside `o` or `r` yields organization `o` and repository `r`. */
  lemma SplitPathOrganizationRepository(o: string, r: string)
    requires '/' !in o && '/' !in r
    ensures SplitPath(o + "/" + r) == PathParts(o, Some(r))
  {
    SplitAtFirstSeparator(o, r, '/');
    SplitWithoutSeparator(r, '/');
  }

  /** A path with no '/' is the organization, and the repository is absent. */
  lemma SplitPathWithoutSlash(path: string)
    requires '/' !in path
    ensures SplitPath(path) == PathParts(path, None)
  {
    SplitWithoutSeparator(path, '/');
  }

  /** Anything after a second '/' is ignored. */
  lemma SplitPathDropsExtraSegments(o: string, r: string, rest: string)
    requires '/' !in o && '/' !in r
    ensures SplitPath(o + "/" + r + "/" + rest) == PathParts(o, Some(r))
  {
    SplitAtFirstSeparator(o, r + "/" + rest, '/');
    SplitAtFirstSeparator(r, rest, '/');
    assert o + "/" + r + "/" + rest == o + ['/'] + (r + "/" + rest);
    assert r + "/" + rest == r + ['/'] + rest;
  }

  /** `variables: { organization, repository, cursor }` of the issues query. */
  datatype IssuesVariables = IssuesVariables(organization: string, repository: Option<string>, cursor: Option<string>)

  /** The variables `getIssuesofRepository(path, cursor)` posts: the two
      halves of the path and the cursor, passed on verbatim. */
  function IssuesQueryVariables(path: string, cursor: Option<string>): (v: IssuesVariables)
    ensures PathParts(v.organization, v.repository) == SplitPath(path)
    ensures v.cursor == cursor
  {
    var parts := SplitPath(path);
    IssuesVariables(parts.organization, parts.repository, cursor)
  }
}
