/** File-system paths as Rust's `std::path` sees them: an optional root
    followed by a list of normal components. Equality, `starts_with`,
    `strip_prefix` and `push` all work on components, never on characters. */
module Paths {
  import opened Wrappers

  datatype Path = Path(absolute: bool, comps: seq<string>)

  const Separator: char := '/'

  /** A component is a non-empty run of characters without a separator. */
  predicate ValidComponent(c: string) {
    |c| > 0 && Separator !in c
  }

  predicate ValidPath(p: Path) {
    forall i :: 0 <= i < |p.comps| ==> ValidComponent(p.comps[i])
  }

  /** `Path::starts_with`: the root must agree and `prefix`'s components
      must be a leading run of `p`'s components. */
  predicate StartsWith(p: Path, prefix: Path)
    ensures StartsWith(p, prefix) <==>
              && p.absolute == prefix.absolute
              && |prefix.comps| <= |p.comps|
              && forall i :: 0 <= i < |prefix.comps| ==> p.comps[i] == prefix.comps[i]
  {
    p.absolute == prefix.absolute && prefix.comps <= p.comps
  }

  /** `PathBuf::push`: a relative argument is appended component-wise,
      an absolute one replaces the buffer. */
  function Push(base: Path, rel: Path): (r: Path)
    ensures rel.absolute ==> r == rel
    ensures !rel.absolute ==> r.absolute == base.absolute
    ensures !rel.absolute ==> |r.comps| == |base.comps| + |rel.comps|
    ensures !rel.absolute ==> r.comps[..|base.comps|] == base.comps && r.comps[|base.comps|..] == rel.comps
  {
    if rel.absolute then rel else Path(base.absolute, base.comps + rel.comps)
  }

  /** `Path::strip_prefix`: the remaining components as a relative path,
      or `None` when `prefix` is not a prefix of `p`. */
  function StripPrefix(p: Path, prefix: Path): (r: Option<Path>)
    ensures r.Some? <==> StartsWith(p, prefix)
    ensures r.Some? ==> !r.value.absolute && Push(prefix, r.value) == p
  {
    if StartsWith(p, prefix) then Some(Path(false, p.comps[|prefix.comps|..])) else None
  }

  /** Stripping what was just pushed gives the pushed relative path back. */
  lemma StripPrefixOfPush(base: Path, rel: Path)
    requires !rel.absolute
    ensures StartsWith(Push(base, rel), base)
    ensures StripPrefix(Push(base, rel), base) == Some(rel)
  {
  }

  /** Number of leading characters of `s` before the first separator. */
  function SegmentEnd(s: string): (n: nat)
    ensures n <= |s|
    ensures forall i :: 0 <= i < n ==> s[i] != Separator
    ensures n < |s| ==> s[n] == Separator
  {
    if |s| == 0 || s[0] == Separator then 0 else 1 + SegmentEnd(s[1..])
  }

  /** Splits `s` at separators; empty pieces (repeated, leading or trailing
      separators) are dropped, as Rust's component iterator does. */
  function Components(s: string): (cs: seq<string>)
    ensures forall i :: 0 <= i < |cs| ==> ValidComponent(cs[i])
    ensures |s| > 0 && s[0] != Separator ==> |cs| > 0
    decreases |s|
  {
    if |s| == 0 then []
    else if s[0] == Separator then Components(s[1..])
    else
      var n := SegmentEnd(s);
      assert Separator !in s[..n] by {
        forall i | 0 <= i < n ensures s[..n][i] != Separator { }
      }
      [s[..n]] + Components(s[n..])
  }

  /** The components separated by single separators. */
  function Join(cs: seq<string>): string
  {
    if |cs| == 0 then ""
    else if |cs| == 1 then cs[0]
    else cs[0] + [Separator] + Join(cs[1..])
  }

  /** Reads a path string: a leading separator makes it absolute. */
  function Parse(s: string): (p: Path)
    ensures ValidPath(p)
    ensures p.absolute <==> |s| > 0 && s[0] == Separator
  {
    Path(|s| > 0 && s[0] == Separator, Components(s))
  }

  /** Writes a path as a string: the root, then the joined components. */
  function Render(p: Path): (s: string)
    ensures p.absolute ==> |s| > 0 && s[0] == Separator
    ensures !p.absolute && ValidPath(p) ==> |s| == 0 || s[0] != Separator
    ensures ValidPath(p) ==> (|s| == 0 <==> !p.absolute && |p.comps| == 0)
  {
    var text := (if p.absolute then [Separator] else "") + Join(p.comps);
    if |p.comps| == 0 then text
    else
      JoinStartsWithFirst(p.comps);
      text
  }

  /** A string in the form `Render` produces: no doubled separator and no
      trailing separator except the root itself. */
  predicate Canonical(s: string) {
    if |s| > 0 && s[0] == Separator then CanonicalRelative(s[1..]) else CanonicalRelative(s)
  }

  predicate CanonicalRelative(s: string) {
    && (|s| > 0 ==> s[0] != Separator && s[|s| - 1] != Separator)
    && forall i :: 0 < i < |s| && s[i] == Separator ==> s[i - 1] != Separator
  }

  /** A valid component ends where the following text starts with a separator. */
  lemma SegmentEndOfValid(c: string, rest: string)
    requires ValidComponent(c)
    requires |rest| == 0 || rest[0] == Separator
    ensures SegmentEnd(c + rest) == |c|
    decreases |c|
  {
    if |c| > 1 {
      assert (c + rest)[1..] == c[1..] + rest;
      SegmentEndOfValid(c[1..], rest);
    } else {
      assert (c + rest)[1..] == rest;
    }
  }

  /** Splitting a joined list of valid components gives the list back. */
  lemma {:induction false} ComponentsOfJoin(cs: seq<string>)
    requires forall i :: 0 <= i < |cs| ==> ValidComponent(cs[i])
    ensures Components(Join(cs)) == cs
    decreases |cs|
  {
    if |cs| == 0 {
    } else if |cs| == 1 {
      var c := cs[0];
      SegmentEndOfValid(c, "");
      assert c + "" == c;
      assert c[..|c|] == c && c[|c|..] == "";
    } else {
      var c := cs[0];
      var tail := [Separator] + Join(cs[1..]);
      var s := c + tail;
      assert Join(cs) == s;
      SegmentEndOfValid(c, tail);
      assert s[..|c|] == c && s[|c|..] == tail;
      assert tail[1..] == Join(cs[1..]);
      ComponentsOfJoin(cs[1..]);
      assert Components(s) == [c] + Components(tail);
      assert Components(tail) == Components(Join(cs[1..]));
    }
  }

  /** Parsing a rendered path gives the path back. */
  lemma ParseOfRender(p: Path)
    requires ValidPath(p)
    ensures Parse(Render(p)) == p
  {
    var j := Join(p.comps);
    ComponentsOfJoin(p.comps);
    if p.absolute {
      var s := [Separator] + j;
      assert s[1..] == j;
      assert Components(s) == Components(j);
    } else {
      assert Render(p) == j;
      if |p.comps| > 0 {
        JoinStartsWithFirst(p.comps);
      }
    }
  }

  /** A joined list starts with the first character of its first component. */
  lemma JoinStartsWithFirst(cs: seq<string>)
    requires |cs| > 0
    ensures |cs[0]| > 0 ==> |Join(cs)| > 0 && Join(cs)[0] == cs[0][0]
  {
  }

  /** A joined list ends with its last component. */
  lemma {:induction false} JoinEndsWithLast(cs: seq<string>)
    requires |cs| > 0
    ensures var j := Join(cs); var last := cs[|cs| - 1];
            |j| >= |last| && j[|j| - |last|..] == last
  {
    if |cs| > 1 {
      JoinEndsWithLast(cs[1..]);
      var rest := Join(cs[1..]);
      var j := cs[0] + [Separator] + rest;
      assert Join(cs) == j;
      assert j[|j| - |cs[|cs| - 1]|..] == rest[|rest| - |cs[|cs| - 1]|..];
    }
  }

  /** What follows the first separator of a canonical string is canonical
      and starts with a component. */
  lemma CanonicalAfterSegment(s: string, n: nat)
    requires CanonicalRelative(s)
    requires 0 < n < |s| && s[n] == Separator
    ensures |s[n + 1..]| > 0 && s[n + 1..][0] != Separator
    ensures CanonicalRelative(s[n + 1..])
  {
  }

  /** A string that does not start with a separator splits into its first
      segment followed by the components after the separator. */
  lemma ComponentsAtSeparator(s: string)
    requires |s| > 0 && s[0] != Separator && SegmentEnd(s) < |s|
    ensures Components(s) == [s[..SegmentEnd(s)]] + Components(s[SegmentEnd(s) + 1..])
  {
  }

  /** Joining a component in front of a non-empty list adds one separator. */
  lemma JoinCons(c: string, cs: seq<string>)
    requires |cs| > 0
    ensures Join([c] + cs) == c + [Separator] + Join(cs)
  {
  }

  /** A string without separators is one component. */
  lemma JoinOfComponentsSingle(s: string)
    requires |s| > 0 && s[0] != Separator && SegmentEnd(s) == |s|
    ensures Join(Components(s)) == s
  {
  }

  /** Joining the components of a canonical relative string rebuilds it. */
  lemma {:induction false} JoinOfComponentsRelative(s: string)
    requires CanonicalRelative(s)
    ensures Join(Components(s)) == s
    decreases |s|
  {
    if |s| > 0 {
      var n := SegmentEnd(s);
      if n == |s| {
        JoinOfComponentsSingle(s);
      } else {
        var rest := s[n + 1..];
        CanonicalAfterSegment(s, n);
        JoinOfComponentsRelative(rest);
        ComponentsAtSeparator(s);
        JoinCons(s[..n], Components(rest));
        assert s == s[..n] + [Separator] + rest;
      }
    }
  }

  /** Rendering a parsed canonical string gives the string back, so the
      model's path string is the user's own text whenever it is canonical. */
  lemma RenderOfParse(s: string)
    requires Canonical(s)
    ensures Render(Parse(s)) == s
  {
    if |s| > 0 && s[0] == Separator {
      JoinOfComponentsRelative(s[1..]);
      assert Components(s) == Components(s[1..]);
      assert s == [Separator] + s[1..];
    } else {
      JoinOfComponentsRelative(s);
    }
  }
}
