/** `expand_tilde`: replaces a leading `~` component by the user's home
    directory. The home directory is an input rather than a platform query. */
module Tilde {
  import opened Wrappers
  import opened Paths

  /** `Path::new("~")`: one relative component. */
  const TildeMarker: Path := Path(false, ["~"])

  /** `Path::new("/")`: the root and nothing else. */
  const RootDir: Path := Path(true, [])

  /** True when the path's first component is exactly `~`. */
  predicate HasTilde(p: Path) {
    !p.absolute && |p.comps| > 0 && p.comps[0] == "~"
  }

  /** The path with its leading `~` replaced by `home`; `None` only when the
      path needs the home directory and it is unknown. A home equal to the
      root takes the remainder after `~` as it is, which is a relative path. */
  function ExpandTilde(p: Path, home: Option<Path>): (r: Option<Path>)
    ensures r.None? <==> home.None? && HasTilde(p)
    ensures !HasTilde(p) ==> r == Some(p)
    ensures p == TildeMarker ==> r == home
    ensures HasTilde(p) && p != TildeMarker && home == Some(RootDir) ==>
              r == Some(Path(false, p.comps[1..]))
    ensures HasTilde(p) && p != TildeMarker && home.Some? && home.value != RootDir ==>
              r == Some(Path(home.value.absolute, home.value.comps + p.comps[1..]))
  {
    if !StartsWith(p, TildeMarker) then Some(p)
    else if p == TildeMarker then home
    else
      match home
      case None => None
      case Some(h) =>
        var rest := StripPrefix(p, TildeMarker).value;
        if h == RootDir then Some(rest) else Some(Push(h, rest))
  }

  /** A first component that only begins with `~` (as in `~user/x`) is not
      the marker: the text is left exactly as written, whatever the home. */
  lemma TildeUserIsLiteral(s: string, home: Option<Path>)
    requires |s| >= 2 && s[0] == '~' && s[1] != Separator
    ensures ExpandTilde(Parse(s), home) == Some(Parse(s))
  {
  }

  /** With the root as home, `~/rest` becomes the relative path `rest`: no
      root is put back in front of the remainder. */
  lemma RootHomeGivesRelative(p: Path)
    requires HasTilde(p) && p != TildeMarker
    ensures ExpandTilde(p, Some(RootDir)).Some?
    ensures !ExpandTilde(p, Some(RootDir)).value.absolute
    ensures Render(ExpandTilde(p, Some(RootDir)).value) == Join(p.comps[1..])
  {
  }

  /** Expansion keeps paths well formed. */
  lemma ExpandKeepsValid(p: Path, home: Option<Path>)
    requires ValidPath(p)
    requires home.Some? ==> ValidPath(home.value)
    ensures ExpandTilde(p, home).Some? ==> ValidPath(ExpandTilde(p, home).value)
  {
  }

  /** For an absolute home other than the root, expanding twice is the same
      as expanding once: every expanded path is free of the marker. */
  lemma ExpandIdempotent(p: Path, h: Path)
    requires h.absolute && h != RootDir
    ensures ExpandTilde(p, Some(h)).Some?
    ensures ExpandTilde(ExpandTilde(p, Some(h)).value, Some(h)) == ExpandTilde(p, Some(h))
  {
  }

  /** With the root as home, a second expansion can change the result:
      `~/~/x` expands to `~/x`, which expands again to `x`. */
  lemma RootHomeNotIdempotent()
    ensures var once := ExpandTilde(Path(false, ["~", "~", "x"]), Some(RootDir));
            once == Some(Path(false, ["~", "x"])) &&
            ExpandTilde(once.value, Some(RootDir)) == Some(Path(false, ["x"]))
  {
  }
}
