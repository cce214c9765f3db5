/** Per-setting precedence: command line, then the named profile, then the
    `default` profile, then a built-in constant. Each setting is resolved on
    its own. */
module Resolution {
  import opened Wrappers
  import opened Profiles

  /** `i` is the first source that holds a value. */
  ghost predicate FirstPresentAt<T>(sources: seq<Option<T>>, i: int) {
    0 <= i < |sources| && sources[i].Some? && forall j :: 0 <= j < i ==> sources[j].None?
  }

  /** Reference definition of a fallback chain of any length: the value of
      the first present source, or `fallback` when none is present. */
  function FirstPresent<T>(sources: seq<Option<T>>, fallback: T): (r: T)
    ensures (forall i :: 0 <= i < |sources| ==> sources[i].None?) ==> r == fallback
    ensures forall i :: FirstPresentAt(sources, i) ==> r == sources[i].value
  {
    if |sources| == 0 then fallback
    else if sources[0].Some? then sources[0].value
    else
      var r := FirstPresent(sources[1..], fallback);
      assert forall i :: FirstPresentAt(sources, i) ==> FirstPresentAt(sources[1..], i - 1);
      r
  }

  /** The chain as the program writes it, `a.or(b).or(c).unwrap_or(d)`, is
      the first present of the three sources. */
  function Chain<T>(cli: Option<T>, custom: Option<T>, dflt: Option<T>, fallback: T): (r: T)
    ensures r == FirstPresent([cli, custom, dflt], fallback)
  {
    var sources := [cli, custom, dflt];
    assert cli.Some? ==> FirstPresentAt(sources, 0);
    assert cli.None? && custom.Some? ==> FirstPresentAt(sources, 1);
    assert cli.None? && custom.None? && dflt.Some? ==> FirstPresentAt(sources, 2);
    cli.Or(custom).Or(dflt).UnwrapOr(fallback)
  }

  const FallbackPath: string := "~"
  const FallbackDepth: string := "4"
  const FallbackType: string := "d"
  const FallbackHidden: bool := false

  /** The four settings after resolution; `path` is not yet expanded. */
  datatype Settings = Settings(path: string, depth: string, fdType: string, hidden: bool)

  /** Resolves every setting through its own chain. */
  function Resolve(cli: Profile, custom: Option<Profile>, dflt: Option<Profile>): (s: Settings)
    ensures s.path == FirstPresent([cli.path, PathOf(custom), PathOf(dflt)], FallbackPath)
    ensures s.depth == FirstPresent([cli.depth, DepthOf(custom), DepthOf(dflt)], FallbackDepth)
    ensures s.fdType == FirstPresent([cli.fdType, TypeOf(custom), TypeOf(dflt)], FallbackType)
    ensures s.hidden == FirstPresent([cli.hidden, HiddenOf(custom), HiddenOf(dflt)], FallbackHidden)
  {
    Settings(
      Chain(cli.path, PathOf(custom), PathOf(dflt), FallbackPath),
      Chain(cli.depth, DepthOf(custom), DepthOf(dflt), FallbackDepth),
      Chain(cli.fdType, TypeOf(custom), TypeOf(dflt), FallbackType),
      Chain(cli.hidden, HiddenOf(custom), HiddenOf(dflt), FallbackHidden))
  }

  /** Every resolved setting is one of its three sources' values or its
      constant, chosen by first presence. */
  lemma ChainCases<T>(cli: Option<T>, custom: Option<T>, dflt: Option<T>, fallback: T)
    ensures cli.Some? ==> Chain(cli, custom, dflt, fallback) == cli.value
    ensures cli.None? && custom.Some? ==> Chain(cli, custom, dflt, fallback) == custom.value
    ensures cli.None? && custom.None? && dflt.Some? ==> Chain(cli, custom, dflt, fallback) == dflt.value
    ensures cli.None? && custom.None? && dflt.None? ==> Chain(cli, custom, dflt, fallback) == fallback
  {
  }

  /** A value given on the command line always wins. */
  lemma CliWins(cli: Profile, custom: Option<Profile>, dflt: Option<Profile>)
    ensures var s := Resolve(cli, custom, dflt);
            && (cli.path.Some? ==> s.path == cli.path.value)
            && (cli.depth.Some? ==> s.depth == cli.depth.value)
            && (cli.fdType.Some? ==> s.fdType == cli.fdType.value)
            && (cli.hidden.Some? ==> s.hidden == cli.hidden.value)
  {
  }

  /** Without a command-line value, a field of the named profile beats the
      same field of the `default` profile. */
  lemma CustomBeatsDefault(cli: Profile, custom: Profile, dflt: Option<Profile>)
    ensures var s := Resolve(cli, Some(custom), dflt);
            && (cli.path.None? && custom.path.Some? ==> s.path == custom.path.value)
            && (cli.depth.None? && custom.depth.Some? ==> s.depth == custom.depth.value)
            && (cli.fdType.None? && custom.fdType.Some? ==> s.fdType == custom.fdType.value)
            && (cli.hidden.None? && custom.hidden.Some? ==> s.hidden == custom.hidden.value)
  {
  }

  /** With neither a command-line value nor a named-profile field, the
      `default` profile's field is used. */
  lemma DefaultFillsGaps(cli: Profile, custom: Option<Profile>, dflt: Profile)
    ensures var s := Resolve(cli, custom, Some(dflt));
            && (cli.path.None? && PathOf(custom).None? && dflt.path.Some? ==> s.path == dflt.path.value)
            && (cli.depth.None? && DepthOf(custom).None? && dflt.depth.Some? ==> s.depth == dflt.depth.value)
            && (cli.fdType.None? && TypeOf(custom).None? && dflt.fdType.Some? ==> s.fdType == dflt.fdType.value)
            && (cli.hidden.None? && HiddenOf(custom).None? && dflt.hidden.Some? ==> s.hidden == dflt.hidden.value)
  {
  }

  /** When no source sets a field, it takes its built-in constant. */
  lemma FallbackConstants(cli: Profile, custom: Option<Profile>, dflt: Option<Profile>)
    ensures var s := Resolve(cli, custom, dflt);
            && (cli.path.None? && PathOf(custom).None? && PathOf(dflt).None? ==> s.path == "~")
            && (cli.depth.None? && DepthOf(custom).None? && DepthOf(dflt).None? ==> s.depth == "4")
            && (cli.fdType.None? && TypeOf(custom).None? && TypeOf(dflt).None? ==> s.fdType == "d")
            && (cli.hidden.None? && HiddenOf(custom).None? && HiddenOf(dflt).None? ==> !s.hidden)
  {
  }

  /** Resolution is per field: a named profile that sets only the path
      changes only the resolved path, and only when the command line leaves
      it open; the other three fields resolve as if no profile were named. */
  lemma PathOnlyProfile(cli: Profile, path: string, dflt: Option<Profile>)
    ensures Resolve(cli, Some(Profile(Some(path), None, None, None)), dflt)
         == Resolve(cli, None, dflt).(path := if cli.path.Some? then cli.path.value else path)
  {
  }

  /** A field depends only on that field of each source: two triples of
      sources that agree on a field resolve it alike, whatever their other
      fields hold. */
  lemma FieldsIndependent(a1: Profile, c1: Option<Profile>, d1: Option<Profile>,
                          a2: Profile, c2: Option<Profile>, d2: Option<Profile>)
    ensures a1.path == a2.path && PathOf(c1) == PathOf(c2) && PathOf(d1) == PathOf(d2) ==>
              Resolve(a1, c1, d1).path == Resolve(a2, c2, d2).path
    ensures a1.depth == a2.depth && DepthOf(c1) == DepthOf(c2) && DepthOf(d1) == DepthOf(d2) ==>
              Resolve(a1, c1, d1).depth == Resolve(a2, c2, d2).depth
    ensures a1.fdType == a2.fdType && TypeOf(c1) == TypeOf(c2) && TypeOf(d1) == TypeOf(d2) ==>
              Resolve(a1, c1, d1).fdType == Resolve(a2, c2, d2).fdType
    ensures a1.hidden == a2.hidden && HiddenOf(c1) == HiddenOf(c2) && HiddenOf(d1) == HiddenOf(d2) ==>
              Resolve(a1, c1, d1).hidden == Resolve(a2, c2, d2).hidden
  {
  }

  /** The generated seed profile holds exactly the built-in constants, so
      using it as the `default` profile changes nothing. */
  lemma SeedMatchesFallbacks(cli: Profile, name: Option<string>)
    ensures Resolve(cli, CustomProfile(SeedConfig, name), DefaultProfile(SeedConfig))
         == Resolve(cli, None, None)
  {
  }
}
