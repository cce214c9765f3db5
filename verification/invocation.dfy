/** The program's entry point with its effects made explicit: the home
    directory, the parsed configuration file and the set of existing paths
    are inputs, and the result says which `fd` call would be made. */
module Invocation {
  import opened Wrappers
  import opened Paths
  import opened Tilde
  import opened Profiles
  import opened Resolution
  import opened FdCommand

  /** The conventional configuration file, before tilde expansion:
      `~/.config/fdfzf/config.toml`. */
  const DefaultConfigTail: seq<string> := [".config", "fdfzf", "config.toml"]
  const DefaultConfigLocation: Path := Path(false, ["~"] + DefaultConfigTail)

  /** The location is the path the program's string literal denotes. */
  lemma DefaultConfigLocationText()
    ensures Render(DefaultConfigLocation) == "~/.config/fdfzf/config.toml"
  {
    var cs := ["~"] + DefaultConfigTail;
    JoinCons("fdfzf", ["config.toml"]);
    assert ["fdfzf"] + ["config.toml"] == cs[2..];
    JoinCons(".config", cs[2..]);
    assert [".config"] + cs[2..] == cs[1..];
    JoinCons("~", cs[1..]);
    assert ["~"] + cs[1..] == cs;
  }

  /** Reading the literal gives the location back. The literal is bound to a
      parameter because written inline it makes the verifier unfold
      `Components` character by character. */
  lemma DefaultConfigLocationParses(text: string)
    requires text == "~/.config/fdfzf/config.toml"
    ensures Parse(text) == DefaultConfigLocation
  {
    DefaultConfigLocationText();
    ParseOfRender(DefaultConfigLocation);
  }

  /** Where the generated configuration file lives: `config.toml` under
      `.config/fdfzf` in the home directory; unknown without a home. */
  function DefaultConfigPath(home: Option<Path>): (r: Option<Path>)
    ensures r.None? <==> home.None?
    ensures home.Some? && home.value != RootDir ==>
              r == Some(Path(home.value.absolute, home.value.comps + DefaultConfigTail))
    ensures home == Some(RootDir) ==> r == Some(Path(false, DefaultConfigTail))
  {
    assert DefaultConfigLocation.comps[1..] == DefaultConfigTail;
    ExpandTilde(DefaultConfigLocation, home)
  }

  /** For an absolute home other than the root, the generated location is
      an absolute path string ending in `config.toml`; with the root as home
      it is the relative `.config/fdfzf/config.toml`. */
  lemma DefaultConfigPathShape(h: Path)
    ensures h.absolute && h != RootDir ==>
              var s := Render(DefaultConfigPath(Some(h)).value);
              |s| > 11 && s[0] == Separator && s[|s| - 11..] == "config.toml"
    ensures Render(DefaultConfigPath(Some(RootDir)).value) == ".config/fdfzf/config.toml"
  {
    if h.absolute && h != RootDir {
      var p := DefaultConfigPath(Some(h)).value;
      var cs := h.comps + DefaultConfigTail;
      assert p == Path(true, cs);
      assert cs[|cs| - 1] == "config.toml";
      JoinEndsWithLast(cs);
      var j := Join(cs);
      assert Render(p) == [Separator] + j;
      assert ([Separator] + j)[|[Separator] + j| - 11..] == j[|j| - 11..];
    }
    JoinOfConfigTail();
  }

  lemma JoinOfConfigTail()
    ensures Join(DefaultConfigTail) == ".config/fdfzf/config.toml"
  {
    JoinCons("fdfzf", ["config.toml"]);
    assert ["fdfzf"] + ["config.toml"] == DefaultConfigTail[1..];
    JoinCons(".config", DefaultConfigTail[1..]);
    assert [".config"] + DefaultConfigTail[1..] == DefaultConfigTail;
  }

  /** The configuration file that is read. The generated location is
      computed even when a file is named on the command line, so an unknown
      home stops the program before any file is read. */
  function ConfigFile(named: Option<string>, home: Option<Path>): (r: Option<string>)
    ensures r.None? <==> home.None?
    ensures home.Some? && named.Some? ==> r == named
    ensures home.Some? && named.None? ==> r == Some(Render(DefaultConfigPath(home).value))
  {
    match DefaultConfigPath(home)
    case None => None
    case Some(generated) => Some(named.UnwrapOr(Render(generated)))
  }

  /** The command line after parsing: the four overrides, the configuration
      file name and the profile name. */
  datatype Cli = Cli(overrides: Profile, configFile: Option<string>, profileName: Option<string>)

  datatype Outcome =
    | HomeUnknown                 // the program stops: no home directory
    | MissingDirectory(root: Path) // reported on the error stream; nothing is run
    | Search(args: seq<string>)    // `fd` is run with these arguments

  /** The settings for this invocation: overrides, then the named profile,
      then `default`, then constants. */
  function SettingsFor(cli: Cli, config: Config): Settings {
    Resolve(cli.overrides, CustomProfile(config, cli.profileName), DefaultProfile(config))
  }

  /** The search root: the resolved path with its tilde expanded. */
  function RootFor(cli: Cli, config: Config, home: Option<Path>): (r: Option<Path>)
    ensures r.None? <==> home.None? && HasTilde(Parse(SettingsFor(cli, config).path))
    ensures !HasTilde(Parse(SettingsFor(cli, config).path)) ==> r == Some(Parse(SettingsFor(cli, config).path))
    ensures home.Some? && SettingsFor(cli, config).path == "~" ==> r == home
  {
    assert Render(TildeMarker) == "~";
    ParseOfRender(TildeMarker);
    ExpandTilde(Parse(SettingsFor(cli, config).path), home)
  }

  /** One run of the program. `config` is the parsed contents of the file
      `ConfigFile` names; `existing` holds the paths that exist. */
  function Invoke(cli: Cli, home: Option<Path>, config: Config, existing: set<Path>): (r: Outcome)
    ensures r.HomeUnknown? <==> home.None?
    ensures home.Some? ==> RootFor(cli, config, home).Some?
    ensures r.MissingDirectory? ==> r.root !in existing && Some(r.root) == RootFor(cli, config, home)
    ensures home.Some? ==> (r.Search? <==> RootFor(cli, config, home).value in existing)
    ensures r.Search? ==>
              var s := SettingsFor(cli, config);
              ParseFdArgs(r.args) == Some(FdRequest(s.fdType, s.depth, s.hidden,
                                                     Render(RootFor(cli, config, home).value)))
  {
    if ConfigFile(cli.configFile, home).None? then HomeUnknown
    else
      var settings := SettingsFor(cli, config);
      var root := ExpandTilde(Parse(settings.path), home).value;
      if root !in existing then MissingDirectory(root)
      else Search(FdArgs(FdRequest(settings.fdType, settings.depth, settings.hidden, Render(root))))
  }

  /** With no overrides, no profiles and an existing home directory, `fd`
      searches the home directory for directories four levels deep,
      hidden entries excluded. */
  lemma InvokeWithDefaults(h: Path, existing: set<Path>)
    requires h in existing
    ensures Invoke(Cli(Profile(None, None, None, None), None, None), Some(h), Config(None), existing)
         == Search([".", "--type", "d", "--max-depth", "4", "--no-hidden", Render(h)])
  {
  }

  /** A profile name that the table does not hold is ignored without error. */
  lemma UnknownProfileIgnored(cli: Cli, home: Option<Path>, config: Config, existing: set<Path>)
    requires cli.profileName.Some?
    requires config.profiles.None? || cli.profileName.value !in config.profiles.value
    ensures Invoke(cli, home, config, existing) == Invoke(cli.(profileName := None), home, config, existing)
  {
  }

  /** When the command line sets all four settings, the configuration file's
      contents make no difference. */
  lemma FullOverridesIgnoreConfig(cli: Cli, home: Option<Path>, c1: Config, c2: Config, existing: set<Path>)
    requires cli.overrides.path.Some? && cli.overrides.depth.Some?
    requires cli.overrides.fdType.Some? && cli.overrides.hidden.Some?
    ensures Invoke(cli, home, c1, existing) == Invoke(cli, home, c2, existing)
  {
  }

  /** The generated seed file behaves as if there were no configuration. */
  lemma SeedConfigLikeNone(cli: Cli, home: Option<Path>, existing: set<Path>)
    ensures Invoke(cli, home, SeedConfig, existing) == Invoke(cli, home, Config(None), existing)
  {
  }

  /** A canonical search root without a leading `~` reaches `fd` exactly as
      the user wrote it. */
  lemma RootPassedVerbatim(cli: Cli, home: Option<Path>, config: Config, existing: set<Path>)
    requires Canonical(SettingsFor(cli, config).path)
    requires !HasTilde(Parse(SettingsFor(cli, config).path))
    requires Invoke(cli, home, config, existing).Search?
    ensures Invoke(cli, home, config, existing).args[6] == SettingsFor(cli, config).path
  {
    RenderOfParse(SettingsFor(cli, config).path);
  }
}
