/** The parsed configuration file: an optional table of named profiles,
    each holding up to four settings. */
module Profiles {
  import opened Wrappers

  /** Four optional settings; an absent field defers to the next source.
      The command-line overrides have the same shape. */
  datatype Profile = Profile(
    path: Option<string>,
    depth: Option<string>,
    fdType: Option<string>,
    hidden: Option<bool>)

  datatype Config = Config(profiles: Option<map<string, Profile>>)

  const DefaultProfileName: string := "default"

  /** The profile stored under `name`; absent, not an error, when there is
      no table or no such key. */
  function LookupProfile(config: Config, name: string): (r: Option<Profile>)
    ensures r.Some? <==> config.profiles.Some? && name in config.profiles.value
    ensures r.Some? ==> r.value == config.profiles.value[name]
  {
    match config.profiles
    case None => None
    case Some(table) => if name in table then Some(table[name]) else None
  }

  /** The profile named `default`, when the table has one. */
  function DefaultProfile(config: Config): (r: Option<Profile>)
    ensures r.Some? <==> config.profiles.Some? && DefaultProfileName in config.profiles.value
    ensures r.Some? ==> r.value == config.profiles.value[DefaultProfileName]
  {
    LookupProfile(config, DefaultProfileName)
  }

  /** The profile the user named, if any; a name without a matching entry
      selects nothing and raises no error. */
  function CustomProfile(config: Config, name: Option<string>): (r: Option<Profile>)
    ensures name.None? ==> r.None?
    ensures r.Some? <==> name.Some? && config.profiles.Some? && name.value in config.profiles.value
    ensures r.Some? ==> r.value == config.profiles.value[name.value]
  {
    match name
    case None => None
    case Some(n) => LookupProfile(config, n)
  }

  /** `profile.and_then(|p| p.path)` and its three siblings. */
  function PathOf(p: Option<Profile>): Option<string> {
    if p.Some? then p.value.path else None
  }

  function DepthOf(p: Option<Profile>): Option<string> {
    if p.Some? then p.value.depth else None
  }

  function TypeOf(p: Option<Profile>): Option<string> {
    if p.Some? then p.value.fdType else None
  }

  function HiddenOf(p: Option<Profile>): Option<bool> {
    if p.Some? then p.value.hidden else None
  }

  /** The profile written into a freshly generated configuration file. */
  const SeedProfile: Profile := Profile(Some("~"), Some("4"), Some("d"), Some(false))

  /** The generated configuration file's contents: one `default` profile. */
  const SeedConfig: Config := Config(Some(map[DefaultProfileName := SeedProfile]))

  /** The seed holds exactly one profile, `default`, whose path is `~`. */
  lemma SeedConfigShape()
    ensures SeedConfig.profiles.Some?
    ensures SeedConfig.profiles.value.Keys == {DefaultProfileName}
    ensures |SeedConfig.profiles.value| == 1
    ensures DefaultProfile(SeedConfig) == Some(SeedProfile)
    ensures DefaultProfile(SeedConfig).value.path == Some("~")
  {
  }
}
