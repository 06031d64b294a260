/**
 * The `Config` class of builder.py: hard-coded defaults, overridden by the
 * sections and options of `.valibox_build_config` when that file exists.
 * `configparser` stores every value as a string, so the defaults `False`
 * read back as the (non-empty, hence truthy) string `"False"`.
 */
module Config {

  import opened Wrappers

  /** Section name to option name to value. */
  type Sections = map<string, map<string, string>>

  /** `configparser.NoSectionError` and `configparser.NoOptionError`. */
  datatype ConfigError = NoSection(section: string) | NoOption(section: string, option: string)

  datatype Config = Config(sections: Sections)

  /** `Config.DEFAULTS`, with the booleans turned into strings as `read_dict` does. */
  function Defaults(): Sections {
    map[
      "main" := map[
        "LEDE branch" := "master",
        "sidn_openwrt_packages branch" := "master",
        "local SPIN code" := "False",
        "Update all feeds" := "False",
        "use make -j1 V=s" := "False",
        "target architecture" := "all"],
      "SPIN" := map["foo" := "bar"]]
  }

  function SectionOf(m: Sections, section: string): map<string, string> {
    if section in m then m[section] else map[]
  }

  /** Reading `over` into a parser that already holds `base`: sections are merged, options overridden. */
  function Merge(base: Sections, over: Sections): (r: Sections)
    ensures r.Keys == base.Keys + over.Keys
    ensures forall s :: s in r ==> r[s].Keys == SectionOf(base, s).Keys + SectionOf(over, s).Keys
    ensures forall s, k :: s in over && k in over[s] ==> s in r && k in r[s] && r[s][k] == over[s][k]
    ensures forall s, k :: s in base && k in base[s] && k !in SectionOf(over, s) ==>
              s in r && k in r[s] && r[s][k] == base[s][k]
  {
    map s | s in base.Keys + over.Keys :: SectionOf(base, s) + SectionOf(over, s)
  }

  /** `Config()`: `read_dict(DEFAULTS)` then `read(CONFIG_FILE)`; an absent file reads as no sections. */
  function Load(file: Sections): (c: Config)
    ensures forall s, k :: s in Defaults() && k in Defaults()[s] ==> s in c.sections && k in c.sections[s]
    ensures forall s, k :: s in file && k in file[s] ==>
              s in c.sections && k in c.sections[s] && c.sections[s][k] == file[s][k]
  {
    Config(Merge(Defaults(), file))
  }

  /** `Config.get(section, option)`. */
  function Get(c: Config, section: string, option: string): (r: Result<string, ConfigError>)
    ensures r.Success? <==> section in c.sections && option in c.sections[section]
    ensures r.Success? ==> r.value == c.sections[section][option]
    ensures section !in c.sections ==> r == Failure(NoSection(section))
    ensures section in c.sections && option !in c.sections[section] ==> r == Failure(NoOption(section, option))
  {
    if section !in c.sections then Failure(NoSection(section))
    else if option !in c.sections[section] then Failure(NoOption(section, option))
    else Success(c.sections[section][option])
  }

  /** The layered lookup `Get` performs on a loaded configuration: the file first, then the defaults. */
  function Layered(file: Sections, section: string, option: string): (r: Result<string, ConfigError>) {
    if section in file && option in file[section] then Success(file[section][option])
    else if section in Defaults() && option in Defaults()[section] then Success(Defaults()[section][option])
    else if section !in file && section !in Defaults() then Failure(NoSection(section))
    else Failure(NoOption(section, option))
  }

  /** Looking an option up after `Config()` is the file's value, else the default, else an error. */
  lemma GetAfterLoad(file: Sections, section: string, option: string)
    ensures Get(Load(file), section, option) == Layered(file, section, option)
  {
    var c := Load(file);
    if section in c.sections {
      assert c.sections[section].Keys == SectionOf(Defaults(), section).Keys + SectionOf(file, section).Keys;
    }
  }

  /** Python's truth test on a string: only the empty string is false. */
  predicate Truthy(s: string) {
    |s| > 0
  }

  /** The default of 'Update all feeds' reads back as the string "False", which is truthy. */
  lemma DefaultFeedFlagIsTruthy(file: Sections)
    requires "main" !in file || "Update all feeds" !in file["main"]
    ensures Get(Load(file), "main", "Update all feeds") == Success("False")
    ensures Truthy(Get(Load(file), "main", "Update all feeds").value)
  {
    GetAfterLoad(file, "main", "Update all feeds");
  }

  /** 'SPIN branch' has no default: without the file supplying it, the lookup fails. */
  lemma SpinBranchHasNoDefault(file: Sections)
    requires "main" !in file || "SPIN branch" !in file["main"]
    ensures Get(Load(file), "main", "SPIN branch") == Failure(NoOption("main", "SPIN branch"))
  {
    GetAfterLoad(file, "main", "SPIN branch");
  }
}
