/** What a step declares while it is set up, and the configuration options
    it reads: the file declarations of `compass.step.Step` (a namelist or
    streams file from a package, an input linked from a target, a namelist
    rewritten at run time) and `config.getint(section, option)` of Python's
    `configparser`. */
module StepSetup {
  import opened Outcomes
  import opened Text

  /** A namelist or streams file taken from a Python package; a streams
      template also carries the values substituted into it. */
  datatype PackageFile = PackageFile(package: string, filename: string, templateReplacements: map<string, Option<string>>)

  function Plain(package: string, filename: string): PackageFile {
    PackageFile(package, filename, map[])
  }

  /** `add_input_file(filename=..., target=...)`: a link in the step's
      directory to a file elsewhere. */
  datatype InputLink = InputLink(filename: string, target: string)

  /** `update_namelist_at_runtime(options, out_name)`. */
  datatype NamelistUpdate = NamelistUpdate(options: map<string, string>, outName: string)

  /** The options of a configuration file, section by section, as text. */
  type Options = map<string, map<string, string>>

  /** The errors `getint` raises. */
  datatype ConfigError =
    | NoSection(section: string)
    | NoOption(section: string, option: string)
    | NotAnInteger(section: string, option: string, value: string)

  /** `config.getint(section, option)`. */
  function GetInt(c: Options, section: string, option: string): (r: Result<int, ConfigError>)
    ensures r == Err(NoSection(section)) <==> section !in c
    ensures r == Err(NoOption(section, option)) <==> section in c && option !in c[section]
    ensures r.Err? && r.error.NotAnInteger? <==> section in c && option in c[section] && ParseInt(c[section][option]).None?
    ensures r.Err? && r.error.NotAnInteger? ==> r.error == NotAnInteger(section, option, c[section][option])
  {
    if section !in c then Err(NoSection(section))
    else if option !in c[section] then Err(NoOption(section, option))
    else
      var text := c[section][option];
      match ParseInt(text)
      case Some(n) => Ok(n)
      case None => Err(NotAnInteger(section, option, text))
  }

  /** A configuration with one option written, its section made if need be. */
  function Set(c: Options, section: string, option: string, value: string): Options {
    var options := if section in c then c[section] else map[];
    c[section := options[option := value]]
  }

  /** An integer written into the configuration is read back unchanged,
      and writing one option leaves every other option's reading alone. */
  lemma GetIntAfterSet(c: Options, section: string, option: string, n: int, section': string, option': string)
    ensures GetInt(Set(c, section, option, IntToDecimal(n)), section, option) == Ok(n)
    ensures (section', option') != (section, option) && section' in c ==>
      GetInt(Set(c, section, option, IntToDecimal(n)), section', option') == GetInt(c, section', option')
  {
    ParseIntDecimal(n);
  }
}
