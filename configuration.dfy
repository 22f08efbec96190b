/**
 * The checks of `get_configuration`, over the parsed configuration file and
 * the process environment given as maps.
 */
module Configuration {
  import opened Common

  /** The environment variable that carries the access token. */
  const REPORTPORTAL_TOKEN := "ROTEST_REPORTPORTAL_TOKEN"

  /** The key of the Report Portal section in the configuration file. */
  const SECTION := "reportportal"

  /** The key under which the token is stored in the returned configuration. */
  const TOKEN_KEY := "token"

  /** A section of the configuration file: setting name to value. */
  type Section = map<string, string>

  /** A parsed configuration file: section name to section. */
  type Content = map<string, Section>

  /** The two ValueErrors that `get_configuration` raises. */
  datatype ConfigError =
    | MissingSection(configFile: string, content: Content)
    | MissingToken(variable: string)

  /** The fixed opening of the missing-section message. */
  const SECTION_HEAD := "No 'reportportal' key is defined in "

  /** The fixed opening of the missing-token message. */
  const TOKEN_HEAD := "You need to define the environment variable "

  /** The fixed closing of the missing-token message. */
  const TOKEN_TAIL := " in order to access Report Portal"

  /**
   * The error's text; `render` is Python's rendering of the parsed content,
   * which this model takes as given. The missing-section message names the
   * file and ends with the content; the missing-token message names the
   * variable.
   */
  function Message(e: ConfigError, render: Content -> string): (text: string)
    ensures e.MissingSection? ==>
      && |text| >= |SECTION_HEAD| + |e.configFile| + |render(e.content)|
      && text[..|SECTION_HEAD|] == SECTION_HEAD
      && text[|SECTION_HEAD|..|SECTION_HEAD| + |e.configFile|] == e.configFile
      && text[|text| - |render(e.content)|..] == render(e.content)
    ensures e.MissingToken? ==>
      && |text| == |TOKEN_HEAD| + |e.variable| + |TOKEN_TAIL|
      && text[..|TOKEN_HEAD|] == TOKEN_HEAD
      && text[|TOKEN_HEAD|..|TOKEN_HEAD| + |e.variable|] == e.variable
      && text[|text| - |TOKEN_TAIL|..] == TOKEN_TAIL
  {
    match e
    case MissingSection(configFile, content) =>
      SECTION_HEAD + configFile +
      ". Instead, found the following content:\n" + render(content)
    case MissingToken(variable) =>
      TOKEN_HEAD + variable + TOKEN_TAIL
  }

  /**
   * The configuration Report Portal is reached with: the file's Report Portal
   * section, with the token taken from the environment.
   */
  function GetConfiguration(configFile: string, content: Content, environ: map<string, string>)
    : (r: Result<Section, ConfigError>)
    ensures r.Ok? <==> SECTION in content && REPORTPORTAL_TOKEN in environ
    ensures r == Err(MissingSection(configFile, content)) <==> SECTION !in content
    ensures r == Err(MissingToken(REPORTPORTAL_TOKEN))
        <==> SECTION in content && REPORTPORTAL_TOKEN !in environ
    ensures r.Ok? ==>
      && r.value.Keys == content[SECTION].Keys + {TOKEN_KEY}
      && r.value[TOKEN_KEY] == environ[REPORTPORTAL_TOKEN]
      && forall key :: key in content[SECTION] && key != TOKEN_KEY ==> r.value[key] == content[SECTION][key]
  {
    if SECTION !in content then
      Err(MissingSection(configFile, content))
    else
      var configuration := content[SECTION];
      if REPORTPORTAL_TOKEN !in environ then
        Err(MissingToken(REPORTPORTAL_TOKEN))
      else
        Ok(configuration[TOKEN_KEY := environ[REPORTPORTAL_TOKEN]])
  }

  /** The token never comes from the file: a `token` written there is ignored. */
  lemma TokenOnlyFromEnvironment(configFile: string, content: Content, environ: map<string, string>, fileToken: string)
    requires SECTION in content
    ensures var planted := content[SECTION := content[SECTION][TOKEN_KEY := fileToken]];
      GetConfiguration(configFile, planted, environ) == GetConfiguration(configFile, content, environ)
  {
    var planted := content[SECTION := content[SECTION][TOKEN_KEY := fileToken]];
    if REPORTPORTAL_TOKEN in environ {
      var token := environ[REPORTPORTAL_TOKEN];
      assert planted[SECTION][TOKEN_KEY := token] == content[SECTION][TOKEN_KEY := token];
    }
  }

  /** The two errors can always be told apart by their text. */
  lemma MessagesDistinct(file: string, content: Content, render: Content -> string)
    ensures Message(MissingSection(file, content), render) != Message(MissingToken(REPORTPORTAL_TOKEN), render)
  {
    var a := Message(MissingSection(file, content), render);
    var b := Message(MissingToken(REPORTPORTAL_TOKEN), render);
    assert a[0] == SECTION_HEAD[0] != TOKEN_HEAD[0] == b[0];
  }
}
