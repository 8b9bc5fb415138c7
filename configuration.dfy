/**
 * The parts of the settings code (src/configuration.rs) that decide
 * something: which runtime environment is selected and how it is parsed
 * from text, and which SSL mode the database connection asks for.
 */
module Configuration {
  import opened Results
  import opened Errors

  /** Lower-cases one ASCII letter; every other character is kept. */
  function LowerChar(c: char): char
  {
    if 'A' <= c <= 'Z' then (c as int + ('a' as int - 'A' as int)) as char else c
  }

  predicate IsLower(s: string)
  {
    forall i :: 0 <= i < |s| ==> LowerChar(s[i]) == s[i]
  }

  /** `to_lowercase`, restricted to ASCII letters. */
  function ToLower(s: string): (r: string)
    ensures |r| == |s|
    ensures forall i :: 0 <= i < |s| ==> r[i] == LowerChar(s[i])
    ensures IsLower(r)
  {
    seq(|s|, i requires 0 <= i < |s| => LowerChar(s[i]))
  }

  /** Lower-casing twice is lower-casing once. */
  lemma ToLowerIdempotent(s: string)
    ensures ToLower(ToLower(s)) == ToLower(s)
  {
  }

  /** The runtime environment, read from APP_ENVIRONMENT. */
  datatype Environment = Local | Production
  {
    /** The configuration file name of the environment. */
    function AsStr(): (s: string)
      ensures IsLower(s) && |s| > 0
    {
      match this
      case Local => "local"
      case Production => "production"
    }

    /**
     * `TryFrom<String>`: the lower-cased text must name an environment;
     * otherwise the error quotes the lower-cased text.
     */
    static function TryFrom(s: string): (r: Result<Environment, Report>)
      ensures r.Ok? <==> ToLower(s) == "local" || ToLower(s) == "production"
      ensures r.Ok? ==> r.value.AsStr() == ToLower(s)
      ensures r.Err? ==> r.error == Report([UnsupportedMessage(ToLower(s))])
    {
      var lower := ToLower(s);
      if lower == "local" then Ok(Local)
      else if lower == "production" then Ok(Production)
      else Err(Report([UnsupportedMessage(lower)]))
    }
  }

  function UnsupportedMessage(other: string): string
  {
    other + " is not a supported environment. Use either `local` or `production`"
  }

  const ENVIRONMENT_CONTEXT: string := "failed to parse APP_ENVIRONMENT"

  /**
   * `get_environment`, with the variable's value passed in: `None` when
   * APP_ENVIRONMENT is unset (or not valid Unicode), which selects `Local`.
   */
  function GetEnvironment(appEnvironment: Option<string>): (r: Result<Environment, Report>)
    ensures appEnvironment == None ==> r == Ok(Local)
    ensures appEnvironment.Some? ==>
              (r.Ok? <==> Environment.TryFrom(appEnvironment.value).Ok?)
    ensures appEnvironment.Some? && r.Ok? ==>
              r.value.AsStr() == ToLower(appEnvironment.value)
    ensures appEnvironment.Some? && r.Err? ==>
              r.error.chain == [ENVIRONMENT_CONTEXT] + Environment.TryFrom(appEnvironment.value).error.chain
  {
    match appEnvironment
    case None => Ok(Local)
    case Some(s) =>
      match Environment.TryFrom(s)
      case Ok(e) => Ok(e)
      case Err(report) => Err(Report([ENVIRONMENT_CONTEXT] + report.chain))
  }

  /** Parsing the name of an environment gives that environment back. */
  lemma AsStrRoundTrip(e: Environment)
    ensures Environment.TryFrom(e.AsStr()) == Ok(e)
  {
    LowerIsFixed(e.AsStr());
  }

  /** Text already in lower case is its own lower-case form. */
  lemma LowerIsFixed(s: string)
    requires IsLower(s)
    ensures ToLower(s) == s
  {
  }

  /** Distinct environments have distinct names. */
  lemma AsStrInjective(a: Environment, b: Environment)
    ensures a.AsStr() == b.AsStr() ==> a == b
  {
  }

  /** Parsing ignores case: a text and its lower-case form parse alike. */
  lemma TryFromIgnoresCase(s: string)
    ensures Environment.TryFrom(s) == Environment.TryFrom(ToLower(s))
  {
    ToLowerIdempotent(s);
  }

  /** Parsing succeeds exactly on the case variants of the two names. */
  lemma TryFromExactlyCaseVariants(s: string, e: Environment)
    ensures Environment.TryFrom(s) == Ok(e) <==> ToLower(s) == e.AsStr()
  {
  }

  /** Upper- and mixed-case spellings select the same environment. */
  lemma MixedCaseSpellings()
    ensures Environment.TryFrom("local") == Ok(Local)
    ensures Environment.TryFrom("LOCAL") == Ok(Local)
    ensures Environment.TryFrom("Local") == Ok(Local)
    ensures Environment.TryFrom("PRODUCTION") == Ok(Production)
    ensures Environment.TryFrom("Production") == Ok(Production)
    ensures Environment.TryFrom("staging").Err?
  {
    assert ToLower("LOCAL") == "local";
    assert ToLower("Local") == "local";
    assert ToLower("local") == "local";
    assert ToLower("PRODUCTION") == "production";
    assert ToLower("Production") == "production";
    assert ToLower("staging") == "staging";
  }

  /** A set APP_ENVIRONMENT that names an environment selects it. */
  lemma GetEnvironmentRoundTrip(e: Environment)
    ensures GetEnvironment(Some(e.AsStr())) == Ok(e)
  {
    AsStrRoundTrip(e);
  }

  /** The SSL modes the settings choose between. */
  datatype PgSslMode = Prefer | Require

  /** A 16-bit port number. */
  newtype Port = x: int | 0 <= x < 0x1_0000

  datatype DatabaseSettings = DatabaseSettings(
    username: string,
    password: string,
    port: Port,
    host: string,
    databaseName: string,
    requireSsl: bool)
  {
    /** The SSL mode `without_db` (and so `with_db`) connects with. */
    function SslMode(): (mode: PgSslMode)
      ensures mode == Require <==> requireSsl
      ensures mode == Prefer <==> !requireSsl
    {
      if requireSsl then Require else Prefer
    }
  }
}
