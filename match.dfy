/**
 * lib/plugins/match.js: whether an image is selected by the `match` section
 * under a configuration path. The regular expression is uninterpreted:
 * `compile` stands for `new RegExp(...)` (which may throw) and yields the
 * compiled `test` predicate.
 */
module Match {
  import opened Wrappers
  import opened Errors
  import opened JsonValues
  import opened Content
  import opened Config

  type Compiler = Json -> Result<Json -> bool, Error>

  /** The image as the object `_.has` and `_.get` walk. */
  function Subject(image: Image): Json
  {
    JObj(image.fields)
  }

  /** `_.has(image, property) && regex.test(_.get(image, property))`; only a string property names a path. */
  function Selects(image: Image, property: Json, test: Json -> bool): bool
  {
    match property
    case JStr(p) => HasPath(Subject(image), p) && test(Lookup(Subject(image), p).value)
    case _ => false
  }

  /** `image(configPath, image)`. */
  function MatchImage(config: Json, configPath: string, image: Image, compile: Compiler): (r: Result<bool, Error>)
    ensures !Has(config, configPath + ".match") ==> r == Success(true)
    ensures r.Failure? ==> Has(config, configPath + ".match")
  {
    if !Has(config, configPath + ".match") then Success(true)
    else
      var property :- Get(config, configPath + ".match.property", None);
      var pattern :- Get(config, configPath + ".match.regex", None);
      var test :- compile(pattern);
      Success(Selects(image, property, test))
  }

  /** A match section whose property and regex are configured and whose regex compiles. */
  predicate Configured(config: Json, configPath: string, property: string, compile: Compiler)
  {
    Has(config, configPath + ".match") &&
    Get(config, configPath + ".match.property", None) == Success(JStr(property)) &&
    Has(config, configPath + ".match.regex") &&
    compile(Lookup(config, configPath + ".match.regex").value).Success?
  }

  /** The compiled `test` of a configured section. */
  function Test(config: Json, configPath: string, property: string, compile: Compiler): Json -> bool
    requires Configured(config, configPath, property, compile)
  {
    compile(Lookup(config, configPath + ".match.regex").value).value
  }

  /** An image without the configured property is never selected, whatever the regex. */
  lemma MissingPropertyNeverMatches(config: Json, configPath: string, property: string, image: Image, compile: Compiler)
    requires Configured(config, configPath, property, compile)
    requires !HasPath(Subject(image), property)
    ensures MatchImage(config, configPath, image, compile) == Success(false)
  {
  }

  /** An image with the configured property is selected iff the regex accepts its value. */
  lemma PresentPropertyIsTested(config: Json, configPath: string, property: string, image: Image, compile: Compiler)
    requires Configured(config, configPath, property, compile)
    requires HasPath(Subject(image), property)
    ensures MatchImage(config, configPath, image, compile) ==
      Success(Test(config, configPath, property, compile)(Lookup(Subject(image), property).value))
  {
  }

  /**
   * Two images are treated alike when they agree on the presence of the
   * property and on the regex test of its value: nothing else about an image
   * matters.
   */
  lemma DependsOnPropertyOnly(config: Json, configPath: string, property: string, a: Image, b: Image, compile: Compiler)
    requires Configured(config, configPath, property, compile)
    requires HasPath(Subject(a), property) == HasPath(Subject(b), property)
    requires HasPath(Subject(a), property) ==>
      Test(config, configPath, property, compile)(Lookup(Subject(a), property).value) ==
      Test(config, configPath, property, compile)(Lookup(Subject(b), property).value)
    ensures MatchImage(config, configPath, a, compile) == MatchImage(config, configPath, b, compile)
  {
    if HasPath(Subject(a), property) {
      PresentPropertyIsTested(config, configPath, property, a, compile);
      PresentPropertyIsTested(config, configPath, property, b, compile);
    } else {
      MissingPropertyNeverMatches(config, configPath, property, a, compile);
      MissingPropertyNeverMatches(config, configPath, property, b, compile);
    }
  }

  /** With a match section present, a missing property setting throws first. */
  lemma PropertyRequired(config: Json, configPath: string, image: Image, compile: Compiler)
    requires Has(config, configPath + ".match") && !Has(config, configPath + ".match.property")
    ensures MatchImage(config, configPath, image, compile) ==
      Failure(PlainError("Configuration parameter '" + (configPath + ".match.property") + "' does not exist."))
  {
  }

  /** Next, a missing regex setting throws. */
  lemma RegexRequired(config: Json, configPath: string, image: Image, compile: Compiler)
    requires Has(config, configPath + ".match") && Has(config, configPath + ".match.property")
    requires !Has(config, configPath + ".match.regex")
    ensures MatchImage(config, configPath, image, compile) ==
      Failure(PlainError("Configuration parameter '" + (configPath + ".match.regex") + "' does not exist."))
  {
  }

  /** Last, a regex that does not compile throws its own error. */
  lemma RegexMustCompile(config: Json, configPath: string, image: Image, compile: Compiler)
    requires Has(config, configPath + ".match") && Has(config, configPath + ".match.property")
    requires Has(config, configPath + ".match.regex")
    requires compile(Lookup(config, configPath + ".match.regex").value).Failure?
    ensures MatchImage(config, configPath, image, compile) ==
      Failure(compile(Lookup(config, configPath + ".match.regex").value).error)
  {
  }
}
