/** logstd/logging.go with the `Logger` block of logstd/config.go: merging the logging
    configuration into zap's production defaults. */
module Logging {
  import opened Wrappers

  /** A zap logging level. */
  datatype Level = Debug | Info | Warn | Error | DPanic | Panic | Fatal

  /** `zap.AtomicLevel`; `Unset` is the zero value a `Logger` holds until `SetAtomicLevel`
      succeeds. */
  datatype AtomicLevel = Unset | AtLevel(level: Level)

  /** The part of `zap.Config` the merge touches, plus the error outputs and development flag. */
  datatype ZapConfig = ZapConfig(level: AtomicLevel, development: bool, encoding: string,
                                 outputPaths: seq<string>, errorOutputPaths: seq<string>)

  /** `zap.NewProductionConfig()`. */
  const Production := ZapConfig(AtLevel(Info), false, "json", ["stderr"], ["stderr"])

  /** The `Logger` configuration block. */
  datatype Logger = Logger(level: string, outputPaths: seq<string>, encoding: string, atomicLevel: AtomicLevel)

  /** `SetAtomicLevel`, with `zap.ParseAtomicLevel` as `parse`. */
  function SetAtomicLevel(l: Logger, parse: string -> Result<Level>): (r: Result<Logger>)
    ensures r.Ok? <==> parse(l.level).Ok?
    ensures r.Ok? ==> r.value == l.(atomicLevel := AtLevel(parse(l.level).value))
    ensures r.Err? ==> r.msg == parse(l.level).msg
  {
    match parse(l.level)
    case Err(e) => Err(e)
    case Ok(lv) => Ok(l.(atomicLevel := AtLevel(lv)))
  }

  /** `GetZapConfig`: each non-empty setting overrides the production default. */
  function GetZapConfig(l: Option<Logger>): (c: ZapConfig)
    ensures l.None? ==> c == Production
    ensures l.Some? ==> c.level == (if l.value.level != "" then l.value.atomicLevel else Production.level)
    ensures l.Some? ==> c.encoding == (if l.value.encoding != "" then l.value.encoding else Production.encoding)
    ensures l.Some? ==> c.outputPaths == (if |l.value.outputPaths| > 0 then l.value.outputPaths else Production.outputPaths)
    ensures c.development == Production.development && c.errorOutputPaths == Production.errorOutputPaths
  {
    match l
    case None => Production
    case Some(cfg) =>
      var c1 := if cfg.level != "" then Production.(level := cfg.atomicLevel) else Production;
      var c2 := if cfg.encoding != "" then c1.(encoding := cfg.encoding) else c1;
      if |cfg.outputPaths| > 0 then c2.(outputPaths := cfg.outputPaths) else c2
  }

  /** An all-empty block yields exactly the defaults, whatever its stored level. */
  lemma EmptyConfigIsProduction(a: AtomicLevel)
    ensures GetZapConfig(Some(Logger("", [], "", a))) == Production
  {
  }

  /** After a successful `SetAtomicLevel` the merged level is the parsed one. */
  lemma ParsedLevelIsUsed(l: Logger, parse: string -> Result<Level>)
    requires l.level != "" && parse(l.level).Ok?
    ensures GetZapConfig(Some(SetAtomicLevel(l, parse).value)).level == AtLevel(parse(l.level).value)
  {
  }

  /** A level string whose `SetAtomicLevel` was never run installs the zero atomic level. */
  lemma UnparsedLevelIsZero(level: string)
    requires level != ""
    ensures GetZapConfig(Some(Logger(level, [], "", Unset))).level == Unset
  {
  }
}
