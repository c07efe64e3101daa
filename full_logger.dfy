/** The module `pretty_logger.full_logger`: a drop-in replacement for the
  * `logging` module that adds RAW and SUCCESS and module-level helpers
  * logging through the root logger.
  */
module FullLogger {
  import opened LoggingHost
  import PrettyLogger

  const RAW_LOG: int := INFO + 1
  const SUCCESS: int := RAW_LOG + 1

  /** The two levels lie strictly between INFO and WARNING and agree with
    * the package's own definitions. */
  lemma LevelsAgree()
    ensures INFO < RAW_LOG < SUCCESS < WARNING
    ensures RAW_LOG == PrettyLogger.RAW_LOG && SUCCESS == PrettyLogger.SUCCESS
  {
  }

  /** The level-to-name table after this module's two registrations. */
  function WithFullNames(m: map<int, string>): (r: map<int, string>)
    ensures r.Keys == m.Keys + {RAW_LOG, SUCCESS}
    ensures r[RAW_LOG] == "RAW" && r[SUCCESS] == "SUCCESS"
    ensures forall l :: l in m && l != RAW_LOG && l != SUCCESS ==> r[l] == m[l]
  {
    m[RAW_LOG := "RAW"][SUCCESS := "SUCCESS"]
  }

  /** The name-to-level table after the same two registrations. */
  function WithFullLevels(m: map<string, int>): (r: map<string, int>)
    ensures r.Keys == m.Keys + {"RAW", "SUCCESS"}
    ensures r["RAW"] == RAW_LOG && r["SUCCESS"] == SUCCESS
    ensures forall n :: n in m && n != "RAW" && n != "SUCCESS" ==> r[n] == m[n]
  {
    m["RAW" := RAW_LOG]["SUCCESS" := SUCCESS]
  }

  /** The two `addLevelName` calls run when the module is imported. */
  method RegisterLevels(reg: LevelRegistry)
    modifies reg
    ensures reg.levelToName == WithFullNames(old(reg.levelToName))
    ensures reg.nameToLevel == WithFullLevels(old(reg.nameToLevel))
    ensures reg.GetLevelName(RAW_LOG) == "RAW" && reg.GetLevelName(SUCCESS) == "SUCCESS"
  {
    reg.AddLevelName(RAW_LOG, "RAW");
    reg.AddLevelName(SUCCESS, "SUCCESS");
  }

  /** Importing this module after the package (Python runs the package's
    * registrations first) changes no binding in either direction, and
    * neither does importing it twice. */
  lemma RegistrationsAgree(m: map<int, string>, n: map<string, int>)
    ensures WithFullNames(PrettyLogger.WithExtendedNames(m)) == PrettyLogger.WithExtendedNames(m)
    ensures WithFullLevels(PrettyLogger.WithExtendedLevels(n)) == PrettyLogger.WithExtendedLevels(n)
    ensures WithFullNames(WithFullNames(m)) == WithFullNames(m)
    ensures WithFullLevels(WithFullLevels(n)) == WithFullLevels(n)
  {
  }

  /** `raw(msg)`: one RAW record through the root logger, message untouched. */
  method Raw(root: Logger, msg: string)
    modifies root`emitted
    ensures root.emitted == old(root.emitted) + Enabled(root.threshold, [Emission(RAW_LOG, msg)])
  {
    root.Log(RAW_LOG, msg);
  }

  /** `success(msg)`: one SUCCESS record through the root logger. */
  method Success(root: Logger, msg: string)
    modifies root`emitted
    ensures root.emitted == old(root.emitted) + Enabled(root.threshold, [Emission(SUCCESS, msg)])
  {
    root.Log(SUCCESS, msg);
  }

  /** `success_banner(msg)`: the same three records as the extended
    * logger's banner, bar, message, bar. */
  method SuccessBanner(root: Logger, msg: string)
    modifies root`emitted
    ensures root.emitted == old(root.emitted) + Enabled(root.threshold, PrettyLogger.Banner(msg))
  {
    var bar := PrettyLogger.Bar(msg);
    ghost var e0 := root.emitted;
    Raw(root, bar);
    ghost var e1 := root.emitted;
    Success(root, msg);
    ghost var e2 := root.emitted;
    Raw(root, bar);
    LogThree(root.threshold, Emission(RAW_LOG, bar), Emission(SUCCESS, msg), Emission(RAW_LOG, bar),
             e0, e1, e2, root.emitted);
  }
}
