/**
 * The static checker of an Expert Advisor project: the parameters file's
 * risk limits, and three whole-file textual heuristics over the `.mq4`/`.mq5`
 * sources. The project tree is an input value; the checker accumulates its
 * findings in two lists that its checks only ever append to.
 */
module SanityChecks {
  import opened Wrappers
  import opened Text
  import opened Configuration
  import opened OrderSendPattern

  /** A source file: its base name and its text. */
  datatype SourceFile = SourceFile(name: string, content: string)

  /**
   * The `src` directory: every source file found under it (in the order the
   * traversal yields them), and the files under `src/indicators` when that
   * directory exists.
   */
  datatype SourceTree = SourceTree(files: seq<SourceFile>, indicators: Option<seq<SourceFile>>)

  /** The project root: the parsed `config/params.default.json` if it exists, and `src` if it exists. */
  datatype Project = Project(params: Option<Config>, src: Option<SourceTree>)

  /** The three per-file heuristics. */
  datatype FileRule = HardCodedLotSize | MissingIncrementalCalculation | OrderSendWithoutLogging

  datatype SanityError = MissingParamsFile

  datatype SanityWarning =
    | RiskPerTradeTooHigh(percent: real)
    | MaxDrawdownTooHigh(percent: real)
    | FileWarning(rule: FileRule, file: string)

  /** Whether `rule` flags a file with this content. */
  predicate Fires(rule: FileRule, content: string) {
    match rule
    case HardCodedLotSize => HasHardCodedLotSize(content)
    case MissingIncrementalCalculation => !Contains(content, "IndicatorCounted()") && !Contains(content, "prev_calculated")
    case OrderSendWithoutLogging => Contains(content, "OrderSend") && !Contains(content, "Print")
  }

  /** One warning per flagged file, in file order. */
  function RuleWarnings(rule: FileRule, files: seq<SourceFile>): (r: seq<SanityWarning>)
    ensures |r| <= |files|
    ensures forall w :: w in r ==> w.FileWarning? && w.rule == rule
  {
    if files == [] then []
    else
      var last := files[|files| - 1];
      RuleWarnings(rule, files[..|files| - 1]) + (if Fires(rule, last.content) then [FileWarning(rule, last.name)] else [])
  }

  /** The files a scan of `src` visits; none when it does not exist. */
  function SourceFiles(p: Project): seq<SourceFile> {
    match p.src
    case None => []
    case Some(tree) => tree.files
  }

  /** The files a scan of `src/indicators` visits; none when it does not exist. */
  function IndicatorFiles(p: Project): seq<SourceFile> {
    match p.src
    case None => []
    case Some(tree) => tree.indicators.GetOr([])
  }

  /** Errors of the parameters check: the missing file. */
  function ConfigErrors(params: Option<Config>): seq<SanityError> {
    if params.None? then [MissingParamsFile] else []
  }

  /** Warnings of the parameters check: the two risk thresholds, both strict, missing values being 0. */
  function ConfigWarnings(params: Option<Config>): seq<SanityWarning> {
    match params
    case None => []
    case Some(config) =>
      var risk := config.RiskOrEmpty();
      (if risk.RiskPerTrade() > 0.5 then [RiskPerTradeTooHigh(risk.RiskPerTrade())] else []) +
      (if risk.MaxDrawdown() > 10.0 then [MaxDrawdownTooHigh(risk.MaxDrawdown())] else [])
  }

  /** Everything the four checks warn about, in the order they run. */
  function AllWarnings(p: Project): seq<SanityWarning> {
    ConfigWarnings(p.params) +
    RuleWarnings(HardCodedLotSize, SourceFiles(p)) +
    RuleWarnings(MissingIncrementalCalculation, IndicatorFiles(p)) +
    RuleWarnings(OrderSendWithoutLogging, SourceFiles(p))
  }

  /** `SanityChecker`: a project root and the findings accumulated so far. */
  class SanityChecker {
    const root: Project
    var errors: seq<SanityError>
    var warnings: seq<SanityWarning>

    constructor (root: Project)
      ensures this.root == root && errors == [] && warnings == []
    {
      this.root := root;
      errors := [];
      warnings := [];
    }

    /** `check_config_files`: a missing file is one error and nothing else. */
    method CheckConfigFiles()
      modifies this
      ensures errors == old(errors) + ConfigErrors(root.params)
      ensures warnings == old(warnings) + ConfigWarnings(root.params)
    {
      if root.params.None? {
        errors := errors + [MissingParamsFile];
        return;
      }
      var risk := root.params.value.RiskOrEmpty();
      var riskPct := risk.RiskPerTrade();
      if riskPct > 0.5 {
        warnings := warnings + [RiskPerTradeTooHigh(riskPct)];
      }
      var maxDrawdown := risk.MaxDrawdown();
      if maxDrawdown > 10.0 {
        warnings := warnings + [MaxDrawdownTooHigh(maxDrawdown)];
      }
    }

    /** The loop the three file checks share: one warning per file `rule` flags. */
    method ScanFiles(rule: FileRule, files: seq<SourceFile>)
      modifies this`warnings
      ensures warnings == old(warnings) + RuleWarnings(rule, files)
    {
      for i := 0 to |files|
        invariant warnings == old(warnings) + RuleWarnings(rule, files[..i])
      {
        assert files[..i + 1][..i] == files[..i];
        if Fires(rule, files[i].content) {
          warnings := warnings + [FileWarning(rule, files[i].name)];
        }
      }
      assert files[..|files|] == files;
    }

    /** `check_hard_coded_values`: a no-op when `src` does not exist. */
    method CheckHardCodedValues()
      modifies this`warnings
      ensures warnings == old(warnings) + RuleWarnings(HardCodedLotSize, SourceFiles(root))
    {
      if root.src.None? {
        return;
      }
      ScanFiles(HardCodedLotSize, root.src.value.files);
    }

    /** `check_repainting_indicators`: a no-op when `src/indicators` does not exist. */
    method CheckRepaintingIndicators()
      modifies this`warnings
      ensures warnings == old(warnings) + RuleWarnings(MissingIncrementalCalculation, IndicatorFiles(root))
    {
      if root.src.None? || root.src.value.indicators.None? {
        return;
      }
      ScanFiles(MissingIncrementalCalculation, root.src.value.indicators.value);
    }

    /** `check_logging`: a no-op when `src` does not exist. */
    method CheckLogging()
      modifies this`warnings
      ensures warnings == old(warnings) + RuleWarnings(OrderSendWithoutLogging, SourceFiles(root))
    {
      if root.src.None? {
        return;
      }
      ScanFiles(OrderSendWithoutLogging, root.src.value.files);
    }

    /** `run_all_checks`: the four checks in order; succeeds iff no error has been recorded. */
    method RunAllChecks() returns (success: bool)
      modifies this
      ensures errors == old(errors) + ConfigErrors(root.params)
      ensures warnings == old(warnings) + AllWarnings(root)
      ensures success <==> errors == []
    {
      CheckConfigFiles();
      ghost var afterConfig := warnings;
      CheckHardCodedValues();
      ghost var afterHardCoded := warnings;
      CheckRepaintingIndicators();
      ghost var afterRepainting := warnings;
      CheckLogging();
      ghost var c, h, r, l := ConfigWarnings(root.params), RuleWarnings(HardCodedLotSize, SourceFiles(root)),
        RuleWarnings(MissingIncrementalCalculation, IndicatorFiles(root)), RuleWarnings(OrderSendWithoutLogging, SourceFiles(root));
      assert afterConfig == old(warnings) + c;
      assert afterHardCoded == afterConfig + h;
      assert afterRepainting == afterHardCoded + r;
      assert warnings == afterRepainting + l;
      AppendFour(old(warnings), c, h, r, l);
      success := |errors| == 0;
    }
  }

  /**
   * `main`: a fresh checker over `root`, all checks, and the exit status.
   * The status is 0 exactly when the parameters file exists.
   */
  method SanityMain(root: Project) returns (exitCode: int, errors: seq<SanityError>, warnings: seq<SanityWarning>)
    ensures errors == ConfigErrors(root.params)
    ensures warnings == AllWarnings(root)
    ensures exitCode == (if root.params.Some? then 0 else 1)
  {
    var checker := new SanityChecker(root);
    var success := checker.RunAllChecks();
    errors, warnings := checker.errors, checker.warnings;
    exitCode := if success then 0 else 1;
  }
}
