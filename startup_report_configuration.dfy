/**
 * StartupReportConfiguration: the settings of one run, fixed at construction,
 * and the factory methods that decide which reporter each fork gets, where it
 * writes and which run-history store the XML reporter is handed.
 */
module Surefire {
  import opened Wrappers
  import opened StringUtils
  import opened Reporters

  /** ConsoleReporter.BRIEF and ConsoleReporter.PLAIN, the two line-oriented report formats. */
  const BRIEF: string := "brief"
  const PLAIN: string := "plain"

  /**
   * The encoding the constructor keeps: the platform default when the setting
   * is null or only whitespace, otherwise the charset named by the setting with
   * its surrounding whitespace removed.
   */
  function SelectEncoding(encoding: Option<string>): (charset: Charset)
    ensures charset.PlatformDefault? <==> encoding.None? || AllTrimmable(encoding.value)
    ensures charset.Named? ==>
      charset.name != [] && HasNoTrimmableEnds(charset.name) && IsTrimOf(encoding.value, charset.name)
  {
    match TrimToNull(encoding)
    case None => PlatformDefault
    case Some(name) => Named(name)
  }

  /** Whitespace around the encoding setting never changes the charset chosen. */
  lemma {:induction false} SelectEncodingIgnoresSurroundingWhitespace(setting: string)
    ensures SelectEncoding(Some(setting)) == SelectEncoding(Some(Trim(setting)))
  {
    TrimIdempotent(setting);
  }

  class StartupReportConfiguration {
    const originalSystemOut: PrintStream
    const originalSystemErr: PrintStream
    const useFile: bool
    const printSummary: bool
    /** null is None */
    const reportFormat: Option<string>
    const reportNameSuffix: string
    const statisticsFile: File
    const requiresRunHistory: bool
    const redirectTestOutputToFile: bool
    const disableXmlReport: bool
    const reportsDirectory: File
    const trimStackTrace: bool
    const rerunFailingTestsCount: int
    const xsdSchemaLocation: string
    /** The store this configuration owns, handed to every XML reporter outside fork mode. */
    const testClassMethodRunHistory: RunHistoryStore
    const encoding: Charset
    const isForkMode: bool
    /** SurefireHelper.replaceForkThreadsInPath, which is not part of this model. */
    const replaceForkThreadsInPath: (File, int) -> File
    /** The only field assigned after construction: null until the first call of GetStatisticsReporter that creates one. */
    var statisticsReporter: StatisticsReporter?

    /** A memoized statistics reporter exists only when run history is required, and writes to the configured file. */
    ghost predicate Valid()
      reads this
    {
      statisticsReporter != null ==> requiresRunHistory && statisticsReporter.statisticsFile == statisticsFile
    }

    /**
     * Records every setting, captures the current System.out and System.err,
     * chooses the encoding, and allocates the store this configuration owns.
     */
    constructor (useFile: bool, printSummary: bool, reportFormat: Option<string>,
                 redirectTestOutputToFile: bool, disableXmlReport: bool,
                 reportsDirectory: File, trimStackTrace: bool, reportNameSuffix: string,
                 statisticsFile: File, requiresRunHistory: bool, rerunFailingTestsCount: int,
                 xsdSchemaLocation: string, encoding: Option<string>, isForkMode: bool,
                 system: StandardStreams, replaceForkThreadsInPath: (File, int) -> File)
      ensures Valid() && statisticsReporter == null
      ensures this.useFile == useFile && this.printSummary == printSummary && this.reportFormat == reportFormat
      ensures this.redirectTestOutputToFile == redirectTestOutputToFile && this.disableXmlReport == disableXmlReport
      ensures this.reportsDirectory == reportsDirectory && this.trimStackTrace == trimStackTrace
      ensures this.reportNameSuffix == reportNameSuffix && this.statisticsFile == statisticsFile
      ensures this.requiresRunHistory == requiresRunHistory && this.rerunFailingTestsCount == rerunFailingTestsCount
      ensures this.xsdSchemaLocation == xsdSchemaLocation && this.isForkMode == isForkMode
      ensures this.replaceForkThreadsInPath == replaceForkThreadsInPath
      ensures originalSystemOut == system.out && originalSystemErr == system.err
      ensures this.encoding == SelectEncoding(encoding)
      ensures fresh(testClassMethodRunHistory) && testClassMethodRunHistory.IsEmpty()
    {
      this.useFile := useFile;
      this.printSummary := printSummary;
      this.reportFormat := reportFormat;
      this.redirectTestOutputToFile := redirectTestOutputToFile;
      this.disableXmlReport := disableXmlReport;
      this.reportsDirectory := reportsDirectory;
      this.trimStackTrace := trimStackTrace;
      this.reportNameSuffix := reportNameSuffix;
      this.statisticsFile := statisticsFile;
      this.requiresRunHistory := requiresRunHistory;
      this.originalSystemOut := system.out;
      this.originalSystemErr := system.err;
      this.rerunFailingTestsCount := rerunFailingTestsCount;
      this.xsdSchemaLocation := xsdSchemaLocation;
      this.encoding := SelectEncoding(encoding);
      this.isForkMode := isForkMode;
      this.replaceForkThreadsInPath := replaceForkThreadsInPath;
      this.testClassMethodRunHistory := new RunHistoryStore();
      this.statisticsReporter := null;
    }

    /** The directory a fork's reports go to: the configured one outside a fork, the fork's own one inside. */
    function ResolveReportsDirectory(forkNumber: Option<int>): (directory: File)
      ensures forkNumber.None? ==> directory == reportsDirectory
      ensures forkNumber.Some? ==> directory == replaceForkThreadsInPath(reportsDirectory, forkNumber.value)
    {
      match forkNumber
      case None => reportsDirectory
      case Some(n) => replaceForkThreadsInPath(reportsDirectory, n)
    }

    /**
     * The XML reporter for a fork, or null when XML reporting is disabled. In
     * fork mode each call hands the reporter a store of its own, new and empty,
     * so that forks reusing the same suite and class names never see each
     * other's history; otherwise every reporter shares the configuration's store.
     */
    method InstantiateStatelessXmlReporter(forkNumber: Option<int>) returns (reporter: Option<StatelessXmlReporter>)
      requires forkNumber.None? || isForkMode
      ensures reporter.None? <==> disableXmlReport
      ensures reporter.Some? ==>
        var r := reporter.value;
        r.reportsDirectory == ResolveReportsDirectory(forkNumber) && r.reportNameSuffix == reportNameSuffix &&
        r.trimStackTrace == trimStackTrace && r.rerunFailingTestsCount == rerunFailingTestsCount &&
        r.xsdSchemaLocation == xsdSchemaLocation
      ensures reporter.Some? && isForkMode ==>
        fresh(reporter.value.testClassMethodRunHistory) && reporter.value.testClassMethodRunHistory.IsEmpty()
      ensures reporter.Some? && !isForkMode ==> reporter.value.testClassMethodRunHistory == testClassMethodRunHistory
    {
      var history: RunHistoryStore;
      if isForkMode {
        history := new RunHistoryStore();
      } else {
        history := testClassMethodRunHistory;
      }
      if disableXmlReport {
        reporter := None;
      } else {
        reporter := Some(StatelessXmlReporter(ResolveReportsDirectory(forkNumber), reportNameSuffix, trimStackTrace,
                                              rerunFailingTestsCount, history, xsdSchemaLocation));
      }
    }

    /** The report format is one of the two line-oriented ones; a null format is neither. */
    predicate IsBriefOrPlainFormat()
      ensures IsBriefOrPlainFormat() <==> reportFormat.Some? && (reportFormat.value == BRIEF || reportFormat.value == PLAIN)
    {
      reportFormat == Some(BRIEF) || reportFormat == Some(PLAIN)
    }

    /**
     * The plain-text file reporter for a fork: present exactly when file output
     * is on and the format is brief or plain, writing in the configured encoding.
     */
    function InstantiateFileReporter(forkNumber: Option<int>): (reporter: Option<FileReporter>)
      ensures reporter.Some? <==> useFile && (reportFormat == Some(BRIEF) || reportFormat == Some(PLAIN))
      ensures reporter.Some? ==>
        reporter.value.reportsDirectory == ResolveReportsDirectory(forkNumber) &&
        reporter.value.reportNameSuffix == reportNameSuffix && reporter.value.encoding == encoding
    {
      if useFile && IsBriefOrPlainFormat()
      then Some(FileReporter(ResolveReportsDirectory(forkNumber), reportNameSuffix, encoding))
      else None
    }

    /**
     * Where a fork's test output goes: to a file reporter for that fork when
     * output is redirected to files, otherwise straight to the System.out and
     * System.err that were current when this configuration was constructed.
     */
    function InstantiateConsoleOutputFileReporter(forkNumber: Option<int>): (receiver: TestcycleConsoleOutputReceiver)
      ensures receiver.ConsoleOutputFileReporter? <==> redirectTestOutputToFile
      ensures receiver.ConsoleOutputFileReporter? ==>
        receiver.reportsDirectory == ResolveReportsDirectory(forkNumber) &&
        receiver.reportNameSuffix == reportNameSuffix && receiver.forkNumber == forkNumber
      ensures receiver.DirectConsoleOutput? ==> receiver.out == originalSystemOut && receiver.err == originalSystemErr
    {
      if redirectTestOutputToFile
      then ConsoleOutputFileReporter(ResolveReportsDirectory(forkNumber), reportNameSuffix, forkNumber)
      else DirectConsoleOutput(originalSystemOut, originalSystemErr)
    }

    /**
     * The statistics reporter of the run: null when run history is not
     * required; otherwise created on the first call for the statistics file
     * and the same instance on every later call.
     */
    method GetStatisticsReporter() returns (reporter: StatisticsReporter?)
      requires Valid()
      modifies this`statisticsReporter
      ensures Valid() && statisticsReporter == reporter
      ensures reporter != null <==> requiresRunHistory
      ensures reporter != null ==> reporter.statisticsFile == statisticsFile
      ensures old(statisticsReporter) != null ==> reporter == old(statisticsReporter)
      ensures old(statisticsReporter) == null && reporter != null ==> fresh(reporter)
    {
      if statisticsReporter == null {
        if requiresRunHistory {
          statisticsReporter := new StatisticsReporter(statisticsFile);
        } else {
          statisticsReporter := null;
        }
      }
      reporter := statisticsReporter;
    }
  }
}
