/**
 * The collaborators StartupReportConfiguration builds or hands out. Their own
 * behaviour is not part of this model: each reporter is a record of the
 * arguments it was constructed with, and the objects whose identity matters
 * (the run-history store, the statistics reporter, the standard streams) are
 * classes so that sharing and freshness can be stated.
 */
module Reporters {
  import opened Wrappers

  /** A java.io.File, reduced to its path. */
  type File = string

  /**
   * The java.nio.charset.Charset the configuration chose: the platform default
   * (Charset.defaultCharset()) or the one looked up by name (Charset.forName).
   */
  datatype Charset = PlatformDefault | Named(name: string)

  /** One recorded attempt of a test; its contents are produced by the reporters. */
  type WrappedReportEntry(==)

  /**
   * The run history handed to an XML reporter: qualified class name to method
   * name to the attempts recorded for that test, first attempt first
   * (Map<String, Map<String, List<WrappedReportEntry>>> in the source).
   */
  class RunHistoryStore {
    var runHistory: map<string, map<string, seq<WrappedReportEntry>>>

    /** A new ConcurrentHashMap: no test has any recorded attempt. */
    constructor ()
      ensures IsEmpty()
    {
      runHistory := map[];
    }

    predicate IsEmpty()
      reads this
    {
      runHistory == map[]
    }

    /** The attempts recorded for one test, or none. */
    function History(testClass: string, testMethod: string): (h: seq<WrappedReportEntry>)
      reads this
    {
      if testClass in runHistory && testMethod in runHistory[testClass]
      then runHistory[testClass][testMethod]
      else []
    }

    /**
     * What a reporter does with the store once it holds it: append one attempt
     * to a test's history and leave every other test's history as it was.
     */
    method Append(testClass: string, testMethod: string, entry: WrappedReportEntry)
      modifies this
      ensures History(testClass, testMethod) == old(History(testClass, testMethod)) + [entry]
      ensures forall c, m :: (c, m) != (testClass, testMethod) ==> History(c, m) == old(History(c, m))
    {
      var methods := if testClass in runHistory then runHistory[testClass] else map[];
      runHistory := runHistory[testClass := methods[testMethod := History(testClass, testMethod) + [entry]]];
    }
  }

  /** The run-order statistics reporter; only its identity and its file matter here. */
  class StatisticsReporter {
    const statisticsFile: File

    constructor (statisticsFile: File)
      ensures this.statisticsFile == statisticsFile
    {
      this.statisticsFile := statisticsFile;
    }
  }

  /** A java.io.PrintStream; only its identity matters here. */
  class PrintStream {
    constructor () { }
  }

  /** System.out and System.err, which System.setOut and System.setErr replace. */
  class StandardStreams {
    var out: PrintStream
    var err: PrintStream

    constructor (out: PrintStream, err: PrintStream)
      ensures this.out == out && this.err == err
    {
      this.out := out;
      this.err := err;
    }

    method SetOut(stream: PrintStream)
      modifies this
      ensures out == stream && err == old(err)
    {
      out := stream;
    }

    method SetErr(stream: PrintStream)
      modifies this
      ensures err == stream && out == old(out)
    {
      err := stream;
    }
  }

  /** new StatelessXmlReporter(reportsDirectory, reportNameSuffix, trimStackTrace, rerunFailingTestsCount, testClassMethodRunHistory, xsdSchemaLocation) */
  datatype StatelessXmlReporter = StatelessXmlReporter(
    reportsDirectory: File,
    reportNameSuffix: string,
    trimStackTrace: bool,
    rerunFailingTestsCount: int,
    testClassMethodRunHistory: RunHistoryStore,
    xsdSchemaLocation: string)

  /** new FileReporter(reportsDirectory, reportNameSuffix, encoding) */
  datatype FileReporter = FileReporter(reportsDirectory: File, reportNameSuffix: string, encoding: Charset)

  /** The two TestcycleConsoleOutputReceiver implementations the configuration builds. */
  datatype TestcycleConsoleOutputReceiver =
    | ConsoleOutputFileReporter(reportsDirectory: File, reportNameSuffix: string, forkNumber: Option<int>)
    | DirectConsoleOutput(out: PrintStream, err: PrintStream)
}
