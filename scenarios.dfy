/**
 * Callers of StartupReportConfiguration, showing what they can rely on from
 * its contracts alone: fork isolation and in-process sharing of run history,
 * one resolved directory per fork, the memoized statistics reporter, and test
 * output that still reaches the streams captured at construction.
 */
module Scenarios {
  import opened Wrappers
  import opened Reporters
  import opened Surefire

  /**
   * Two XML reporters of a forking run, even for the same fork number, never
   * share a store, nor use the configuration's own: an attempt recorded through
   * the first is not seen through the second.
   */
  method ForkReportersAreIsolated(c: StartupReportConfiguration, fork1: int, fork2: int,
                                  testClass: string, testMethod: string, entry: WrappedReportEntry)
    returns (first: Option<StatelessXmlReporter>, second: Option<StatelessXmlReporter>)
    requires c.isForkMode
    ensures first.Some? <==> !c.disableXmlReport
    ensures second.Some? <==> !c.disableXmlReport
    ensures first.Some? && second.Some? ==>
      var h1, h2 := first.value.testClassMethodRunHistory, second.value.testClassMethodRunHistory;
      h1 != h2 && h1 != c.testClassMethodRunHistory && h2 != c.testClassMethodRunHistory &&
      h1.History(testClass, testMethod) == [entry] && h2.History(testClass, testMethod) == []
  {
    first := c.InstantiateStatelessXmlReporter(Some(fork1));
    second := c.InstantiateStatelessXmlReporter(Some(fork2));
    if first.Some? && second.Some? {
      first.value.testClassMethodRunHistory.Append(testClass, testMethod, entry);
    }
  }

  /**
   * Outside fork mode every XML reporter writes into the configuration's one
   * store, so an attempt recorded through one reporter is part of the history
   * the next reporter sees.
   */
  method InProcessReportersShareHistory(c: StartupReportConfiguration,
                                        testClass: string, testMethod: string, entry: WrappedReportEntry)
    returns (first: Option<StatelessXmlReporter>, second: Option<StatelessXmlReporter>)
    requires !c.isForkMode
    modifies c.testClassMethodRunHistory
    ensures first.Some? <==> !c.disableXmlReport
    ensures second.Some? <==> !c.disableXmlReport
    ensures first.Some? && second.Some? ==>
      first.value.testClassMethodRunHistory == c.testClassMethodRunHistory &&
      second.value.testClassMethodRunHistory == c.testClassMethodRunHistory &&
      second.value.testClassMethodRunHistory.History(testClass, testMethod)
        == old(c.testClassMethodRunHistory.History(testClass, testMethod)) + [entry]
  {
    first := c.InstantiateStatelessXmlReporter(None);
    second := c.InstantiateStatelessXmlReporter(None);
    if first.Some? && second.Some? {
      first.value.testClassMethodRunHistory.Append(testClass, testMethod, entry);
    }
  }

  /**
   * The XML, file and console-output reporters of one fork all write to the
   * same directory, the configured one when there is no fork number, with the
   * same name suffix.
   */
  method ReportersOfOneForkShareDirectory(c: StartupReportConfiguration, forkNumber: Option<int>)
    returns (xml: Option<StatelessXmlReporter>, file: Option<FileReporter>, output: TestcycleConsoleOutputReceiver)
    requires forkNumber.None? || c.isForkMode
    ensures
      var directory := if forkNumber.None? then c.reportsDirectory
                       else c.replaceForkThreadsInPath(c.reportsDirectory, forkNumber.value);
      (xml.Some? ==> xml.value.reportsDirectory == directory && xml.value.reportNameSuffix == c.reportNameSuffix) &&
      (file.Some? ==> file.value.reportsDirectory == directory && file.value.reportNameSuffix == c.reportNameSuffix) &&
      (output.ConsoleOutputFileReporter? ==>
         output.reportsDirectory == directory && output.reportNameSuffix == c.reportNameSuffix)
  {
    xml := c.InstantiateStatelessXmlReporter(forkNumber);
    file := c.InstantiateFileReporter(forkNumber);
    output := c.InstantiateConsoleOutputFileReporter(forkNumber);
  }

  /** Two successive calls of GetStatisticsReporter return the same reporter (or both null). */
  method StatisticsReporterIsMemoized(c: StartupReportConfiguration)
    returns (first: StatisticsReporter?, second: StatisticsReporter?)
    requires c.Valid()
    modifies c`statisticsReporter
    ensures c.Valid()
    ensures first == second
    ensures first != null <==> c.requiresRunHistory
  {
    first := c.GetStatisticsReporter();
    second := c.GetStatisticsReporter();
  }

  /**
   * Test output not redirected to files goes to the System.out and System.err
   * current when the configuration was built, even after the process has
   * replaced its standard streams, whatever the other settings and the fork.
   */
  method OutputReachesCapturedStreams(useFile: bool, printSummary: bool, reportFormat: Option<string>,
                                      disableXmlReport: bool, reportsDirectory: File, trimStackTrace: bool,
                                      reportNameSuffix: string, statisticsFile: File, requiresRunHistory: bool,
                                      rerunFailingTestsCount: int, xsdSchemaLocation: string,
                                      encoding: Option<string>, isForkMode: bool,
                                      system: StandardStreams, replaceForkThreadsInPath: (File, int) -> File,
                                      replacementOut: PrintStream, replacementErr: PrintStream,
                                      forkNumber: Option<int>)
    returns (receiver: TestcycleConsoleOutputReceiver)
    modifies system
    ensures system.out == replacementOut && system.err == replacementErr
    ensures receiver == DirectConsoleOutput(old(system.out), old(system.err))
  {
    var c := new StartupReportConfiguration(useFile, printSummary, reportFormat, false, disableXmlReport,
                                            reportsDirectory, trimStackTrace, reportNameSuffix, statisticsFile,
                                            requiresRunHistory, rerunFailingTestsCount, xsdSchemaLocation,
                                            encoding, isForkMode, system, replaceForkThreadsInPath);
    system.SetOut(replacementOut);
    system.SetErr(replacementErr);
    receiver := c.InstantiateConsoleOutputFileReporter(forkNumber);
  }
}
