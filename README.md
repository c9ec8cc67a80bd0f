# StartupReportConfiguration, modelled in Dafny

Maven Surefire builds one `StartupReportConfiguration` per run from the plugin's
settings. Its factory methods decide, for each fork, which reporters exist and
where they write: the XML reporter, the plain-text file reporter, and the receiver
of the tests' console output. They also decide which run-history store the XML
reporter is handed. In fork mode every call allocates a new, empty store, so forks
that reuse the same suite and class names (TestNG's `TestSuite`, for one) never mix
their histories. Outside fork mode, every call hands out the one store the
configuration owns, so reruns seen by parallel threads accumulate in one place.
The object also creates one statistics reporter lazily and memoizes it.

Files:

- `wrappers.dfy`: `Option`, which stands for a Java reference that may be null.
- `string_utils.dfy` (module `StringUtils`): `String.trim` and commons-lang3
  `StringUtils.trimToNull`, which the constructor uses to read the encoding setting.
  `Trim` is computed from two index scans and is characterised independently by
  `KeptBetween` and `IsTrimOf`: the kept piece has only trimmable characters around it
  and is empty or starts and ends with a kept character. `Trim` is shown to be the
  only result with that property.
- `reporters.dfy` (module `Reporters`): the collaborators, as records of their
  constructor arguments. `RunHistoryStore`, `StatisticsReporter`, `PrintStream` and
  `StandardStreams` (System.out/System.err) are classes, because their identity matters.
- `startup_report_configuration.dfy` (module `Surefire`): the class itself. Every
  `final` field is a `const`, and `statisticsReporter` is the only `var`.
  `InstantiateStatelessXmlReporter` and `GetStatisticsReporter` are methods because
  they allocate or assign. The other factories are functions of the immutable fields.
- `scenarios.dfy` (module `Scenarios`): callers that use only the contracts above.
  They show fork isolation and in-process sharing of run history, one directory per
  fork, memoization, and output reaching the captured streams.

Each getter (`isUseFile`, `isPrintSummary`, `getReportFormat`, `getReportNameSuffix`,
`isRedirectTestOutputToFile`, `isDisableXmlReport`, `getReportsDirectory`,
`getRerunFailingTestsCount`, `getStatisticsFile`, `isTrimStackTrace`,
`isRequiresRunHistory`, `getOriginalSystemOut`, `getXsdSchemaLocation`,
`getEncoding`, `isForkMode`) is the `const` field of the same name. The constructor's
contract says what each field holds.

`RunHistoryStore.Append` and `RunHistoryStore.History` stand for what an XML reporter
does with the store it holds. The scenarios use them to make sharing and isolation
observable.

## Model

| member | source | states |
|---|---|---|
| `StringUtils.Trim` | maven-surefire-common/src/main/java/org/apache/maven/plugin/surefire/StartupReportConfiguration.java:109 | the result is the input with its leading and trailing characters up to U+0020 removed: a contiguous piece with only such characters around it, empty or starting and ending with a kept character |
| `StringUtils.TrimIsUnique` | maven-surefire-common/src/main/java/org/apache/maven/plugin/surefire/StartupReportConfiguration.java:109 | any string that is the input with its surrounding whitespace removed, in the sense of `IsTrimOf`, equals `Trim` of the input |
| `StringUtils.TrimmedEnds` | maven-surefire-common/src/main/java/org/apache/maven/plugin/surefire/StartupReportConfiguration.java:109 | the trimmed string is empty exactly when the input is only whitespace, and otherwise has no whitespace at either end |
| `StringUtils.TrimIdempotent` | maven-surefire-common/src/main/java/org/apache/maven/plugin/surefire/StartupReportConfiguration.java:109 | trimming an already trimmed string changes nothing |
| `StringUtils.TrimToNull` | maven-surefire-common/src/main/java/org/apache/maven/plugin/surefire/StartupReportConfiguration.java:109 | null exactly when the input is null or only whitespace; otherwise the non-empty input with its surrounding whitespace removed, which has no whitespace at either end |
| `Surefire.SelectEncoding` | maven-surefire-common/src/main/java/org/apache/maven/plugin/surefire/StartupReportConfiguration.java:109-110 | the platform default charset exactly when the setting is null or only whitespace; otherwise the charset named by the setting without its surrounding whitespace |
| `Surefire.SelectEncodingIgnoresSurroundingWhitespace` | maven-surefire-common/src/main/java/org/apache/maven/plugin/surefire/StartupReportConfiguration.java:109-110 | an encoding setting and the same setting trimmed select the same charset |
| `Surefire.StartupReportConfiguration.constructor` | maven-surefire-common/src/main/java/org/apache/maven/plugin/surefire/StartupReportConfiguration.java:79-112 | every setting is kept as given; the System.out and System.err current at construction are captured; the encoding is chosen as `SelectEncoding` says; the owned run-history store is new and empty; no statistics reporter exists yet |
| `Surefire.StartupReportConfiguration.ResolveReportsDirectory` | maven-surefire-common/src/main/java/org/apache/maven/plugin/surefire/StartupReportConfiguration.java:238-241 | with no fork number, the configured reports directory unchanged; with fork number n, the fork-thread substitution of n into that directory |
| `Surefire.StartupReportConfiguration.InstantiateStatelessXmlReporter` | maven-surefire-common/src/main/java/org/apache/maven/plugin/surefire/StartupReportConfiguration.java:154-172 | callers pass a fork number only in fork mode; the result is null exactly when XML reports are disabled; otherwise the reporter writes to the fork's resolved directory with the configured suffix, stack-trace trimming, rerun count and schema location; in fork mode its store is newly allocated and empty (so distinct from the configuration's and from every earlier reporter's), otherwise it is the configuration's own store |
| `Surefire.StartupReportConfiguration.IsBriefOrPlainFormat` | maven-surefire-common/src/main/java/org/apache/maven/plugin/surefire/StartupReportConfiguration.java:181-185 | true exactly when the report format is non-null and equals "brief" or "plain"; a null format and every other format are neither |
| `Surefire.StartupReportConfiguration.InstantiateFileReporter` | maven-surefire-common/src/main/java/org/apache/maven/plugin/surefire/StartupReportConfiguration.java:174-185 | a file reporter exists exactly when file output is on and the format is "brief" or "plain" (never for a null format); it writes to the fork's resolved directory with the configured suffix and encoding |
| `Surefire.StartupReportConfiguration.InstantiateConsoleOutputFileReporter` | maven-surefire-common/src/main/java/org/apache/maven/plugin/surefire/StartupReportConfiguration.java:187-192 | a file-backed receiver exactly when output is redirected to files, bound to the fork's resolved directory, the suffix and the same fork number; otherwise a direct receiver holding the streams captured at construction |
| `Surefire.StartupReportConfiguration.GetStatisticsReporter` | maven-surefire-common/src/main/java/org/apache/maven/plugin/surefire/StartupReportConfiguration.java:194-201 | null exactly when run history is not required; otherwise a reporter for the statistics file, newly created on the first call and the same instance on every later call; it is the only field that changes |
| `Scenarios.ForkReportersAreIsolated` | maven-surefire-common/src/main/java/org/apache/maven/plugin/surefire/StartupReportConfiguration.java:159-166 | in fork mode two XML reporters, even for the same fork number, hold different stores, neither of them the configuration's; an attempt recorded through one is not visible through the other |
| `Scenarios.InProcessReportersShareHistory` | maven-surefire-common/src/main/java/org/apache/maven/plugin/surefire/StartupReportConfiguration.java:161-166 | outside fork mode both XML reporters hold the configuration's store, and an attempt recorded through the first is appended to the history the second sees |
| `Scenarios.ReportersOfOneForkShareDirectory` | maven-surefire-common/src/main/java/org/apache/maven/plugin/surefire/StartupReportConfiguration.java:168-192 | the XML, file and file-backed console reporters of one fork all write to one directory, which is the configured one when there is no fork number, and they share one name suffix |
| `Scenarios.StatisticsReporterIsMemoized` | maven-surefire-common/src/main/java/org/apache/maven/plugin/surefire/StartupReportConfiguration.java:194-201 | two successive calls return the same reporter, which is non-null exactly when run history is required |
| `Scenarios.OutputReachesCapturedStreams` | maven-surefire-common/src/main/java/org/apache/maven/plugin/surefire/StartupReportConfiguration.java:105-106 | for every setting and every fork number, after the process replaces System.out and System.err, a configuration built before the replacement with output not redirected to files still sends test output to the original streams |

## Left out

- `SurefireHelper.replaceForkThreadsInPath` is not part of this model. The configuration receives it as a function-valued constructor argument, and nothing is assumed about the substitution it performs.
- `ConsoleReporter` is not part of this model. `BRIEF` and `PLAIN` are taken to be the strings "brief" and "plain".
- The `assert forkNumber == null || isForkMode` in `instantiateStatelessXmlReporter` is a precondition here. The code checks only that direction, and only when JVM assertions are on. A fork-mode call without a fork number is allowed, as in the code.
- `Charset.forName` and `Charset.defaultCharset`: a charset is recorded as "platform default" or "named N". The exceptions `forName` throws for an illegal or unsupported name, and the alias resolution it performs, are not modelled.
- Java null for strings that are only passed through (`reportNameSuffix`, `xsdSchemaLocation`, `statisticsFile`) is not distinguished from a string. Only `reportFormat` and `encoding`, whose nullness the code examines, are `Option`s. `reportsDirectory` is non-null in the source.
- `isForkMode` is not `final` in the source, but nothing assigns it after construction, so it is a `const` here.
- `synchronized` on `getStatisticsReporter` and the thread-safety of `ConcurrentHashMap`: calls are modelled one after another. Sharing and isolation are captured by object identity only.
- The reporters' own behaviour (`StatelessXmlReporter`, `FileReporter`, `ConsoleOutputFileReporter`, `DirectConsoleOutput`, `StatisticsReporter`): each is a record of its constructor arguments. How the run history is filled and read (attempt counts, merging reruns) belongs to them. `RunHistoryStore.Append` only stands for that.
- `PrintStream` and `File` semantics: a stream is an object with identity only, and a file is its path.
- `StdOutAdapter`, which only forwards each line to `StdOutStreamLine.handleLine`, and the integration-test fixture `SurefireVerifierTestClass2`, which unpacks projects and launches Maven.
- Fork numbers and the rerun count are Java `int`s. They are only passed on, never computed with, so no 32-bit wrap-around arises.
