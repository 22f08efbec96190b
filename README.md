# rotest_reportportal in Dafny

A model of the Report Portal result handler for the Rotest test framework
(`rotest_reportportal/__init__.py`). The handler receives the test runner's
callbacks (run start and stop, composite start and stop, test start, one
callback per test outcome) and turns each into a fixed short sequence of
calls on the Report Portal service. While a test runs, it registers a log
handler on Rotest's core logger, so that log records are forwarded to the
service as well.

The service is modelled as the trace of calls made on it (`Remote.Service`,
`Remote.Call`). The result handler and the log handler share one `Service`
object, as they share one connection in the code. The result handler is a
class whose `attached` field says whether its log handler is registered on
the core logger. Each callback is a method whose postcondition gives the
exact calls it appends and the new value of `attached`. The decisions behind
those calls are pure functions, and the lemmas are proved about them:

- the launch name, mode and description;
- a started test's description, with its mode label;
- the status and issue of each outcome;
- the comment taken from an exception text;
- the log-level conversion;
- the configuration checks.

Modules:

- `Common`: Option, Result and Outcome wrappers.
- `Comments`: Python's `split("\n")`, its inverse `"\n".join`, and the last-non-empty-line comment.
- `Levels`: `LOGGING_LEVEL_CONVERSION`.
- `Configuration`: the checks of `get_configuration` over a parsed file and an environment given as maps.
- `Remote`: the service's calls and the trace they form.
- `TestItems`: the test objects as the handler reads them; launch and description derivation.
- `Outcomes`: what each `add_*` callback sends.
- `Handlers`: `ReportPortalLogHandler` (`LogHandler`), `ReportPortalHandler` and its construction.

Facts about the code that the model keeps:

- Each `add_*` callback finishes the item itself, so two callbacks on one test finish it twice (`Outcomes.FinishPerCallback`).
- No callback files a `TO_INVESTIGATE` issue.
- The launch description is `TagsHandler.TAGS_PATTERN` when that is set, and the main test's docstring only otherwise.
- Only a TestBlock gets the mode label. A block's missing short description is rendered as `None`, as `str.format` does.

## Model

| member | source | states |
|---|---|---|
| Comments.Split | rotest_reportportal/__init__.py:230 | `split("\n")` gives at least one piece, and no piece contains a line break |
| Comments.JoinSplit | rotest_reportportal/__init__.py:230 | joining the pieces with line breaks gives the exception text back: the split loses nothing |
| Comments.SplitJoin | rotest_reportportal/__init__.py:230 | splitting the join of separator-free pieces gives exactly those pieces |
| Comments.AllPiecesEmpty | rotest_reportportal/__init__.py:230 | every piece is empty exactly when the text consists of line breaks only |
| Comments.NonEmptyLines | rotest_reportportal/__init__.py:230 | the `if line` filter keeps a line exactly when it is one of the lines and is not empty (so whitespace-only lines are kept), and keeps none exactly when every line is empty |
| Comments.LastKeptIsLastNonEmpty | rotest_reportportal/__init__.py:230 | the last kept line is a piece of the split followed only by empty pieces |
| Comments.Reason | rotest_reportportal/__init__.py:239 | no comment (the IndexError) exactly when the text is only line breaks; otherwise the comment is non-empty, has no line break, and is the last non-empty piece of the split |
| Comments.ReasonOfJoined | rotest_reportportal/__init__.py:239 | for any separator-free pieces, the comment of their join is the last non-empty piece |
| Comments.TracebackComment | rotest_reportportal/__init__.py:227-234 | a traceback ending in `AssertionError: x != y` is commented with that line |
| Comments.TrailingAndBlankLines | rotest_reportportal/__init__.py:236-243 | trailing line breaks are skipped; a whitespace-only last line is kept as the comment |
| Levels.Convert | rotest_reportportal/__init__.py:71-77 | the lookup succeeds exactly for the five standard level numbers; ERROR is produced exactly from ERROR and CRITICAL |
| Levels.ConversionTable | rotest_reportportal/__init__.py:71-77 | DEBUG→DEBUG, INFO→INFO, WARNING→WARN, ERROR→ERROR, CRITICAL→ERROR, with their wire names |
| Levels.Canonical | rotest_reportportal/__init__.py:71-77 | every Report Portal level stands for a standard Python level other than CRITICAL |
| Levels.ConvertCanonical | rotest_reportportal/__init__.py:71-77 | every Report Portal level is produced, from its canonical Python level |
| Levels.ConvertMonotone | rotest_reportportal/__init__.py:71-77 | the conversion never reorders severities |
| Levels.OnlyErrorAndCriticalMerge | rotest_reportportal/__init__.py:71-77 | ERROR and CRITICAL are the only two levels collapsed into one |
| Configuration.GetConfiguration | rotest_reportportal/__init__.py:36-49 | the result is a configuration exactly when the `reportportal` section and `ROTEST_REPORTPORTAL_TOKEN` are both present; a missing section is the first error, with the file and its content; otherwise a missing `ROTEST_REPORTPORTAL_TOKEN` is the second; a configuration is the section with `token` set to the environment's value and every other key unchanged |
| Configuration.TokenOnlyFromEnvironment | rotest_reportportal/__init__.py:42-49 | a `token` written in the file never changes the result |
| Configuration.MessagesDistinct | rotest_reportportal/__init__.py:36-47 | the two configuration errors have different messages |
| Configuration.Message | rotest_reportportal/__init__.py:36-47 | the missing-section message opens with its fixed text, names the file and ends with the file's content; the missing-token message opens with its fixed text, names the variable and closes with " in order to access Report Portal" |
| TestItems.LeafDescription | rotest_reportportal/__init__.py:152-160 | a case's description is its short description, a flow's its docstring; a block's reads back as its mode and its short description |
| TestItems.ModeLabel | rotest_reportportal/__init__.py:112-114 | `MODE_TO_STRING`: each label is "Critical", "Optional" or "Finally" exactly for its own mode, and no label is empty or contains the bar character |
| TestItems.Formatted | rotest_reportportal/__init__.py:159-160 | `str.format` renders a present description as itself and a missing one as "None" |
| TestItems.UnlabelLabelled | rotest_reportportal/__init__.py:112-114 | the three mode labels are told apart: mode and text are recovered from a labelled description |
| TestItems.CriticalBlockDescription | rotest_reportportal/__init__.py:158-160 | a critical block whose short description is "Block documentation." gets that text behind the Critical label, as in the example of the test suite |
| TestItems.LaunchNameAndMode | rotest_reportportal/__init__.py:130-134 | mode is DEFAULT exactly when a non-empty run name is given, and the name is then that run name; otherwise DEBUG with the main test's class name |
| TestItems.LaunchDescription | rotest_reportportal/__init__.py:136-138 | the tags pattern when it is set, the main test's docstring otherwise |
| Outcomes.Verdict | rotest_reportportal/__init__.py:213-260 | raises exactly for a failure or error text without a non-empty line; PASSED exactly for success and expected failure; SKIPPED exactly for a skip; an issue exactly for skip, failure and error |
| Outcomes.ClassificationTable | rotest_reportportal/__init__.py:213-260 | the status and issue of each of the six callbacks |
| Outcomes.FailureComment | rotest_reportportal/__init__.py:227-243 | a failure is a product bug and an error an automation bug, commented with the last non-empty line of the exception text |
| Outcomes.OutcomeCalls | rotest_reportportal/__init__.py:213-260 | a callback makes no call exactly when it raises |
| Outcomes.OneFinishPerOutcome | rotest_reportportal/__init__.py:251-260 | each completing callback finishes the item exactly once, as its last call; only the unexpected success logs, one ERROR line before the FAILED finish |
| Outcomes.FinishPerCallback | rotest_reportportal/__init__.py:213-260 | several callbacks on one test finish it once per callback |
| Outcomes.SkippedScenario | rotest_reportportal/__init__.py:219-225 | a skip is finished SKIPPED with the reason verbatim as a NO_DEFECT comment |
| Outcomes.FailedScenario | rotest_reportportal/__init__.py:227-234 | a failed assertion is finished FAILED as a PRODUCT_BUG commented with its summary line |
| Handlers.WorkDirMessage | rotest_reportportal/__init__.py:170-173 | the work-directory message splits into the line "work dir:" and the work directory, for a directory path without a line break |
| Handlers.LogHandler.constructor | rotest_reportportal/__init__.py:79-82 | the log handler writes to the given service and has reported no error |
| Handlers.LogHandler.Emit | rotest_reportportal/__init__.py:84-96 | a record of a standard level appends exactly one log call with the bare message and the converted level; any other level sends nothing, is reported to `handleError` and raises |
| Handlers.ReportPortalHandler.constructor | rotest_reportportal/__init__.py:116-126 | the handler starts detached, with a log handler on its own service |
| Handlers.Create | rotest_reportportal/__init__.py:116-126 | a configuration error or a missing endpoint or project stops construction; otherwise a fresh service with the configured endpoint, project and environment token and no calls made yet, and a fresh, detached log handler that has reported nothing |
| Handlers.ReportPortalHandler.StartTestRun | rotest_reportportal/__init__.py:128-144 | appends exactly one launch start with the derived name, description and mode |
| Handlers.ReportPortalHandler.StartTest | rotest_reportportal/__init__.py:146-173 | appends a STEP item start with the test's name, description and tags, then one INFO log of the work directory; the log handler is attached afterwards |
| Handlers.ReportPortalHandler.StartComposite | rotest_reportportal/__init__.py:175-189 | nothing for the main test; otherwise one Suite item start with the docstring and tags |
| Handlers.ReportPortalHandler.StopComposite | rotest_reportportal/__init__.py:191-206 | nothing for the main test; otherwise one finish without issue, PASSED exactly when the composite succeeded, FAILED otherwise |
| Handlers.ReportPortalHandler.StopTestRun | rotest_reportportal/__init__.py:208-211 | appends exactly the launch finish, then the terminate call |
| Handlers.ReportPortalHandler.AddSuccess | rotest_reportportal/__init__.py:213-217 | detaches the log handler and appends the success's calls |
| Handlers.ReportPortalHandler.AddSkip | rotest_reportportal/__init__.py:219-225 | detaches the log handler and appends the skip's calls |
| Handlers.ReportPortalHandler.AddFailure | rotest_reportportal/__init__.py:227-234 | detaches the log handler; raises with nothing sent exactly when the text has no non-empty line, otherwise appends the failure's calls |
| Handlers.ReportPortalHandler.AddError | rotest_reportportal/__init__.py:236-243 | detaches the log handler; raises with nothing sent exactly when the text has no non-empty line, otherwise appends the error's calls |
| Handlers.ReportPortalHandler.AddExpectedFailure | rotest_reportportal/__init__.py:245-249 | detaches the log handler and appends the expected failure's calls |
| Handlers.ReportPortalHandler.AddUnexpectedSuccess | rotest_reportportal/__init__.py:251-260 | detaches the log handler and appends the error log line and then the FAILED finish |
| Handlers.ReportPortalHandler.CoreLog | rotest_reportportal/__init__.py:53-63 | a record is forwarded through the log handler while it is attached, and nothing is sent while it is not |

## Left out

- Timestamps (`timestamp()`): they read the wall clock, so the calls carry none.
- The service library (`ReportPortalServiceAsync`): its queueing, transport and failures are not modelled. Only the calls made on it are kept, as a trace.
- The file and environment reading of `get_configuration` (`search_config_file`, `open`, `yaml.load`, `os.environ`): the parsed file and the environment are parameters. Only a file whose sections map names to strings is representable.
- Configuration.Message: Python's rendering of the parsed content is a parameter, not Python's `str` of a dict.
- The core logger and Python's logging machinery: registration is one boolean. The logger's and handler's level filtering, other handlers, the formatter (taken as the identity on the message) and the output of `handleError` (recorded only as the list of reported records) are not modelled.
- Handlers.LogHandler.Emit: KeyboardInterrupt and SystemExit pass through unchanged in the code. They can only come from the foreign formatter or service, so the model has no source of them.
- Rotest's own lookups (`shortDescription()`, `data.name`, `__doc__`, `TAGS`, `isinstance` against TestFlow and TestBlock, `os.path.abspath`, `TagsHandler.TAGS_PATTERN`): these are fields of `TestItems.TestNode` or parameters.
- A block mode outside the three constants cannot be represented. In the code it would raise a KeyError in `MODE_TO_STRING`.
- `data.success` is a boolean. A `None` there takes the same FAILED branch as `False`.
- Comparing a test with the main test is object identity, modelled by `TestNode.id`.
- `setup.py`: packaging metadata only.
