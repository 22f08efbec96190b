/**
 * `ReportPortalLogHandler` and `ReportPortalHandler`: the two objects that
 * share one service connection. The result handler reacts to the runner's
 * callbacks and registers the log handler on the core logger while a test
 * runs; `attached` stands for that registration.
 */
module Handlers {
  import opened Common
  import opened Comments
  import Levels
  import Configuration
  import opened Remote
  import opened TestItems
  import opened Outcomes

  /** A log record, reduced to its level number and its formatted message. */
  datatype LogRecord = LogRecord(levelno: int, message: string)

  /** The KeyError of the level lookup, re-raised by `emit`. */
  datatype EmitError = UnknownLevel(levelno: int)

  /** The IndexError of the comment extraction in `add_failure` and `add_error`. */
  datatype HandlerError = NoReasonLine(exceptionString: string)

  /** Why a result handler could not be built. */
  datatype SetupError =
    | InvalidConfiguration(error: Configuration.ConfigError)
    | MissingSetting(key: string)

  /**
   * The informational line logged when a test starts: a heading line, then
   * the work directory on a line of its own.
   */
  function WorkDirMessage(workDir: string): (message: string)
    ensures NoNewline(workDir) ==> Split(message) == ["work dir:", workDir]
  {
    var message := "work dir:\n" + workDir;
    if NoNewline(workDir) then
      assert NoNewline("work dir:");
      SplitJoin(["work dir:", workDir]);
      assert Join(["work dir:", workDir]) == message;
      message
    else
      message
  }

  /** Sends every record it is given to the service as a log call. */
  class LogHandler {
    const service: Service
    /** The records passed to `handleError`, oldest first. */
    var reported: seq<LogRecord>

    constructor(service: Service)
      ensures this.service == service && reported == []
    {
      this.service := service;
      reported := [];
    }

    /**
     * Logs the record's message at its converted level; a record of any
     * other level is reported through `handleError` and the error re-raised,
     * with nothing sent.
     */
    method Emit(record: LogRecord) returns (r: Outcome<EmitError>)
      modifies this, service
      ensures Levels.Convert(record.levelno).Some? ==>
        && r == Pass
        && service.calls == old(service.calls) + [Log(record.message, Levels.Convert(record.levelno).value)]
        && reported == old(reported)
      ensures Levels.Convert(record.levelno).None? ==>
        && r == Fail(UnknownLevel(record.levelno))
        && service.calls == old(service.calls)
        && reported == old(reported) + [record]
    {
      var message := record.message;
      var level := Levels.Convert(record.levelno);
      if level.None? {
        reported := reported + [record];
        return Fail(UnknownLevel(record.levelno));
      }
      service.Log(message, level.value);
      r := Pass;
    }
  }

  /** Reports a run's launch, suites, tests and results to the service. */
  class ReportPortalHandler {
    const mainTest: TestNode
    const service: Service
    const logHandler: LogHandler
    /** Whether `logHandler` is registered on the core logger. */
    var attached: bool

    /** The log handler writes to this handler's service. */
    ghost predicate Valid() {
      logHandler.service == service
    }

    constructor(mainTest: TestNode, service: Service)
      ensures Valid() && fresh(logHandler)
      ensures this.mainTest == mainTest && this.service == service
      ensures !attached && logHandler.reported == []
    {
      this.mainTest := mainTest;
      this.service := service;
      logHandler := new LogHandler(service);
      attached := false;
    }

    /** `start_test_run`: starts the launch. */
    method StartTestRun(tagsPattern: Option<string>)
      modifies service
      ensures var (name, mode) := LaunchNameAndMode(mainTest.runName, mainTest.className);
        service.calls == old(service.calls) + [Call.StartLaunch(name, LaunchDescription(tagsPattern, mainTest.doc), mode)]
    {
      var runName := mainTest.runName;
      var name := if runName.Some? then runName.value else "";
      var mode := Default;
      if !Truthy(runName) {
        name := mainTest.className;
        mode := Debug;
      }
      var description := tagsPattern;
      if !Truthy(description) {
        description := mainTest.doc;
      }
      service.StartLaunch(name, description, mode);
    }

    /**
     * `start_test`: starts a STEP item, registers the log handler and logs
     * the test's work directory.
     */
    method StartTest(test: TestNode)
      modifies this, service
      ensures attached
      ensures service.calls == old(service.calls) + [
        StartItem(test.name, LeafDescription(test), test.tags, Step),
        Log(WorkDirMessage(test.workDir), Levels.Info)]
    {
      var itemType := Step;
      var description := test.shortDescription;
      if test.kind.Flow? {
        description := test.doc;
      }
      if test.kind.Block? {
        description := Some(LabelPrefix(test.kind.mode) + Formatted(description));
      }
      service.StartTestItem(test.name, description, test.tags, itemType);
      attached := true;
      service.Log(WorkDirMessage(test.workDir), Levels.Info);
    }

    /** `start_composite`: starts a Suite item, except for the main test. */
    method StartComposite(test: TestNode)
      modifies service
      ensures test.id == mainTest.id ==> service.calls == old(service.calls)
      ensures test.id != mainTest.id ==>
        service.calls == old(service.calls) + [StartItem(test.name, test.doc, test.tags, Suite)]
    {
      if test.id == mainTest.id {
        return;
      }
      service.StartTestItem(test.name, test.doc, test.tags, Suite);
    }

    /**
     * `stop_composite`: finishes the Suite item, PASSED exactly when the
     * composite succeeded; nothing for the main test.
     */
    method StopComposite(test: TestNode)
      modifies service
      ensures test.id == mainTest.id ==> service.calls == old(service.calls)
      ensures test.id != mainTest.id ==> exists status ::
        && service.calls == old(service.calls) + [FinishItem(status, None)]
        && (status == Passed <==> test.success)
        && (status == Failed <==> !test.success)
    {
      if test.id == mainTest.id {
        return;
      }
      var status;
      if test.success {
        status := Passed;
      } else {
        status := Failed;
      }
      service.FinishTestItem(status, None);
    }

    /** `stop_test_run`: finishes the launch, then closes the connection. */
    method StopTestRun()
      modifies service
      ensures service.calls == old(service.calls) + [Call.FinishLaunch, Call.Terminate]
    {
      service.FinishLaunch();
      service.Terminate();
    }

    /** `add_success`. */
    method AddSuccess(test: TestNode)
      modifies this, service
      ensures !attached
      ensures service.calls == old(service.calls) + OutcomeCalls(TestOutcome.Success).value
    {
      attached := false;
      service.FinishTestItem(Passed, None);
    }

    /** `add_skip`. */
    method AddSkip(test: TestNode, reason: string)
      modifies this, service
      ensures !attached
      ensures service.calls == old(service.calls) + OutcomeCalls(Skip(reason)).value
    {
      attached := false;
      service.FinishTestItem(Skipped, Some(Issue(NoDefect, reason)));
    }

    /** `add_failure`: raises, with nothing sent, when the text has no non-empty line. */
    method AddFailure(test: TestNode, exceptionString: string) returns (r: Outcome<HandlerError>)
      modifies this, service
      ensures !attached
      ensures r.Fail? <==> Raises(TestOutcome.Failure(exceptionString))
      ensures r.Fail? ==> r.error == NoReasonLine(exceptionString) && service.calls == old(service.calls)
      ensures r.Pass? ==> service.calls == old(service.calls) + OutcomeCalls(TestOutcome.Failure(exceptionString)).value
    {
      attached := false;
      var lines := NonEmptyLines(Split(exceptionString));
      if |lines| == 0 {
        return Fail(NoReasonLine(exceptionString));
      }
      var reason := lines[|lines| - 1];
      service.FinishTestItem(Failed, Some(Issue(ProductBug, reason)));
      r := Pass;
    }

    /** `add_error`: raises, with nothing sent, when the text has no non-empty line. */
    method AddError(test: TestNode, exceptionString: string) returns (r: Outcome<HandlerError>)
      modifies this, service
      ensures !attached
      ensures r.Fail? <==> Raises(TestOutcome.Error(exceptionString))
      ensures r.Fail? ==> r.error == NoReasonLine(exceptionString) && service.calls == old(service.calls)
      ensures r.Pass? ==> service.calls == old(service.calls) + OutcomeCalls(TestOutcome.Error(exceptionString)).value
    {
      attached := false;
      var lines := NonEmptyLines(Split(exceptionString));
      if |lines| == 0 {
        return Fail(NoReasonLine(exceptionString));
      }
      var reason := lines[|lines| - 1];
      service.FinishTestItem(Failed, Some(Issue(AutomationBug, reason)));
      r := Pass;
    }

    /** `add_expected_failure`. */
    method AddExpectedFailure(test: TestNode, exceptionString: string)
      modifies this, service
      ensures !attached
      ensures service.calls == old(service.calls) + OutcomeCalls(ExpectedFailure(exceptionString)).value
    {
      attached := false;
      service.FinishTestItem(Passed, None);
    }

    /** `add_unexpected_success`. */
    method AddUnexpectedSuccess(test: TestNode)
      modifies this, service
      ensures !attached
      ensures service.calls == old(service.calls) + OutcomeCalls(UnexpectedSuccess).value
    {
      attached := false;
      service.Log(UNEXPECTED_SUCCESS_MESSAGE, Levels.Error);
      service.FinishTestItem(Failed, None);
    }

    /**
     * A record logged on the core logger reaches the service only while the
     * log handler is registered.
     */
    method CoreLog(record: LogRecord) returns (r: Outcome<EmitError>)
      requires Valid()
      modifies service, logHandler
      ensures !attached ==>
        r == Pass && service.calls == old(service.calls) && logHandler.reported == old(logHandler.reported)
      ensures attached && Levels.Convert(record.levelno).Some? ==>
        && r == Pass
        && service.calls == old(service.calls) + [Log(record.message, Levels.Convert(record.levelno).value)]
        && logHandler.reported == old(logHandler.reported)
      ensures attached && Levels.Convert(record.levelno).None? ==>
        && r == Fail(UnknownLevel(record.levelno))
        && service.calls == old(service.calls)
        && logHandler.reported == old(logHandler.reported) + [record]
    {
      r := Pass;
      if attached {
        r := logHandler.Emit(record);
      }
    }
  }

  /**
   * `ReportPortalHandler.__init__`: reads the configuration, opens the
   * service connection with its endpoint, project and token, and builds the
   * handler with a detached log handler.
   */
  method Create(mainTest: TestNode, configFile: string, content: Configuration.Content, environ: map<string, string>)
    returns (r: Result<ReportPortalHandler, SetupError>)
    ensures var config := Configuration.GetConfiguration(configFile, content, environ);
      && (config.Err? ==> r == Err(InvalidConfiguration(config.error)))
      && (config.Ok? && "endpoint" !in config.value ==> r == Err(MissingSetting("endpoint")))
      && (config.Ok? && "endpoint" in config.value && "project" !in config.value ==> r == Err(MissingSetting("project")))
      && (config.Ok? && "endpoint" in config.value && "project" in config.value ==>
            && r.Ok? && fresh(r.value) && fresh(r.value.service) && r.value.Valid()
            && fresh(r.value.logHandler) && r.value.logHandler.reported == []
            && r.value.mainTest == mainTest && !r.value.attached
            && r.value.service.calls == []
            && r.value.service.endpoint == config.value["endpoint"]
            && r.value.service.project == config.value["project"]
            && r.value.service.token == environ[Configuration.REPORTPORTAL_TOKEN])
  {
    var config := Configuration.GetConfiguration(configFile, content, environ);
    if config.Err? {
      return Err(InvalidConfiguration(config.error));
    }
    var configuration := config.value;
    if "endpoint" !in configuration {
      return Err(MissingSetting("endpoint"));
    }
    if "project" !in configuration {
      return Err(MissingSetting("project"));
    }
    var service := new Service(configuration["endpoint"], configuration["project"], configuration[Configuration.TOKEN_KEY]);
    var handler := new ReportPortalHandler(mainTest, service);
    r := Ok(handler);
  }
}
