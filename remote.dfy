/**
 * The Report Portal service as the handlers see it: every call they make is
 * appended to a trace. Timestamps are not recorded.
 */
module Remote {
  import opened Common
  import Levels

  /** The mode a launch is started in. */
  datatype LaunchMode = Default | Debug {
    function Name(): string {
      match this
      case Default => "DEFAULT"
      case Debug => "DEBUG"
    }
  }

  /** The kind of a test item. */
  datatype ItemType = Step | Suite {
    function Name(): string {
      match this
      case Step => "STEP"
      case Suite => "Suite"
    }
  }

  /** The status a test item is finished with. */
  datatype Status = Passed | Failed | Skipped {
    function Name(): string {
      match this
      case Passed => "PASSED"
      case Failed => "FAILED"
      case Skipped => "SKIPPED"
    }
  }

  /** The defect classification of a finished item. */
  datatype IssueType = NoDefect | ProductBug | AutomationBug {
    function Name(): string {
      match this
      case NoDefect => "NO_DEFECT"
      case ProductBug => "PRODUCT_BUG"
      case AutomationBug => "AUTOMATION_BUG"
    }
  }

  /** The `issue` dictionary of a finish call. */
  datatype Issue = Issue(issueType: IssueType, comment: string)

  /** One call made on the service. */
  datatype Call =
    | StartLaunch(name: string, description: Option<string>, mode: LaunchMode)
    | StartItem(name: string, description: Option<string>, tags: Option<seq<string>>, itemType: ItemType)
    | FinishItem(status: Status, issue: Option<Issue>)
    | FinishLaunch
    | Terminate
    | Log(message: string, level: Levels.Level)

  /** The number of item finishes in a trace. */
  function FinishCount(calls: seq<Call>): nat {
    if calls == [] then 0
    else (if calls[0].FinishItem? then 1 else 0) + FinishCount(calls[1..])
  }

  /** Finishes of consecutive stretches of a trace add up. */
  lemma {:induction false} FinishCountAppend(a: seq<Call>, b: seq<Call>)
    ensures FinishCount(a + b) == FinishCount(a) + FinishCount(b)
  {
    if a == [] {
      assert a + b == b;
    } else {
      assert (a + b)[0] == a[0];
      assert (a + b)[1..] == a[1..] + b;
      FinishCountAppend(a[1..], b);
    }
  }

  /** The service connection, reduced to the calls made on it. */
  class Service {
    const endpoint: string
    const project: string
    const token: string
    var calls: seq<Call>

    constructor(endpoint: string, project: string, token: string)
      ensures this.endpoint == endpoint && this.project == project && this.token == token
      ensures calls == []
    {
      this.endpoint := endpoint;
      this.project := project;
      this.token := token;
      calls := [];
    }

    method StartLaunch(name: string, description: Option<string>, mode: LaunchMode)
      modifies this
      ensures calls == old(calls) + [Call.StartLaunch(name, description, mode)]
    {
      calls := calls + [Call.StartLaunch(name, description, mode)];
    }

    method StartTestItem(name: string, description: Option<string>, tags: Option<seq<string>>, itemType: ItemType)
      modifies this
      ensures calls == old(calls) + [StartItem(name, description, tags, itemType)]
    {
      calls := calls + [StartItem(name, description, tags, itemType)];
    }

    method FinishTestItem(status: Status, issue: Option<Issue>)
      modifies this
      ensures calls == old(calls) + [FinishItem(status, issue)]
    {
      calls := calls + [FinishItem(status, issue)];
    }

    method FinishLaunch()
      modifies this
      ensures calls == old(calls) + [Call.FinishLaunch]
    {
      calls := calls + [Call.FinishLaunch];
    }

    method Terminate()
      modifies this
      ensures calls == old(calls) + [Call.Terminate]
    {
      calls := calls + [Call.Terminate];
    }

    method Log(message: string, level: Levels.Level)
      modifies this
      ensures calls == old(calls) + [Call.Log(message, level)]
    {
      calls := calls + [Call.Log(message, level)];
    }
  }
}
