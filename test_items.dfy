/**
 * The rotest test objects the handler is given, reduced to the attributes it
 * reads, and the launch and item details it derives from them.
 */
module TestItems {
  import opened Common
  import opened Remote

  /** A block's mode (`MODE_CRITICAL`, `MODE_OPTIONAL`, `MODE_FINALLY`). */
  datatype Mode = Critical | Optional | Finally

  /** What `isinstance` tells apart: a TestFlow, a TestBlock (with its mode), or any other test. */
  datatype Kind = Case | Flow | Block(mode: Mode)

  /**
   * A test as the handler sees it. `id` is the object's identity, `name` its
   * `data.name`, `className` its `__class__.__name__`, `doc` its `__doc__`,
   * `shortDescription` what `shortDescription()` returns, `tags` its `TAGS`
   * when it has that attribute, `workDir` the absolute path of its work
   * directory, `success` its `data.success`, and `runName` its
   * `data.run_data.run_name`.
   */
  datatype TestNode = TestNode(
    id: nat,
    name: string,
    className: string,
    doc: Option<string>,
    shortDescription: Option<string>,
    kind: Kind,
    tags: Option<seq<string>>,
    workDir: string,
    success: bool,
    runName: Option<string>)

  /** Python truthiness of an optional string: present and non-empty. */
  predicate Truthy(v: Option<string>) {
    v.Some? && v.value != ""
  }

  /** How `str.format` renders an optional string: the text itself, or `None`. */
  function Formatted(v: Option<string>): (text: string)
    ensures v.Some? ==> text == v.value
    ensures v.None? ==> text == "None"
  {
    match v
    case Some(s) => s
    case None => "None"
  }

  /** `MODE_TO_STRING`: each mode has its own label, without a `|` in it. */
  function ModeLabel(mode: Mode): (name: string)
    ensures name == "Critical" <==> mode == Critical
    ensures name == "Optional" <==> mode == Optional
    ensures name == "Finally" <==> mode == Finally
    ensures name != "" && '|' !in name
  {
    match mode
    case Critical => "Critical"
    case Optional => "Optional"
    case Finally => "Finally"
  }

  /** The `"|<label>| "` prefix a block's description gets. */
  function LabelPrefix(mode: Mode): string {
    "|" + ModeLabel(mode) + "| "
  }

  /**
   * The description of a started test: the short description of a case, the
   * docstring of a flow, and for a block its short description behind the
   * label of its mode.
   */
  function LeafDescription(test: TestNode): (description: Option<string>)
    ensures test.kind.Case? ==> description == test.shortDescription
    ensures test.kind.Flow? ==> description == test.doc
    ensures test.kind.Block? ==>
      description.Some? && Unlabel(description.value) == Some((test.kind.mode, Formatted(test.shortDescription)))
  {
    match test.kind
    case Case => test.shortDescription
    case Flow => test.doc
    case Block(mode) =>
      UnlabelLabelled(mode, Formatted(test.shortDescription));
      Some(LabelPrefix(mode) + Formatted(test.shortDescription))
  }

  /** Reads a block description back into its mode and its text. */
  function Unlabel(description: string): Option<(Mode, string)> {
    if LabelPrefix(Critical) <= description then Some((Critical, description[|LabelPrefix(Critical)|..]))
    else if LabelPrefix(Optional) <= description then Some((Optional, description[|LabelPrefix(Optional)|..]))
    else if LabelPrefix(Finally) <= description then Some((Finally, description[|LabelPrefix(Finally)|..]))
    else None
  }

  /** The label of a block loses nothing: mode and text can be read back. */
  lemma UnlabelLabelled(mode: Mode, text: string)
    ensures Unlabel(LabelPrefix(mode) + text) == Some((mode, text))
  {
    var d := LabelPrefix(mode) + text;
    assert d[..|LabelPrefix(mode)|] == LabelPrefix(mode);
    assert d[|LabelPrefix(mode)|..] == text;
    assert d[1] == ModeLabel(mode)[0];
    assert LabelPrefix(Critical)[1] == 'C' && LabelPrefix(Optional)[1] == 'O';
  }

  /** A critical block's description, as in this package's result-handler tests. */
  lemma CriticalBlockDescription(test: TestNode)
    requires test.kind == Block(Critical) && test.shortDescription == Some("Block documentation.")
    ensures LeafDescription(test) == Some("|Critical| Block documentation.")
  {
    assert LeafDescription(test) == Some(LabelPrefix(Critical) + Formatted(test.shortDescription));
    assert LabelPrefix(Critical) == "|Critical| ";
    assert Formatted(test.shortDescription) == "Block documentation.";
    assert "|Critical| " + "Block documentation." == "|Critical| Block documentation.";
  }

  /**
   * The launch's name and mode: the run name in DEFAULT mode when one is
   * given, otherwise the main test's class name in DEBUG mode.
   */
  function LaunchNameAndMode(runName: Option<string>, className: string): (launch: (string, LaunchMode))
    ensures launch.1 == Default <==> Truthy(runName)
    ensures Truthy(runName) ==> launch.0 == runName.value
    ensures !Truthy(runName) ==> launch.0 == className
  {
    if Truthy(runName) then (runName.value, Default) else (className, Debug)
  }

  /** The launch's description: the tags pattern when set, otherwise the main test's docstring. */
  function LaunchDescription(tagsPattern: Option<string>, doc: Option<string>): (description: Option<string>)
    ensures Truthy(tagsPattern) ==> description == tagsPattern
    ensures !Truthy(tagsPattern) ==> description == doc
  {
    if Truthy(tagsPattern) then tagsPattern else doc
  }
}
