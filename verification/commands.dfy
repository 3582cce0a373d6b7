/** The centralised command ids and the runtime guard that recognises them. */
module Commands {

  const OpenExampleModal: string := "open-example-modal"
  const ExampleEditorCommand: string := "example-editor-command"

  /** `COMMAND_IDS` as (property name, id) pairs, in declaration order. */
  const CommandIds: seq<(string, string)> := [
    ("OPEN_EXAMPLE_MODAL", OpenExampleModal),
    ("EXAMPLE_EDITOR_COMMAND", ExampleEditorCommand)
  ]

  /** The ids the `CommandId` union type admits. */
  predicate IsCommandId(id: string)
  {
    id == OpenExampleModal || id == ExampleEditorCommand
  }

  type CommandId = id: string | IsCommandId(id) witness OpenExampleModal

  /** `Object.values(entries)`: the values, in order. */
  function Values(entries: seq<(string, string)>): (vs: seq<string>)
    ensures |vs| == |entries|
    ensures forall i :: 0 <= i < |entries| ==> vs[i] == entries[i].1
  {
    seq(|entries|, i requires 0 <= i < |entries| => entries[i].1)
  }

  /** `xs.includes(x)`: a front-to-back scan for an equal string. */
  method Includes(xs: seq<string>, x: string) returns (found: bool)
    ensures found <==> x in xs
  {
    var i := 0;
    while i < |xs|
      invariant 0 <= i <= |xs|
      invariant x !in xs[..i]
    {
      if xs[i] == x {
        return true;
      }
      i := i + 1;
    }
    assert xs[..i] == xs;
    return false;
  }

  /** `isValidCommandId(id)`: true exactly for the ids of `COMMAND_IDS`. */
  method IsValidCommandId(id: string) returns (valid: bool)
    ensures valid <==> IsCommandId(id)
  {
    CommandIdValues(id);
    valid := Includes(Values(CommandIds), id);
  }

  /** The values of `COMMAND_IDS` are exactly the ids of the union type. */
  lemma CommandIdValues(id: string)
    ensures id in Values(CommandIds) <==> IsCommandId(id)
  {
    assert Values(CommandIds) == [OpenExampleModal, ExampleEditorCommand];
  }

  /** No two entries of `COMMAND_IDS` share an id. */
  lemma CommandIdsDistinct()
    ensures forall i, j :: 0 <= i < j < |CommandIds| ==> CommandIds[i].1 != CommandIds[j].1
  {
  }
}
