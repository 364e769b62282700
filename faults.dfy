/** The six canonical fault scenarios and their numeric ids, shared by the
    simulation harness and the dataset consolidator. */
module Faults {

  /** The scenario names, in the order the label table declares them. */
  const FaultNames: seq<string> := ["normal", "qber", "degrade", "node_fail", "blinding", "trojan"]

  /** The label table: scenario name to numeric fault id. */
  const FaultLabels: map<string, nat> :=
    map["normal" := 0, "qber" := 1, "degrade" := 2, "node_fail" := 3, "blinding" := 4, "trojan" := 5]

  const Normal: string := "normal"

  /** A label lookup with the table's default: unknown labels get id 0.
      The id of a canonical name is its position in FaultNames. */
  function FaultId(name: string): (id: nat)
    ensures id < |FaultNames|
    ensures name in FaultNames ==> FaultNames[id] == name
    ensures name !in FaultNames ==> id == 0
  {
    if name in FaultLabels then FaultLabels[name] else 0
  }

  /** The table and the name list describe the same six scenarios. */
  lemma FaultLabelsCoverNames()
    ensures FaultLabels.Keys == set n | n in FaultNames
    ensures |FaultLabels.Keys| == 6
  {
    assert FaultLabels.Keys == {"normal", "qber", "degrade", "node_fail", "blinding", "trojan"};
  }

  /** Canonical names get distinct ids 0..5: the id of the i-th name is i. */
  lemma FaultIdOfName(i: nat)
    requires i < |FaultNames|
    ensures FaultId(FaultNames[i]) == i
    ensures forall j :: 0 <= j < |FaultNames| && j != i ==> FaultNames[j] != FaultNames[i]
  {
  }
}
