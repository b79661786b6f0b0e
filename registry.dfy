/** The tool registry of the reservation assistant: the three tools, their
    split into safe tools (run freely) and sensitive tools (run only after a
    human approves), the set of sensitive names the router consults, and the
    full list bound to the model.  What each tool does is a remote call and is
    not part of the registry. */
module Registry {

  /** A registered tool, known to the graph by the name the model calls it
      by. */
  datatype Tool = Tool(name: string)

  const SearchReservation: Tool := Tool("GetReservationsByPhone")

  const UpdateReservation: Tool := Tool("UpdateReservationDate")

  const DeleteReservation: Tool := Tool("CancelReservation")

  const SafeTools: seq<Tool> := [SearchReservation]

  const SensitiveTools: seq<Tool> := [UpdateReservation, DeleteReservation]

  /** The names of a list of tools. */
  function Names(ts: seq<Tool>): (names: set<string>)
    ensures forall n :: n in names <==> exists t :: t in ts && t.name == n
  {
    if ts == [] then {} else {ts[0].name} + Names(ts[1..])
  }

  const SensitiveToolNames: set<string> := Names(SensitiveTools)

  /** Every tool bound to the model: the safe ones first. */
  const Tools: seq<Tool> := SafeTools + SensitiveTools

  /** No two tools of the list share a name. */
  predicate DistinctNames(ts: seq<Tool>)
  {
    forall i, j :: 0 <= i < j < |ts| ==> ts[i].name != ts[j].name
  }

  lemma SafeToolNamesExactly()
    ensures Names(SafeTools) == {"GetReservationsByPhone"}
  {
    assert SafeTools[0] in SafeTools;
  }

  lemma SensitiveToolNamesExactly()
    ensures SensitiveToolNames == {"UpdateReservationDate", "CancelReservation"}
  {
    assert SensitiveTools[0] in SensitiveTools;
    assert SensitiveTools[1] in SensitiveTools;
  }

  /** The safe and the sensitive names are disjoint, so every registered tool
      has exactly one classification, and `Tools` lists each tool once, safe
      tools first. */
  lemma ClassificationIsPartition()
    ensures Names(SafeTools) !! SensitiveToolNames
    ensures Names(Tools) == Names(SafeTools) + SensitiveToolNames
    ensures DistinctNames(Tools)
    ensures Tools[..|SafeTools|] == SafeTools && Tools[|SafeTools|..] == SensitiveTools
    ensures forall t :: t in Tools ==> (t.name in SensitiveToolNames <==> t in SensitiveTools)
  {
    SafeToolNamesExactly();
    SensitiveToolNamesExactly();
    assert Tools == [SearchReservation, UpdateReservation, DeleteReservation];
    assert Tools[0] in Tools && Tools[1] in Tools && Tools[2] in Tools;
  }
}
