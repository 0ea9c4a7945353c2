/** `findings_consolidator`: the last node, which asks the collaborator for a
    cleaner set of findings and gives each of them a fresh id. */
module FindingConsolidation {
  import opened Wrappers
  import opened Text
  import opened FormatInstructions
  import opened States
  import opened Uuid
  import opened FindingUpdateNode

  /** One finding as the consolidation prompt shows it. */
  function ConsolidationBlock(f: Finding): string {
    FindingAsText(f) + "\n\n"
  }

  /** The rendered findings, one block per finding in list order. */
  function ConsolidationText(fs: seq<Finding>): (r: string)
    ensures fs == [] <==> r == ""
    decreases |fs|
  {
    if fs == [] then "" else ConsolidationBlock(fs[0]) + ConsolidationText(fs[1..])
  }

  /** Rendering a list is rendering its parts one after the other. */
  lemma {:induction false} ConsolidationTextAppend(a: seq<Finding>, b: seq<Finding>)
    ensures ConsolidationText(a + b) == ConsolidationText(a) + ConsolidationText(b)
    decreases |a|
  {
    if a == [] {
      AppendEmpty(b);
    } else {
      TailOfAppend(a, b);
      ConsolidationTextAppend(a[1..], b);
      ConcatAssoc(ConsolidationBlock(a[0]), ConsolidationText(a[1..]), ConsolidationText(b));
    }
  }

  /** A consolidated entry without the id the node gave it. */
  function Payload(e: ConsolidatedEntry): ConsolidatedFinding {
    ConsolidatedFinding(e.title, e.summary, e.methodology, e.keywords)
  }

  function EntryIds(cs: seq<ConsolidatedEntry>): seq<string> {
    seq(|cs|, i requires 0 <= i < |cs| => cs[i].id)
  }

  /** The id-assignment loop: each consolidated finding, in order, with a
      fresh id. */
  method AssignIds(result: seq<ConsolidatedFinding>, oracle: IdOracle) returns (cs: seq<ConsolidatedEntry>)
    requires oracle.Valid()
    modifies oracle
    ensures oracle.Valid() && old(oracle.issued) <= oracle.issued
    ensures |cs| == |result|
    ensures forall i :: 0 <= i < |cs| ==> Payload(cs[i]) == result[i]
    ensures NoDup(EntryIds(cs))
    ensures forall id :: id in EntryIds(cs) ==> id in oracle.issued && id !in old(oracle.issued)
  {
    cs := [];
    for i := 0 to |result|
      invariant oracle.Valid() && old(oracle.issued) <= oracle.issued
      invariant |cs| == i
      invariant forall k :: 0 <= k < i ==> Payload(cs[k]) == result[k]
      invariant NoDup(EntryIds(cs))
      invariant forall id :: id in EntryIds(cs) ==> id in oracle.issued && id !in old(oracle.issued)
    {
      var id := oracle.Fresh();
      var f := result[i];
      var before := cs;
      cs := cs + [ConsolidatedEntry(id, f.title, f.summary, f.methodology, f.keywords)];
      assert EntryIds(cs) == EntryIds(before) + [id];
    }
  }

  /** `findings_consolidator`. With no findings the state is left as it is
      and the collaborator is not asked; otherwise `consolidated_findings`
      is replaced by the collaborator's list, in its order, each entry with
      a fresh id, and nothing else changes. */
  method FindingsConsolidator(state: RunState, llm: Collaborator, oracle: IdOracle)
    requires oracle.Valid()
    modifies state, oracle
    ensures oracle.Valid() && old(oracle.issued) <= oracle.issued
    ensures old(state.findings) == [] ==> state.Values() == old(state.Values())
    ensures old(state.findings) != [] ==>
      var result := llm.consolidate(ConsolidationText(old(state.findings))).findings;
      var cs := state.consolidatedFindings;
      && state.Values() == old(state.Values()).(consolidatedFindings := cs)
      && |cs| == |result|
      && (forall i :: 0 <= i < |cs| ==> Payload(cs[i]) == result[i])
      && NoDup(EntryIds(cs))
      && (forall id :: id in EntryIds(cs) ==> id in oracle.issued && id !in old(oracle.issued))
  {
    var findings := state.findings;
    if |findings| == 0 {
      return;
    }
    var result := llm.consolidate(ConsolidationText(findings)).findings;
    var consolidated := AssignIds(result, oracle);
    state.consolidatedFindings := consolidated;
  }
}
