/** From the suite loop to the decisions: what run_all writes is what analyse accepts. */
module Pipeline {
  import opened Analysis
  import opened Draws
  import opened Endpoints
  import opened Json
  import opened Producer
  import opened Sequences

  /** The manifest's declarations as the analysis keys them. */
  function AsDeclared(m: Manifest, condition: string): Declarations {
    map name | name in m.declared :: (condition, name) := Int(m.declared[name])
  }

  /** So every case begun is analysed on its first three counted draws, without a protocol
      violation. */
  lemma AnalysedAsProduced(contracts: Contracts, m: Manifest, repeat: nat, limit: nat,
                           condition: string, name: string)
    requires Sound(m, repeat, limit) && name in m.declared
    requires repeat <= 3 && limit <= 5
    requires UnderCondition(m.rows, Some(Str(condition)))
    ensures var t := TaskOf(contracts, m.rows, AsDeclared(m, condition), condition, name);
            !t.violation && t.selected == FirstOf(CountedRows(Of(m.rows, name)), 3)
  {
    ProducerMeetsConsumer(m, repeat, limit, name);
    SameCell(m.rows, condition, name);
    assert DeclaredFor(AsDeclared(m, condition), condition, name) == Int(m.declared[name]);
  }

  lemma {:induction false} SameCell(rows: seq<Row>, condition: string, name: string)
    requires forall row :: row in rows ==> row.condition == Str(condition)
    ensures Cell(rows, condition, name) == Of(rows, name)
  {
    if rows != [] {
      assert rows[0] in rows;
      SameCell(rows[1..], condition, name);
    }
  }
}
