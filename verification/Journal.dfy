/** The durable record of a run as one locked cell (internal/browserflow/journal.go). */
module Journal {
  import opened Basics
  import opened Records
  import opened Histories

  /** How the storage below a locked write behaves. The directory sync follows the rename, so a
      write can report an error after it has taken effect. */
  datatype Fault = Lands | FailsBefore | FailsAfter

  function CreateCell(rules: TextRules, cell: Option<Record>, record: Record, fault: Fault): (Option<Record>, bool) {
    if cell.Some? || !Valid(rules, record) || fault == FailsBefore then (cell, false)
    else (Some(record), fault == Lands)
  }

  function SaveCell(rules: TextRules, cell: Option<Record>, record: Record, fault: Fault): (Option<Record>, bool) {
    if cell.None? || fault == FailsBefore || !ValidTransition(rules, cell.value, record) then (cell, false)
    else (Some(record), fault == Lands)
  }

  function LoadCell(rules: TextRules, cell: Option<Record>, readable: bool): Option<Record> {
    if cell.Some? && readable && Valid(rules, cell.value) then cell else None
  }

  /** A save is reported exactly when the journal exists, the replacement is accepted and the storage does
      not fail; it takes effect also when the storage fails late. */
  lemma SaveMeans(rules: TextRules, cell: Option<Record>, record: Record, fault: Fault)
    ensures
      var (after, ok) := SaveCell(rules, cell, record, fault);
      var accepted := cell.Some? && ValidTransition(rules, cell.value, record);
      (ok <==> accepted && fault == Lands) && after == if accepted && fault != FailsBefore then Some(record) else cell
  {
  }

  /** And the same of the first record. */
  lemma CreateMeans(rules: TextRules, cell: Option<Record>, record: Record, fault: Fault)
    ensures
      var (after, ok) := CreateCell(rules, cell, record, fault);
      var accepted := cell.None? && Valid(rules, record);
      (ok <==> accepted && fault == Lands) && after == if accepted && fault != FailsBefore then Some(record) else cell
  {
  }

  /** A cell either stays as it was or is replaced by a record that keeps its past. */
  ghost predicate CellExtends(before: Option<Record>, after: Option<Record>) {
    before.Some? ==> after.Some? && (after == before || Later(before.value, after.value))
  }

  lemma SaveExtends(rules: TextRules, cell: Option<Record>, record: Record, fault: Fault)
    ensures CellExtends(cell, SaveCell(rules, cell, record, fault).0)
    ensures cell.Some? && Valid(rules, cell.value) ==> Valid(rules, SaveCell(rules, cell, record, fault).0.value)
  {
    if cell.Some? && ValidTransition(rules, cell.value, record) {
      TransitionIsLater(rules, cell.value, record);
    }
  }

  lemma CellExtendsTransitive(a: Option<Record>, b: Option<Record>, c: Option<Record>)
    requires CellExtends(a, b) && CellExtends(b, c)
    ensures CellExtends(a, c)
  {
    if a.Some? && b != a && c != b {
      LaterTransitive(a.value, b.value, c.value);
    }
  }

  /** The recovery file of one run. */
  class FileJournal {
    const rules: TextRules
    var cell: Option<Record>

    constructor (rules: TextRules)
      ensures this.rules == rules && cell == None
    {
      this.rules := rules;
      cell := None;
    }

    method Create(record: Record, fault: Fault) returns (ok: bool)
      modifies this
      ensures (cell, ok) == CreateCell(rules, old(cell), record, fault)
      ensures old(cell).Some? ==> !ok && cell == old(cell)
      ensures ok ==> cell == Some(record) && Valid(rules, record)
    {
      if cell.Some? || !Valid(rules, record) || fault == FailsBefore {
        return false;
      }
      cell := Some(record);
      ok := fault == Lands;
    }

    method Save(record: Record, fault: Fault) returns (ok: bool)
      modifies this
      ensures (cell, ok) == SaveCell(rules, old(cell), record, fault)
      ensures CellExtends(old(cell), cell)
      ensures ok ==> cell == Some(record) && Valid(rules, record)
    {
      SaveExtends(rules, cell, record, fault);
      if cell.None? || fault == FailsBefore {
        return false;
      }
      if !ValidTransition(rules, cell.value, record) {
        return false;
      }
      cell := Some(record);
      ok := fault == Lands;
    }

    method Load(readable: bool) returns (record: Option<Record>)
      ensures record == LoadCell(rules, cell, readable)
      ensures record.Some? ==> Valid(rules, record.value)
    {
      if cell.None? || !readable || !Valid(rules, cell.value) {
        return None;
      }
      record := cell;
    }
  }
}
