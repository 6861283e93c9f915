/**
 * The `system_analyses` table of backend/database.py and `get_next_analysis_id`: the next
 * identifier is one more than the largest stored `analysis_id`, or 1 on an empty table. The
 * column is UNIQUE but nullable, and there is no owner column, so the sequence is global.
 */
module Database {
  import opened Wrappers

  /** The columns of a row other than `analysis_id`. */
  datatype AnalysisFields = AnalysisFields(
    cpu_model: string,
    cpu_speed_ghz: real,
    cores: int,
    ram_gb: real,
    disk_type: string,
    gpu_model: string,
    gpu_vram_gb: real,
    main_profile: string,
    main_score: real,
    pdf_url: Option<string>,
    json_url: Option<string>,
    created_at: int)

  /** One row of `system_analyses`; `analysis_id` may be NULL. */
  datatype SystemAnalysis = SystemAnalysis(analysis_id: Option<int>, fields: AnalysisFields)

  /** The error `last_analysis.analysis_id + 1` raises when the top row's id is NULL. */
  datatype DbError = TypeError | IntegrityError

  /** The UNIQUE constraint: no two rows share a non-NULL `analysis_id` (NULLs may repeat). */
  ghost predicate UniqueIds(rows: seq<SystemAnalysis>)
  {
    forall i, j :: 0 <= i < j < |rows| && rows[i].analysis_id.Some? ==>
      rows[i].analysis_id != rows[j].analysis_id
  }

  /** Reference definition: the largest non-NULL `analysis_id`, or None when every id is NULL. */
  function MaxId(rows: seq<SystemAnalysis>): Option<int>
    decreases |rows|
  {
    if rows == [] then None
    else
      var rest := MaxId(rows[1..]);
      match rows[0].analysis_id
      case None => rest
      case Some(a) => if rest.Some? && rest.value > a then rest else Some(a)
  }

  /**
   * What `MaxId` finds: None exactly when every id is NULL, and otherwise a stored id that is at
   * least every stored id.
   */
  lemma {:induction false} MaxIdSpec(rows: seq<SystemAnalysis>)
    ensures MaxId(rows).None? <==> forall k :: 0 <= k < |rows| ==> rows[k].analysis_id.None?
    ensures MaxId(rows).Some? ==> exists k :: 0 <= k < |rows| && rows[k].analysis_id == MaxId(rows)
    ensures MaxId(rows).Some? ==> forall k :: 0 <= k < |rows| && rows[k].analysis_id.Some? ==>
                                    rows[k].analysis_id.value <= MaxId(rows).value
    decreases |rows|
  {
    if rows != [] {
      MaxIdSpec(rows[1..]);
      assert forall k :: 1 <= k < |rows| ==> rows[k] == rows[1..][k - 1];
      var rest := MaxId(rows[1..]);
      if rest.Some? {
        var t :| 0 <= t < |rows[1..]| && rows[1..][t].analysis_id == rest;
        assert rows[t + 1].analysis_id == rest;
      }
    }
  }

  /**
   * The identifier `get_next_analysis_id` hands out: 1 on an empty table, otherwise the largest
   * stored id plus one; a non-empty table whose ids are all NULL raises.
   */
  function NextAnalysisId(rows: seq<SystemAnalysis>): (r: Result<int, DbError>)
    ensures rows == [] ==> r == Ok(1)
    ensures r.Err? ==> rows != [] && r.error == TypeError
  {
    if rows == [] then Ok(1)
    else match MaxId(rows)
      case Some(m) => Ok(m + 1)
      case None => Err(TypeError)
  }

  /**
   * The allocated id is larger than every stored id and is one more than a stored id (or 1 on
   * an empty table); allocation fails exactly on a non-empty table of NULL ids.
   */
  lemma NextAnalysisIdSpec(rows: seq<SystemAnalysis>)
    ensures rows == [] ==> NextAnalysisId(rows) == Ok(1)
    ensures NextAnalysisId(rows).Ok? ==> forall k :: 0 <= k < |rows| && rows[k].analysis_id.Some? ==>
              rows[k].analysis_id.value < NextAnalysisId(rows).value
    ensures NextAnalysisId(rows).Ok? && rows != [] ==>
              exists k :: 0 <= k < |rows| && rows[k].analysis_id == Some(NextAnalysisId(rows).value - 1)
    ensures NextAnalysisId(rows).Err? <==> rows != [] && forall k :: 0 <= k < |rows| ==> rows[k].analysis_id.None?
  {
    MaxIdSpec(rows);
  }

  /** SQLite's ORDER BY DESC: a NULL sorts below every number. */
  predicate SortsAbove(a: Option<int>, b: Option<int>)
  {
    a.Some? && (b.None? || a.value > b.value)
  }

  /** `query(...).order_by(analysis_id.desc()).first()`: the first row of the descending order. */
  function TopByIdDesc(rows: seq<SystemAnalysis>): (r: Option<SystemAnalysis>)
    ensures r.None? <==> rows == []
    ensures r.Some? ==> r.value in rows
    ensures r.Some? ==> forall k :: 0 <= k < |rows| ==> !SortsAbove(rows[k].analysis_id, r.value.analysis_id)
    decreases |rows|
  {
    if rows == [] then None
    else
      var rest := TopByIdDesc(rows[1..]);
      assert forall k :: 1 <= k < |rows| ==> rows[k] == rows[1..][k - 1];
      if rest.None? || SortsAbove(rows[0].analysis_id, rest.value.analysis_id) then Some(rows[0])
      else rest
  }

  /** The id that allocate-then-insert gives a new row. */
  function AllocateInsert(rows: seq<SystemAnalysis>, f: AnalysisFields): seq<SystemAnalysis>
    requires NextAnalysisId(rows).Ok?
  {
    rows + [SystemAnalysis(Some(NextAnalysisId(rows).value), f)]
  }

  /** Inserting a row under the allocated id keeps the UNIQUE constraint. */
  lemma AllocatedIdKeepsUnique(rows: seq<SystemAnalysis>, f: AnalysisFields)
    requires UniqueIds(rows) && NextAnalysisId(rows).Ok?
    ensures UniqueIds(AllocateInsert(rows, f))
  {
    NextAnalysisIdSpec(rows);
    var after := AllocateInsert(rows, f);
    forall i, j | 0 <= i < j < |after| && after[i].analysis_id.Some?
      ensures after[i].analysis_id != after[j].analysis_id
    {
      if j == |rows| {
        assert after[i] == rows[i];
      }
    }
  }

  /**
   * Allocate-then-insert, once per element of `fs`, starting from an empty table: the rows hold
   * the ids 1, 2, ..., |fs| in insertion order, whoever submitted them.
   */
  function FillFromEmpty(fs: seq<AnalysisFields>): (rows: seq<SystemAnalysis>)
    ensures |rows| == |fs|
    ensures forall i :: 0 <= i < |rows| ==> rows[i] == SystemAnalysis(Some(i + 1), fs[i])
    decreases |fs|
  {
    if fs == [] then []
    else
      var prefix := FillFromEmpty(fs[..|fs| - 1]);
      assert NextAnalysisId(prefix) == Ok(|prefix| + 1) by {
        if prefix != [] {
          MaxIdIs(prefix, |prefix|, |prefix| - 1);
        }
      }
      AllocateInsert(prefix, fs[|fs| - 1])
  }

  /** The rows without the one at position `k`. */
  function RemoveAt(rows: seq<SystemAnalysis>, k: nat): (r: seq<SystemAnalysis>)
    requires k < |rows|
    ensures |r| == |rows| - 1
    ensures forall j :: 0 <= j < |r| ==> r[j] == (if j < k then rows[j] else rows[j + 1])
  {
    seq(|rows| - 1, j requires 0 <= j < |rows| - 1 => if j < k then rows[j] else rows[j + 1])
  }

  /** The largest id is the one value that is stored and bounds every stored id. */
  lemma MaxIdIs(rows: seq<SystemAnalysis>, m: int, w: nat)
    requires w < |rows| && rows[w].analysis_id == Some(m)
    requires forall k :: 0 <= k < |rows| && rows[k].analysis_id.Some? ==> rows[k].analysis_id.value <= m
    ensures MaxId(rows) == Some(m)
  {
    MaxIdSpec(rows);
    var mx := MaxId(rows);
    assert !rows[w].analysis_id.None?;
    var t :| 0 <= t < |rows| && rows[t].analysis_id == mx;
  }

  /** Every id left after a removal was stored before it. */
  lemma RemoveAtIdsBounded(rows: seq<SystemAnalysis>, k: nat, m: int)
    requires k < |rows|
    requires forall j :: 0 <= j < |rows| && rows[j].analysis_id.Some? ==> rows[j].analysis_id.value <= m
    ensures forall j :: 0 <= j < |RemoveAt(rows, k)| && RemoveAt(rows, k)[j].analysis_id.Some? ==>
              RemoveAt(rows, k)[j].analysis_id.value <= m
  {
    var after := RemoveAt(rows, k);
    forall j | 0 <= j < |after| && after[j].analysis_id.Some?
      ensures after[j].analysis_id.value <= m
    {
      assert after[j] == rows[if j < k then j else j + 1];
    }
  }

  /** Removing a row that does not hold the largest id keeps the largest id. */
  lemma RemoveNonMaxKeepsMax(rows: seq<SystemAnalysis>, k: nat)
    requires k < |rows| && MaxId(rows).Some?
    requires rows[k].analysis_id != MaxId(rows)
    ensures RemoveAt(rows, k) != [] && MaxId(RemoveAt(rows, k)) == MaxId(rows)
  {
    var m := MaxId(rows).value;
    MaxIdSpec(rows);
    var after := RemoveAt(rows, k);
    var w :| 0 <= w < |rows| && rows[w].analysis_id == Some(m);
    var w' := if w < k then w else w - 1;
    assert after[w'] == rows[w];
    RemoveAtIdsBounded(rows, k, m);
    MaxIdIs(after, m, w');
  }

  /** Removing a row that does not hold the largest id leaves the next id unchanged. */
  lemma RemoveNonMaxKeepsNextId(rows: seq<SystemAnalysis>, k: nat)
    requires k < |rows| && MaxId(rows).Some?
    requires rows[k].analysis_id != MaxId(rows)
    ensures NextAnalysisId(RemoveAt(rows, k)) == NextAnalysisId(rows)
  {
    RemoveNonMaxKeepsMax(rows, k);
  }

  /**
   * Removing the row that holds the largest id m frees that id: no remaining row holds it, the
   * next allocation on the remaining rows is at most m, and when id m - 1 is still stored it is
   * exactly m, so m is issued again.
   */
  lemma RemoveMaxAllowsReuse(rows: seq<SystemAnalysis>, k: nat, j: nat)
    requires UniqueIds(rows)
    requires k < |rows| && rows[k].analysis_id.Some? && rows[k].analysis_id == MaxId(rows)
    ensures forall i :: 0 <= i < |RemoveAt(rows, k)| ==>
              RemoveAt(rows, k)[i].analysis_id != rows[k].analysis_id
    ensures (RemoveAt(rows, k) != [] && NextAnalysisId(RemoveAt(rows, k)).Ok?)
              ==> NextAnalysisId(RemoveAt(rows, k)).value <= rows[k].analysis_id.value
    ensures (j < |RemoveAt(rows, k)| && RemoveAt(rows, k)[j].analysis_id == Some(rows[k].analysis_id.value - 1))
              ==> NextAnalysisId(RemoveAt(rows, k)) == Ok(rows[k].analysis_id.value)
  {
    var m := rows[k].analysis_id.value;
    var after := RemoveAt(rows, k);
    RemovedIdGone(rows, k);
    MaxIdSpec(rows);
    RemoveAtIdsBounded(rows, k, m);
    forall i | 0 <= i < |after| && after[i].analysis_id.Some?
      ensures after[i].analysis_id.value <= m - 1
    {
      assert after[i].analysis_id != Some(m);
    }
    NextAnalysisIdSpec(after);
    if j < |after| && after[j].analysis_id == Some(m - 1) {
      MaxIdIs(after, m - 1, j);
    }
  }


  /** Under the UNIQUE constraint, a removed row's id is held by no remaining row. */
  lemma RemovedIdGone(rows: seq<SystemAnalysis>, k: nat)
    requires UniqueIds(rows)
    requires k < |rows| && rows[k].analysis_id.Some?
    ensures forall i :: 0 <= i < |RemoveAt(rows, k)| ==> RemoveAt(rows, k)[i].analysis_id != rows[k].analysis_id
  {
    var after := RemoveAt(rows, k);
    forall i | 0 <= i < |after| ensures after[i].analysis_id != rows[k].analysis_id {
      if i < k {
        assert after[i] == rows[i];
      } else {
        assert after[i] == rows[i + 1];
      }
    }
  }

  /** The `system_analyses` table as shared mutable state. */
  class AnalysisTable {
    var rows: seq<SystemAnalysis>

    ghost predicate Valid()
      reads this
    {
      UniqueIds(rows)
    }

    constructor ()
      ensures Valid() && rows == []
    {
      rows := [];
    }

    /**
     * `get_next_analysis_id`: reads the top row of the descending order and adds one to its id.
     * It changes nothing, and it agrees with the largest-id-plus-one definition.
     */
    method GetNextAnalysisId() returns (r: Result<int, DbError>)
      ensures r == NextAnalysisId(rows)
    {
      var last := TopByIdDesc(rows);
      MaxIdSpec(rows);
      if last.Some? {
        if last.value.analysis_id.Some? {
          r := Ok(last.value.analysis_id.value + 1);
          var m := MaxId(rows);
          var k :| 0 <= k < |rows| && rows[k].analysis_id == m;
          assert !SortsAbove(rows[k].analysis_id, last.value.analysis_id);
        } else {
          r := Err(TypeError);
          forall k | 0 <= k < |rows| ensures rows[k].analysis_id.None? {
            assert !SortsAbove(rows[k].analysis_id, last.value.analysis_id);
          }
        }
      } else {
        r := Ok(1);
      }
    }

    /** An INSERT: refused with an integrity error when it would repeat a stored non-NULL id. */
    method Insert(row: SystemAnalysis) returns (r: Result<(), DbError>)
      requires Valid()
      modifies this
      ensures Valid()
      ensures r.Ok? <==> row.analysis_id.None? || forall k :: 0 <= k < |old(rows)| ==> old(rows)[k].analysis_id != row.analysis_id
      ensures r.Ok? ==> rows == old(rows) + [row]
      ensures r.Err? ==> r.error == IntegrityError && rows == old(rows)
    {
      if row.analysis_id.Some? && exists k :: 0 <= k < |rows| && rows[k].analysis_id == row.analysis_id {
        r := Err(IntegrityError);
      } else {
        r := Ok(());
        rows := rows + [row];
      }
    }

    /**
     * Allocate-then-insert as one sequential step: the new row gets the next id, the insert is
     * never refused, and the table stays free of duplicate ids.
     */
    method AllocateAndInsert(f: AnalysisFields) returns (r: Result<int, DbError>)
      requires Valid()
      modifies this
      ensures Valid()
      ensures r == NextAnalysisId(old(rows))
      ensures r.Ok? ==> rows == AllocateInsert(old(rows), f)
      ensures r.Err? ==> rows == old(rows)
    {
      r := GetNextAnalysisId();
      NextAnalysisIdSpec(rows);
      if r.Ok? {
        var ins := Insert(SystemAnalysis(Some(r.value), f));
        assert ins.Ok?;
      }
    }
  }
}
