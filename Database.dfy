/** The diagram store (src/data/db/database.ts): records keyed by id, saved,
    loaded, listed newest first and deleted. The IndexedDB table is a map; the
    clock (`new Date().toISOString()`) and the id generator are parameters. */
module Database {
  import opened CanvasTypes
  import opened Text

  datatype DiagramRecord = DiagramRecord(
    id: string,
    name: string,
    elements: seq<CanvasElement>,
    titleBlock: TitleBlockData,
    viewport: Viewport,
    createdAt: string,
    updatedAt: string)

  /** What a caller hands to `saveDiagram`: a record without timestamps and
      with an optional id. */
  datatype SaveInput = SaveInput(
    id: Option<string>,
    name: string,
    elements: seq<CanvasElement>,
    titleBlock: TitleBlockData,
    viewport: Viewport)

  type Table = map<string, DiagramRecord>

  /** The id a save writes under: the supplied one unless absent or empty. */
  function SaveId(input: SaveInput, freshId: string): (id: string)
    ensures input.id.Some? && input.id.value != "" ==> id == input.id.value
    ensures input.id.None? || input.id.value == "" ==> id == freshId
  {
    if input.id.Some? && input.id.value != "" then input.id.value else freshId
  }

  /** The record `saveDiagram` writes and returns, given the table it reads,
      the current time and a fresh id. */
  function SavedRecord(table: Table, input: SaveInput, now: string, freshId: string): (r: DiagramRecord)
    ensures r.id == SaveId(input, freshId)
    ensures r.name == input.name && r.elements == input.elements
    ensures r.titleBlock == input.titleBlock && r.viewport == input.viewport
    ensures r.updatedAt == now
    ensures r.id in table && table[r.id].createdAt != "" ==> r.createdAt == table[r.id].createdAt
    ensures !(r.id in table && table[r.id].createdAt != "") ==> r.createdAt == now
  {
    var id := SaveId(input, freshId);
    var createdAt := if id in table && table[id].createdAt != "" then table[id].createdAt else now;
    DiagramRecord(id, input.name, input.elements, input.titleBlock, input.viewport, createdAt, now)
  }

  /** Every record is stored under its own id. */
  predicate KeyedById(table: Table)
  {
    forall k :: k in table ==> table[k].id == k
  }

  // ---------------------------------------------------------------------------
  // Newest-first order

  /** Adjacent records are in descending `updatedAt` order. */
  predicate NewestFirst(rs: seq<DiagramRecord>)
  {
    forall i :: 0 <= i < |rs| - 1 ==> StrLeq(rs[i + 1].updatedAt, rs[i].updatedAt)
  }

  /** Descending order between adjacent records gives it between any two. */
  lemma {:induction false} NewestFirstPairwise(rs: seq<DiagramRecord>, i: nat, j: nat)
    requires NewestFirst(rs) && i <= j < |rs|
    ensures StrLeq(rs[j].updatedAt, rs[i].updatedAt)
    decreases j - i
  {
    if i == j {
      StrLeqTotal(rs[i].updatedAt, rs[i].updatedAt);
    } else {
      NewestFirstPairwise(rs, i + 1, j);
      StrLeqTransitive(rs[j].updatedAt, rs[i + 1].updatedAt, rs[i].updatedAt);
    }
  }

  /** Inserts a record before the first one that is not newer. */
  function InsertNewestFirst(rs: seq<DiagramRecord>, d: DiagramRecord): (r: seq<DiagramRecord>)
    requires NewestFirst(rs)
    ensures NewestFirst(r)
    ensures multiset(r) == multiset(rs) + multiset{d}
    ensures r != [] && (r[0] == d || (rs != [] && r[0] == rs[0]))
  {
    if rs == [] then [d]
    else if StrLeq(rs[0].updatedAt, d.updatedAt) then [d] + rs
    else
      StrLeqTotal(rs[0].updatedAt, d.updatedAt);
      var tail := InsertNewestFirst(rs[1..], d);
      assert rs == [rs[0]] + rs[1..];
      [rs[0]] + tail
  }

  // ---------------------------------------------------------------------------
  // The store

  class DiagramStore {
    var diagrams: Table

    predicate Valid()
      reads this
    {
      KeyedById(diagrams)
    }

    constructor ()
      ensures Valid() && diagrams == map[]
    {
      diagrams := map[];
    }

    /** `saveDiagram`: writes the record under its id (replacing any record
        there) and returns it. */
    method Save(input: SaveInput, now: string, freshId: string) returns (d: DiagramRecord)
      requires Valid()
      modifies this
      ensures Valid()
      ensures d == SavedRecord(old(diagrams), input, now, freshId)
      ensures diagrams == old(diagrams)[d.id := d]
    {
      d := SavedRecord(diagrams, input, now, freshId);
      diagrams := diagrams[d.id := d];
    }

    /** `loadDiagram`. */
    method Load(id: string) returns (r: Option<DiagramRecord>)
      requires Valid()
      ensures id in diagrams ==> r == Some(diagrams[id]) && r.value.id == id
      ensures id !in diagrams ==> r.None?
    {
      r := if id in diagrams then Some(diagrams[id]) else None;
    }

    /** `deleteDiagram`: only that id goes; deleting a missing id does nothing. */
    method Delete(id: string)
      requires Valid()
      modifies this
      ensures Valid()
      ensures diagrams == old(diagrams) - {id}
    {
      diagrams := diagrams - {id};
    }

    /** `listDiagrams`: every record once, newest `updatedAt` first. The order
        among records with equal timestamps is not fixed. */
    method List() returns (rs: seq<DiagramRecord>)
      requires Valid()
      ensures NewestFirst(rs)
      ensures |rs| == |diagrams|
      ensures forall i :: 0 <= i < |rs| ==> rs[i].id in diagrams && diagrams[rs[i].id] == rs[i]
      ensures forall k :: k in diagrams ==> diagrams[k] in rs
    {
      rs := [];
      var remaining := diagrams.Keys;
      while remaining != {}
        invariant remaining <= diagrams.Keys
        invariant NewestFirst(rs)
        invariant |rs| + |remaining| == |diagrams|
        invariant forall i :: 0 <= i < |rs| ==> rs[i].id in diagrams && rs[i].id !in remaining && diagrams[rs[i].id] == rs[i]
        invariant forall k :: k in diagrams && k !in remaining ==> diagrams[k] in rs
        decreases |remaining|
      {
        var k :| k in remaining;
        var before := rs;
        rs := InsertNewestFirst(rs, diagrams[k]);
        assert forall x :: x in rs <==> x in before || x == diagrams[k] by {
          forall x ensures x in rs <==> x in before || x == diagrams[k] {
            assert x in rs <==> x in multiset(rs);
            assert x in before <==> x in multiset(before);
          }
        }
        remaining := remaining - {k};
        assert |rs| == |before| + 1 by {
          assert |multiset(rs)| == |multiset(before)| + 1;
        }
        forall i | 0 <= i < |rs|
          ensures rs[i].id in diagrams && rs[i].id !in remaining && diagrams[rs[i].id] == rs[i]
        {
          assert rs[i] in rs;
          if rs[i] != diagrams[k] {
            var j :| 0 <= j < |before| && before[j] == rs[i];
          }
        }
      }
      assert diagrams.Keys == diagrams.Keys - remaining;
    }
  }

  // ---------------------------------------------------------------------------
  // Properties across calls

  /** After a save, loading its id gives the saved record and every other id
      loads what it did before. */
  lemma SaveThenLoad(table: Table, input: SaveInput, now: string, freshId: string, other: string)
    requires KeyedById(table)
    ensures var d := SavedRecord(table, input, now, freshId);
      var after := table[d.id := d];
      KeyedById(after) && after[d.id] == d
      && (other != d.id ==> (other in after <==> other in table) && (other in table ==> after[other] == table[other]))
  {
  }

  /** One call of `saveDiagram`: its input, its time and the id it would draw. */
  datatype SaveCall = SaveCall(input: SaveInput, now: string, freshId: string)

  /** The table after a sequence of saves. */
  function SaveAll(table: Table, calls: seq<SaveCall>): Table
    decreases |calls|
  {
    if calls == [] then table
    else
      var d := SavedRecord(table, calls[0].input, calls[0].now, calls[0].freshId);
      SaveAll(table[d.id := d], calls[1..])
  }

  /** Saving to one id again and again keeps the creation time of the first
      save, as long as that time was not empty. */
  lemma {:induction false} RepeatedSavesKeepCreatedAt(table: Table, id: string, calls: seq<SaveCall>)
    requires id != ""
    requires id in table && table[id].createdAt != ""
    requires forall i :: 0 <= i < |calls| ==> calls[i].input.id == Some(id)
    ensures id in SaveAll(table, calls) && SaveAll(table, calls)[id].createdAt == table[id].createdAt
    decreases |calls|
  {
    if calls != [] {
      var d := SavedRecord(table, calls[0].input, calls[0].now, calls[0].freshId);
      assert d.id == id;
      assert forall i :: 0 <= i < |calls[1..]| ==> calls[1..][i] == calls[i + 1];
      RepeatedSavesKeepCreatedAt(table[d.id := d], id, calls[1..]);
    }
  }

  /** The first save of a new id stamps it with its own time. */
  lemma FirstSaveStampsCreatedAt(table: Table, input: SaveInput, now: string, freshId: string)
    requires SaveId(input, freshId) !in table
    ensures SavedRecord(table, input, now, freshId).createdAt == now
    ensures SavedRecord(table, input, now, freshId).updatedAt == now
  {
  }
}
