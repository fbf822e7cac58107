/** `compare_content`: source and restored rows compared as multisets under one shared budget. */
module CompareContent {
  import opened Outcomes
  import opened CopyFormat
  import opened CopyRows
  import Sizes

  /** What one COPY delivers: its chunks and the clock when each arrives. */
  datatype CopyOut = CopyOut(chunks: seq<seq<byte>>, now: seq<int>)
  type Copy = c: CopyOut | |c.chunks| == |c.now| witness CopyOut([], [])

  datatype Relation = Relation(schema: string, table: string, kind: char)

  /** A catalogue is its relations, its collation keys and everything else that is compared. */
  datatype Catalog = Catalog(relations: seq<Relation>, collations: nat, definitions: nat)

  datatype Database = Database(
    catalog: Catalog, sequences: seq<int>, copy: Relation -> Copy, oids: seq<nat>, content: nat -> seq<byte>)

  datatype Denied =
    | CollationMismatch | CatalogMismatch | SequenceMismatch | ContentRowBound | RowMismatch
    | StreamDenied(reason: Reason)
    | ObjectIdentityMismatch | ObjectBudget | ObjectMismatch

  // --- The private table of row counts ---

  class RowCounts {
    var n: map<seq<byte>, nat>
    /** The multiset the table stands for; a row may stay listed with count zero. */
    ghost var contents: multiset<seq<byte>>

    ghost predicate Valid()
      reads this
    {
      forall row :: contents[row] == if row in n then n[row] else 0
    }

    constructor ()
      ensures Valid() && contents == multiset{}
    {
      n, contents := map[], multiset{};
    }

    method Insert(row: seq<byte>)
      requires Valid()
      modifies this
      ensures Valid() && contents == old(contents) + multiset{row}
    {
      n := n[row := if row in n then n[row] + 1 else 1];
      contents := contents + multiset{row};
    }

    method Remove(row: seq<byte>) returns (changed: bool)
      requires Valid()
      modifies this
      ensures Valid() && contents == old(contents) - multiset{row}
      ensures changed <==> row in old(contents)
    {
      changed := row in n && n[row] > 0;
      if changed {
        n := n[row := n[row] - 1];
      }
      contents := contents - multiset{row};
    }

    /** Is any count left nonzero? */
    method Unbalanced() returns (some: bool)
      requires Valid()
      ensures some <==> contents != multiset{}
    {
      some := exists row | row in n :: n[row] != 0;
      if some {
        ghost var row :| row in n && n[row] != 0;
        assert row in contents;
      } else {
        assert forall row :: contents[row] == 0;
      }
    }

    method Clear()
      modifies this
      ensures Valid() && contents == multiset{}
    {
      n, contents := map[], multiset{};
    }
  }

  // --- One table ---

  function Sent(c: Copy): seq<byte> {
    Flat(c.chunks)
  }

  function RowsOf(c: Copy, limits: Limits): seq<seq<byte>> {
    StreamRows(Sent(c), limits.rowBytes)
  }

  /** The stream is acceptable for its own sake, whatever the shared budget. */
  predicate Readable(c: Copy, limits: Limits, end: int) {
    InTime(c.now, end) && Parse(Sent(c), limits.rowBytes).Some? && |Sent(c)| <= limits.contentBytes
  }

  /** The two streams carry the same rows the same number of times, in whatever order. */
  predicate TableMatches(source: Copy, target: Copy, limits: Limits, end: int) {
    && Readable(source, limits, end) && Readable(target, limits, end)
    && |RowsOf(source, limits)| <= limits.rows
    && multiset(RowsOf(source, limits)) == multiset(RowsOf(target, limits))
  }

  /** The reader's test is the stream's own, plus what is left of the shared budget. */
  lemma AcceptsReadable(c: Copy, limits: Limits, end: int, bytesLeft: int, rowsLeft: int)
    ensures InTime(c.now, end) && Accepts(Sent(c), limits, bytesLeft, rowsLeft) <==>
              Readable(c, limits, end) && |Sent(c)| <= bytesLeft && |RowsOf(c, limits)| <= rowsLeft
    ensures Parse(Sent(c), limits.rowBytes).Some? ==> Parse(Sent(c), limits.rowBytes).value == RowsOf(c, limits)
  {
  }

  /** The reader's reason holds of the stream it read. */
  ghost predicate Explained(c: Copy, limits: Limits, end: int, bytesLeft: int, rowsLeft: int, reason: Reason) {
    if reason == Deadline then !InTime(c.now, end) else Explains(reason, Sent(c), limits, bytesLeft, rowsLeft)
  }

  /** Counting the source's rows up. */
  method ReadSource(source: Copy, limits: Limits, end: int, budget: ContentBudget, counts: RowCounts)
    returns (count: nat, denied: Option<Denied>)
    requires limits.Valid() && counts.Valid() && counts.contents == multiset{}
    modifies budget, counts
    ensures denied == None <==>
              && Readable(source, limits, end) && |RowsOf(source, limits)| <= limits.rows
              && |Sent(source)| <= old(budget.bytesLeft) && |RowsOf(source, limits)| <= old(budget.rowsLeft)
    ensures denied == None ==>
              && count == |RowsOf(source, limits)| && counts.contents == multiset(RowsOf(source, limits))
              && 0 <= budget.bytesLeft == old(budget.bytesLeft) - |Sent(source)|
              && 0 <= budget.rowsLeft == old(budget.rowsLeft) - count
    ensures denied == Some(ContentRowBound) ==> |RowsOf(source, limits)| > limits.rows
    ensures denied.Some? && denied.value != ContentRowBound ==>
              && denied.value.StreamDenied?
              && Explained(source, limits, end, old(budget.bytesLeft), old(budget.rowsLeft), denied.value.reason)
    ensures counts.Valid()
  {
    hide Readable, Accepts, InTime, Explains, StreamRows, Parse, Flat, RowCounts.Valid, Limits.Valid;
    AcceptsReadable(source, limits, end, budget.bytesLeft, budget.rowsLeft);
    var rows, refusal := Rows(source.chunks, limits, source.now, end, budget);
    count, denied := 0, None;
    for i := 0 to |rows|
      invariant count == i <= limits.rows && denied == None
      invariant counts.Valid() && counts.contents == multiset(rows[..i])
      modifies counts
    {
      count := count + 1;
      if count > limits.rows {
        denied := Some(ContentRowBound);
        return;
      }
      counts.Insert(rows[i]);
      assert rows[..i + 1] == rows[..i] + [rows[i]];
    }
    assert rows[..|rows|] == rows;
    if refusal.Some? {
      denied := Some(StreamDenied(refusal.value));
    }
  }

  /** What is left of `all` once the rows of `part` are counted down. */
  lemma CountDown(all: multiset<seq<byte>>, rows: seq<seq<byte>>, i: nat)
    requires i < |rows| && multiset(rows[..i]) <= all
    ensures multiset(rows[..i + 1]) == multiset(rows[..i]) + multiset{rows[i]}
    ensures all - multiset(rows[..i + 1]) == all - multiset(rows[..i]) - multiset{rows[i]}
    ensures (all - multiset(rows[..i]))[rows[i]] > 0 <==> multiset(rows[..i + 1]) <= all
  {
    assert rows[..i + 1] == rows[..i] + [rows[i]];
    var next := multiset(rows[..i]) + multiset{rows[i]};
    if (all - multiset(rows[..i]))[rows[i]] > 0 {
      assert next <= all;
    } else {
      assert next[rows[i]] > all[rows[i]];
    }
  }

  lemma {:induction false} CountedNothing(all: multiset<seq<byte>>, rows: seq<seq<byte>>)
    ensures multiset(rows[..0]) <= all && all - multiset(rows[..0]) == all
  {
    assert rows[..0] == [];
  }

  lemma CountedAll(all: multiset<seq<byte>>, rows: seq<seq<byte>>)
    ensures multiset(rows) <= all && all - multiset(rows) == multiset{} <==> multiset(rows) == all
  {
    if multiset(rows) <= all {
      assert all == (all - multiset(rows)) + multiset(rows);
    }
  }

  /** A row counted down too often stays too many, whatever rows follow. */
  lemma CountedTooOften(all: multiset<seq<byte>>, rows: seq<seq<byte>>, i: nat)
    requires i <= |rows| && !(multiset(rows[..i]) <= all)
    ensures !(multiset(rows) <= all)
  {
    assert rows == rows[..i] + rows[i..];
    assert multiset(rows[..i]) <= multiset(rows);
  }

  lemma LeadingRows(rows: seq<seq<byte>>, wanted: seq<seq<byte>>)
    requires rows <= wanted
    ensures multiset(rows) <= multiset(wanted)
  {
    assert wanted == rows + wanted[|rows|..];
  }

  /** The loop over the restored rows: each must still be owed. */
  method CountRowsDown(rows: seq<seq<byte>>, counts: RowCounts) returns (owed: bool)
    requires counts.Valid()
    modifies counts
    ensures counts.Valid()
    ensures owed <==> multiset(rows) <= old(counts.contents)
    ensures owed ==> counts.contents == old(counts.contents) - multiset(rows)
  {
    hide RowCounts.Valid;
    ghost var all := counts.contents;
    CountedNothing(all, rows);
    for i := 0 to |rows|
      invariant multiset(rows[..i]) <= all
      invariant counts.Valid() && counts.contents == all - multiset(rows[..i])
    {
      CountDown(all, rows, i);
      var changed := counts.Remove(rows[i]);
      if !changed {
        CountedTooOften(all, rows, i + 1);
        return false;
      }
    }
    assert rows[..|rows|] == rows;
    return true;
  }

  /** Counting the restored rows down: every row must be owed, and nothing may stay owed. */
  method ReadTarget(target: Copy, limits: Limits, end: int, budget: ContentBudget, counts: RowCounts)
    returns (denied: Option<Denied>)
    requires limits.Valid() && counts.Valid()
    modifies budget, counts
    ensures denied == None <==>
              && Readable(target, limits, end) && multiset(RowsOf(target, limits)) == old(counts.contents)
              && |Sent(target)| <= old(budget.bytesLeft) && |RowsOf(target, limits)| <= old(budget.rowsLeft)
    ensures denied == None ==>
              && 0 <= budget.bytesLeft == old(budget.bytesLeft) - |Sent(target)|
              && 0 <= budget.rowsLeft == old(budget.rowsLeft) - |RowsOf(target, limits)|
    ensures denied == Some(RowMismatch) ==> multiset(RowsOf(target, limits)) != old(counts.contents)
    ensures Readable(target, limits, end) && multiset(RowsOf(target, limits)) != old(counts.contents)
            && |Sent(target)| <= old(budget.bytesLeft) && |RowsOf(target, limits)| <= old(budget.rowsLeft) ==>
              denied == Some(RowMismatch)
    ensures denied.Some? && denied.value != RowMismatch ==>
              && denied.value.StreamDenied?
              && Explained(target, limits, end, old(budget.bytesLeft), old(budget.rowsLeft), denied.value.reason)
    ensures counts.Valid()
  {
    hide Readable, Accepts, InTime, Explains, StreamRows, Parse, Flat, RowCounts.Valid, Limits.Valid;
    AcceptsReadable(target, limits, end, budget.bytesLeft, budget.rowsLeft);
    var rows, refusal := Rows(target.chunks, limits, target.now, end, budget);
    LeadingRows(rows, RowsOf(target, limits));
    CountedAll(counts.contents, rows);
    denied := None;
    var owed := CountRowsDown(rows, counts);
    if !owed {
      denied := Some(RowMismatch);
      return;
    }
    if refusal.Some? {
      denied := Some(StreamDenied(refusal.value));
      return;
    }
    var some := counts.Unbalanced();
    if some {
      denied := Some(RowMismatch);
    }
  }

  method CompareTable(source: Copy, target: Copy, limits: Limits, end: int, budget: ContentBudget, counts: RowCounts)
    returns (count: nat, denied: Option<Denied>)
    requires limits.Valid() && counts.Valid() && counts.contents == multiset{}
    modifies budget, counts
    ensures denied == None <==>
              && TableMatches(source, target, limits, end)
              && |Sent(source)| + |Sent(target)| <= old(budget.bytesLeft)
              && |RowsOf(source, limits)| + |RowsOf(target, limits)| <= old(budget.rowsLeft)
    ensures denied == None ==>
              && counts.Valid() && counts.contents == multiset{} && count == |RowsOf(source, limits)|
              && budget.bytesLeft == old(budget.bytesLeft) - |Sent(source)| - |Sent(target)|
              && budget.rowsLeft == old(budget.rowsLeft) - |RowsOf(source, limits)| - |RowsOf(target, limits)|
    ensures denied == Some(RowMismatch) ==>
              multiset(RowsOf(source, limits)) != multiset(RowsOf(target, limits))
    ensures Readable(source, limits, end) && Readable(target, limits, end) && |RowsOf(source, limits)| <= limits.rows
            && |Sent(source)| + |Sent(target)| <= old(budget.bytesLeft)
            && |RowsOf(source, limits)| + |RowsOf(target, limits)| <= old(budget.rowsLeft)
            && multiset(RowsOf(source, limits)) != multiset(RowsOf(target, limits)) ==>
              denied == Some(RowMismatch)
    ensures denied == Some(ContentRowBound) ==> |RowsOf(source, limits)| > limits.rows
    ensures denied.Some? && denied.value !in {RowMismatch, ContentRowBound} ==>
              && denied.value.StreamDenied?
              && var bytesLeft, rowsLeft := old(budget.bytesLeft), old(budget.rowsLeft);
                 || Explained(source, limits, end, bytesLeft, rowsLeft, denied.value.reason)
                 || Explained(target, limits, end, bytesLeft - |Sent(source)|, rowsLeft - |RowsOf(source, limits)|,
                              denied.value.reason)
  {
    hide Readable, Flat, StreamRows, RowCounts.Valid, Limits.Valid, Explained;
    count, denied := ReadSource(source, limits, end, budget, counts);
    if denied.Some? {
      return;
    }
    denied := ReadTarget(target, limits, end, budget, counts);
    if denied.Some? {
      return;
    }
    counts.Clear();
  }

  // --- All tables ---

  /** Partition leaves are ordinary tables; partitioned parents and views hold no data. */
  predicate HoldsData(r: Relation) {
    r.kind == 'r' || r.kind == 'm'
  }

  function Key(r: Relation): string {
    r.schema + "." + r.table
  }

  function TableBytes(db: Database, relations: seq<Relation>): nat {
    if relations == [] then 0
    else
      var r := relations[|relations| - 1];
      TableBytes(db, relations[..|relations| - 1]) + if HoldsData(r) then |Sent(db.copy(r))| else 0
  }

  function TableRows(db: Database, relations: seq<Relation>, limits: Limits): nat {
    if relations == [] then 0
    else
      var r := relations[|relations| - 1];
      TableRows(db, relations[..|relations| - 1], limits) + if HoldsData(r) then |RowsOf(db.copy(r), limits)| else 0
  }

  function Tallies(db: Database, relations: seq<Relation>, limits: Limits): map<string, nat> {
    if relations == [] then map[]
    else
      var r, before := relations[|relations| - 1], Tallies(db, relations[..|relations| - 1], limits);
      if HoldsData(r) then before[Key(r) := |RowsOf(db.copy(r), limits)|] else before
  }

  ghost predicate TablesMatch(source: Database, target: Database, relations: seq<Relation>, limits: Limits, end: int) {
    forall r | r in relations && HoldsData(r) :: TableMatches(source.copy(r), target.copy(r), limits, end)
  }

  /** What the tables before `i` used cannot exceed what all of them use. */
  lemma {:induction false} UsedSoFar(db: Database, relations: seq<Relation>, i: nat, limits: Limits)
    requires i <= |relations|
    ensures TableBytes(db, relations[..i]) <= TableBytes(db, relations)
    ensures TableRows(db, relations[..i], limits) <= TableRows(db, relations, limits)
  {
    if i < |relations| {
      var shorter := relations[..|relations| - 1];
      UsedSoFar(db, shorter, i, limits);
      assert shorter[..i] == relations[..i];
    } else {
      assert relations[..i] == relations;
    }
  }

  lemma OneMoreTable(db: Database, relations: seq<Relation>, i: nat, limits: Limits)
    requires i < |relations|
    ensures var r := relations[i];
            && TableBytes(db, relations[..i + 1])
               == TableBytes(db, relations[..i]) + (if HoldsData(r) then |Sent(db.copy(r))| else 0)
            && TableRows(db, relations[..i + 1], limits)
               == TableRows(db, relations[..i], limits) + (if HoldsData(r) then |RowsOf(db.copy(r), limits)| else 0)
            && Tallies(db, relations[..i + 1], limits)
               == (if HoldsData(r) then Tallies(db, relations[..i], limits)[Key(r) := |RowsOf(db.copy(r), limits)|]
                   else Tallies(db, relations[..i], limits))
  {
    assert relations[..i + 1][..i] == relations[..i];
  }

  /** The loop over the catalogue's relations, all charged to one budget. */
  method CompareTables(source: Database, target: Database, relations: seq<Relation>, limits: Limits, end: int,
                       budget: ContentBudget)
    returns (tallies: map<string, nat>, denied: Option<Denied>)
    requires limits.Valid() && 0 <= budget.bytesLeft && 0 <= budget.rowsLeft
    modifies budget
    ensures denied == None <==>
              && TablesMatch(source, target, relations, limits, end)
              && TableBytes(source, relations) + TableBytes(target, relations) <= old(budget.bytesLeft)
              && TableRows(source, relations, limits) + TableRows(target, relations, limits) <= old(budget.rowsLeft)
    ensures denied == None ==>
              && tallies == Tallies(source, relations, limits)
              && budget.bytesLeft
                 == old(budget.bytesLeft) - TableBytes(source, relations) - TableBytes(target, relations)
              && budget.rowsLeft
                 == old(budget.rowsLeft) - TableRows(source, relations, limits) - TableRows(target, relations, limits)
    ensures denied == Some(RowMismatch) ==> !TablesMatch(source, target, relations, limits, end)
  {
    hide Flat, StreamRows, Readable, RowCounts.Valid, Limits.Valid, TableBytes, TableRows, Tallies, Key;
    NothingUsed(source, relations, limits);
    NothingUsed(target, relations, limits);
    var counts := new RowCounts();
    tallies, denied := map[], None;
    ghost var bytes, rows := budget.bytesLeft, budget.rowsLeft;
    for i := 0 to |relations|
      invariant denied == None && counts.Valid() && counts.contents == multiset{} && fresh(counts)
      invariant TablesMatch(source, target, relations[..i], limits, end)
      invariant 0 <= budget.bytesLeft == bytes - TableBytes(source, relations[..i]) - TableBytes(target, relations[..i])
      invariant 0 <= budget.rowsLeft
                == rows - TableRows(source, relations[..i], limits) - TableRows(target, relations[..i], limits)
      invariant tallies == Tallies(source, relations[..i], limits)
    {
      var r := relations[i];
      OneMoreTable(source, relations, i, limits);
      OneMoreTable(target, relations, i, limits);
      UsedSoFar(source, relations, i + 1, limits);
      UsedSoFar(target, relations, i + 1, limits);
      assert relations[..i + 1] == relations[..i] + [r];
      if !HoldsData(r) {
        continue;
      }
      var count;
      count, denied := CompareTable(source.copy(r), target.copy(r), limits, end, budget, counts);
      if denied.Some? {
        return;
      }
      tallies := tallies[Key(r) := count];
    }
    assert relations[..|relations|] == relations;
  }

  lemma NothingUsed(db: Database, relations: seq<Relation>, limits: Limits)
    ensures TableBytes(db, relations[..0]) == TableRows(db, relations[..0], limits) == 0
    ensures Tallies(db, relations[..0], limits) == map[]
  {
  }

  // --- Large objects ---

  /** A query with a LIMIT, or `lo_get` with a length. */
  function Limited<T>(s: seq<T>, limit: nat): seq<T> {
    if |s| <= limit then s else s[..limit]
  }

  function ObjectBytes(db: Database, oids: seq<nat>): nat {
    if oids == [] then 0 else ObjectBytes(db, oids[..|oids| - 1]) + |db.content(oids[|oids| - 1])|
  }

  ghost predicate ObjectsMatch(source: Database, target: Database, limits: Limits) {
    && |source.oids| <= limits.objects && target.oids == source.oids
    && forall oid | oid in source.oids ::
         source.content(oid) == target.content(oid) && |source.content(oid)| <= limits.rowBytes
  }

  /** Reading one element past the bound decides equality of the whole. */
  lemma {:induction false} OnePastTheBound<T>(a: seq<T>, b: seq<T>, bound: nat)
    ensures |Limited(a, bound + 1)| <= bound && Limited(a, bound + 1) == Limited(b, bound + 1) <==>
              |a| <= bound && a == b
  {
  }

  lemma Short<T>(s: seq<T>, limit: nat)
    ensures |Limited(s, limit)| <= |s| && (|Limited(s, limit)| < limit ==> Limited(s, limit) == s)
  {
  }

  lemma {:induction false} ObjectsSoFar(db: Database, oids: seq<nat>, i: nat)
    requires i <= |oids|
    ensures ObjectBytes(db, oids[..i]) <= ObjectBytes(db, oids)
    ensures ObjectBytes(db, oids[..0]) == 0
    ensures i < |oids| ==> ObjectBytes(db, oids[..i + 1]) == ObjectBytes(db, oids[..i]) + |db.content(oids[i])|
  {
    if i < |oids| {
      var shorter := oids[..|oids| - 1];
      ObjectsSoFar(db, shorter, i);
      assert shorter[..i] == oids[..i] && oids[..i + 1][..i] == oids[..i];
    } else {
      assert oids[..i] == oids;
    }
  }

  lemma {:induction false} EqualObjects(source: Database, target: Database, oids: seq<nat>)
    requires forall oid | oid in oids :: source.content(oid) == target.content(oid)
    ensures ObjectBytes(source, oids) == ObjectBytes(target, oids)
  {
    if oids != [] {
      EqualObjects(source, target, oids[..|oids| - 1]);
    }
  }

  /** What the first objects and one more pair cost is part of what all of them hold. */
  lemma ReadSoFarFits(source: Database, target: Database, oids: seq<nat>, i: nat, limit: nat)
    requires i < |oids| && forall k | 0 <= k < i :: source.content(oids[k]) == target.content(oids[k])
    ensures 2 * ObjectBytes(source, oids[..i]) + |Limited(source.content(oids[i]), limit)|
            + |Limited(target.content(oids[i]), limit)|
            <= ObjectBytes(source, oids) + ObjectBytes(target, oids)
  {
    hide ObjectBytes, Limited;
    Short(source.content(oids[i]), limit);
    Short(target.content(oids[i]), limit);
    ObjectsSoFar(source, oids, i);
    ObjectsSoFar(source, oids, i + 1);
    ObjectsSoFar(target, oids, i);
    ObjectsSoFar(target, oids, i + 1);
    EqualObjects(source, target, oids[..i]);
  }

  method CompareObjects(source: Database, target: Database, limits: Limits, budget: ContentBudget)
    returns (denied: Option<Denied>)
    requires 0 <= budget.bytesLeft && 0 <= budget.rowsLeft
    modifies budget
    ensures denied == None <==>
              ObjectsMatch(source, target, limits) && 2 * ObjectBytes(source, source.oids) <= old(budget.bytesLeft)
    ensures denied == None ==>
              && budget.bytesLeft == old(budget.bytesLeft) - 2 * ObjectBytes(source, source.oids)
              && budget.rowsLeft == old(budget.rowsLeft)
    ensures denied == Some(ObjectIdentityMismatch) <==> |source.oids| > limits.objects || source.oids != target.oids
    ensures denied == Some(ObjectMismatch) ==>
              exists oid | oid in source.oids ::
                source.content(oid) != target.content(oid) || |source.content(oid)| > limits.rowBytes
    ensures denied == Some(ObjectBudget) ==>
              ObjectBytes(source, source.oids) + ObjectBytes(target, source.oids) > old(budget.bytesLeft)
    ensures denied.Some? ==> denied.value in {ObjectIdentityMismatch, ObjectMismatch, ObjectBudget}
  {
    hide ObjectBytes, Limited;
    var oids := Limited(source.oids, limits.objects + 1);
    OnePastTheBound(source.oids, target.oids, limits.objects);
    denied := None;
    if |oids| > limits.objects || oids != Limited(target.oids, limits.objects + 1) {
      return Some(ObjectIdentityMismatch);
    }
    ghost var bytes := budget.bytesLeft;
    assert oids == source.oids by { Short(source.oids, limits.objects + 1); }
    ObjectsSoFar(source, oids, 0);
    for i := 0 to |oids|
      invariant 0 <= budget.bytesLeft == bytes - 2 * ObjectBytes(source, oids[..i])
      invariant budget.rowsLeft == old(budget.rowsLeft)
      invariant forall k | 0 <= k < i ::
                  source.content(oids[k]) == target.content(oids[k]) && |source.content(oids[k])| <= limits.rowBytes
    {
      var left := Limited(source.content(oids[i]), limits.rowBytes + 1);
      var right := Limited(target.content(oids[i]), limits.rowBytes + 1);
      OnePastTheBound(source.content(oids[i]), target.content(oids[i]), limits.rowBytes);
      ObjectsSoFar(source, oids, i);
      ObjectsSoFar(source, oids, i + 1);
      Short(source.content(oids[i]), limits.rowBytes + 1);
      ReadSoFarFits(source, target, oids, i, limits.rowBytes + 1);
      var charged := budget.Charge(|left| + |right|, 0);
      if !charged {
        return Some(ObjectBudget);
      }
      if |left| > limits.rowBytes || left != right {
        return Some(ObjectMismatch);
      }
    }
    assert oids[..|oids|] == oids;
  }

  // --- The whole comparison ---

  /** The restored database is the source, within the limits. */
  ghost predicate Same(source: Database, target: Database, limits: Limits, end: int) {
    var relations := source.catalog.relations;
    && source.catalog == target.catalog && source.sequences == target.sequences
    && TablesMatch(source, target, relations, limits, end)
    && ObjectsMatch(source, target, limits)
    && TableBytes(source, relations) + TableBytes(target, relations) + 2 * ObjectBytes(source, source.oids)
       <= limits.contentBytes * 2
    && TableRows(source, relations, limits) + TableRows(target, relations, limits) <= limits.rows * 2
  }

  /** When the databases are the same, every table and every materialized view agrees and is tallied. */
  lemma {:induction false} Tallied(source: Database, target: Database, limits: Limits, end: int)
    ensures Same(source, target, limits, end) ==>
              forall r | r in source.catalog.relations && r.kind in {'r', 'm'} ::
                && multiset(RowsOf(source.copy(r), limits)) == multiset(RowsOf(target.copy(r), limits))
                && r.schema + "." + r.table in Tallies(source, source.catalog.relations, limits)
  {
    hide RowsOf, Readable, Tallies, TableBytes, TableRows, ObjectsMatch;
    TallyKeys(source, source.catalog.relations, limits);
  }

  /** Two databases that agree but for the copies of relations that are neither tables nor materialized views. */
  ghost predicate OtherKindsAside(a: Database, b: Database) {
    && a.(copy := b.copy) == b
    && forall r: Relation | r.kind in {'r', 'm'} :: a.copy(r) == b.copy(r)
  }

  lemma {:induction false} OtherKindsUnread(a: Database, b: Database, relations: seq<Relation>, limits: Limits)
    requires OtherKindsAside(a, b)
    ensures TableBytes(a, relations) == TableBytes(b, relations)
    ensures TableRows(a, relations, limits) == TableRows(b, relations, limits)
    ensures Tallies(a, relations, limits) == Tallies(b, relations, limits)
  {
    hide RowsOf, Sent, Key;
    if relations != [] {
      OtherKindsUnread(a, b, relations[..|relations| - 1], limits);
    }
  }

  /** Relations of other kinds play no part: partitioned tables, views and foreign tables are never read. */
  lemma {:induction false} OtherKindsIgnored(source: Database, target: Database, source': Database, target': Database,
                                             limits: Limits, end: int)
    requires OtherKindsAside(source, source') && OtherKindsAside(target, target')
    ensures Same(source, target, limits, end) <==> Same(source', target', limits, end)
    ensures Tallies(source, source.catalog.relations, limits) == Tallies(source', source.catalog.relations, limits)
  {
    hide RowsOf, TableMatches, TableBytes, TableRows, Tallies;
    OtherKindsUnread(source, source', source.catalog.relations, limits);
    OtherKindsUnread(target, target', source.catalog.relations, limits);
    SameObjects(source, source', source.oids);
  }

  lemma {:induction false} SameObjects(a: Database, b: Database, oids: seq<nat>)
    requires a.content == b.content
    ensures ObjectBytes(a, oids) == ObjectBytes(b, oids)
  {
    if oids != [] {
      SameObjects(a, b, oids[..|oids| - 1]);
    }
  }

  method CompareContent(source: Database, target: Database, limits: Limits, end: int)
    returns (tallies: map<string, nat>, denied: Option<Denied>)
    requires limits.Valid()
    ensures denied == None <==> Same(source, target, limits, end)
    ensures denied == None ==> tallies == Tallies(source, source.catalog.relations, limits)
    ensures denied == None ==>
              forall r | r in source.catalog.relations && r.kind in {'r', 'm'} ::
                && multiset(RowsOf(source.copy(r), limits)) == multiset(RowsOf(target.copy(r), limits))
                && r.schema + "." + r.table in tallies
    ensures source.catalog != target.catalog ==>
              denied == Some(if source.catalog.collations != target.catalog.collations then CollationMismatch
                             else CatalogMismatch)
    ensures source.catalog == target.catalog && source.sequences != target.sequences ==>
              denied == Some(SequenceMismatch)
  {
    Tallied(source, target, limits, end);
    tallies := map[];
    if source.catalog.collations != target.catalog.collations {
      return tallies, Some(CollationMismatch);
    }
    if source.catalog != target.catalog {
      return tallies, Some(CatalogMismatch);
    }
    if source.sequences != target.sequences {
      return tallies, Some(SequenceMismatch);
    }
    var budget := new ContentBudget(limits.contentBytes * 2, limits.rows * 2);
    tallies, denied := CompareTables(source, target, source.catalog.relations, limits, end, budget);
    if denied.Some? {
      return;
    }
    denied := CompareObjects(source, target, limits, budget);
  }

  // --- What the verdict means ---

  function Bytes(rows: seq<seq<byte>>): nat {
    if rows == [] then 0 else |rows[0]| + Bytes(rows[1..])
  }

  lemma BytesFirst(rows: seq<seq<byte>>)
    requires rows != []
    ensures Bytes(rows) == |rows[0]| + Bytes(rows[1..])
  {
  }

  lemma RowsWithout(rows: seq<seq<byte>>, i: nat)
    requires i < |rows|
    ensures multiset(rows[..i] + rows[i + 1..]) == multiset(rows) - multiset{rows[i]}
  {
    assert rows == rows[..i] + [rows[i]] + rows[i + 1..];
  }

  lemma {:induction false} BytesWithout(rows: seq<seq<byte>>, i: nat)
    requires i < |rows|
    ensures Bytes(rows) == |rows[i]| + Bytes(rows[..i] + rows[i + 1..])
    ensures multiset(rows[..i] + rows[i + 1..]) == multiset(rows) - multiset{rows[i]}
    decreases i
  {
    hide Bytes;
    RowsWithout(rows, i);
    BytesFirst(rows);
    if i == 0 {
      assert rows[..0] + rows[1..] == rows[1..];
    } else {
      BytesWithout(rows[1..], i - 1);
      var shorter := rows[..i] + rows[i + 1..];
      assert shorter[1..] == rows[1..][..i - 1] + rows[1..][i..];
      BytesFirst(shorter);
    }
  }

  lemma Find(row: seq<byte>, rows: seq<seq<byte>>) returns (i: nat)
    requires row in multiset(rows)
    ensures i < |rows| && rows[i] == row
  {
    i :| 0 <= i < |rows| && rows[i] == row;
  }

  lemma SameCount(a: seq<seq<byte>>, b: seq<seq<byte>>)
    requires multiset(a) == multiset(b)
    ensures |a| == |b|
  {
    assert |a| == |multiset(a)| && |b| == |multiset(b)|;
  }

  lemma FirstRow(rows: seq<seq<byte>>)
    requires rows != []
    ensures Bytes(rows) == |rows[0]| + Bytes(rows[1..]) && multiset(rows[1..]) == multiset(rows) - multiset{rows[0]}
  {
    assert rows == [rows[0]] + rows[1..];
  }

  /** Order does not change how many bytes the rows make. */
  lemma {:induction false} SameRowsSameBytes(a: seq<seq<byte>>, b: seq<seq<byte>>)
    requires multiset(a) == multiset(b)
    ensures |a| == |b| && Bytes(a) == Bytes(b)
    decreases |a|
  {
    hide Bytes;
    SameCount(a, b);
    if a != [] {
      var i := Find(a[0], b);
      var rest := b[..i] + b[i + 1..];
      FirstRow(a);
      BytesWithout(b, i);
      SameRowsSameBytes(a[1..], rest);
    }
  }

  lemma {:induction false} RowBytesOf(d: seq<byte>, rowBytes: nat)
    requires ParseRows(d, rowBytes).tail == Ended([])
    ensures |d| == Bytes(ParseRows(d, rowBytes).rows) + 2
    decreases |d|
  {
    if Signed16(d, 0) != -1 {
      var size := FirstFrame(d, rowBytes).size;
      RowBytesOf(d[size..], rowBytes);
      var rows := ParseRows(d, rowBytes).rows;
      assert rows[0] == d[..size] && rows[1..] == ParseRows(d[size..], rowBytes).rows;
    }
  }

  lemma MatchedTables(source: Copy, target: Copy, limits: Limits, end: int)
    requires TableMatches(source, target, limits, end)
    ensures |Sent(source)| == |Sent(target)| && |RowsOf(source, limits)| == |RowsOf(target, limits)|
    ensures TableMatches(target, source, limits, end)
  {
    SameRowsSameBytes(RowsOf(source, limits), RowsOf(target, limits));
    RowBytesOf(Sent(source)[19..], limits.rowBytes);
    RowBytesOf(Sent(target)[19..], limits.rowBytes);
  }

  lemma {:induction false} EqualTables(source: Database, target: Database, relations: seq<Relation>, limits: Limits,
                                       end: int)
    requires TablesMatch(source, target, relations, limits, end)
    ensures TableBytes(source, relations) == TableBytes(target, relations)
    ensures TableRows(source, relations, limits) == TableRows(target, relations, limits)
    ensures Tallies(source, relations, limits) == Tallies(target, relations, limits)
    ensures TablesMatch(target, source, relations, limits, end)
    decreases |relations|
  {
    hide TableMatches, Sent, RowsOf;
    if relations != [] {
      var r := relations[|relations| - 1];
      EqualTables(source, target, relations[..|relations| - 1], limits, end);
      if HoldsData(r) {
        MatchedTables(source.copy(r), target.copy(r), limits, end);
      }
      assert relations == relations[..|relations| - 1] + [r];
    }
  }

  /** The verdict does not depend on which side is read first, although the two sides are read by
      different code, and each side alone is within the limits although the budget is shared. */
  lemma {:induction false} VerdictIsSymmetric(source: Database, target: Database, limits: Limits, end: int)
    ensures Same(source, target, limits, end) <==> Same(target, source, limits, end)
    ensures Same(source, target, limits, end) ==>
              var relations := source.catalog.relations;
              && TableBytes(source, relations) + ObjectBytes(source, source.oids) <= limits.contentBytes
              && TableBytes(target, relations) + ObjectBytes(target, target.oids) <= limits.contentBytes
              && TableRows(source, relations, limits) == TableRows(target, relations, limits) <= limits.rows
              && Tallies(source, relations, limits) == Tallies(target, relations, limits)
  {
    if Same(source, target, limits, end) {
      SameReversed(source, target, limits, end);
    }
    if Same(target, source, limits, end) {
      SameReversed(target, source, limits, end);
    }
  }

  lemma SameReversed(source: Database, target: Database, limits: Limits, end: int)
    requires Same(source, target, limits, end)
    ensures Same(target, source, limits, end)
    ensures ObjectBytes(source, source.oids) == ObjectBytes(target, source.oids)
    ensures var relations := source.catalog.relations;
            && TableBytes(source, relations) == TableBytes(target, relations)
            && TableRows(source, relations, limits) == TableRows(target, relations, limits)
            && Tallies(source, relations, limits) == Tallies(target, relations, limits)
  {
    EqualTables(source, target, source.catalog.relations, limits, end);
    EqualObjects(source, target, source.oids);
  }

  // --- The tallies ---

  function DataTables(relations: seq<Relation>): nat {
    if relations == [] then 0
    else DataTables(relations[..|relations| - 1]) + if HoldsData(relations[|relations| - 1]) then 1 else 0
  }

  ghost predicate KeysDistinct(relations: seq<Relation>) {
    forall i, j | 0 <= i < j < |relations| && HoldsData(relations[i]) && HoldsData(relations[j]) ::
      Key(relations[i]) != Key(relations[j])
  }

  lemma {:induction false} TallyKeys(db: Database, relations: seq<Relation>, limits: Limits)
    ensures forall key :: key in Tallies(db, relations, limits) <==>
                            exists r :: r in relations && HoldsData(r) && Key(r) == key
  {
    hide Key;
    if relations != [] {
      var shorter, r := relations[..|relations| - 1], relations[|relations| - 1];
      TallyKeys(db, shorter, limits);
      assert relations == shorter + [r];
      forall key
        ensures key in Tallies(db, relations, limits) <==> exists q :: q in relations && HoldsData(q) && Key(q) == key
      {
        if HoldsData(r) && Key(r) == key {
          assert r in relations;
        }
      }
    }
  }

  lemma DistinctWithLast(db: Database, relations: seq<Relation>, limits: Limits)
    requires relations != []
    ensures var shorter, r := relations[..|relations| - 1], relations[|relations| - 1];
            KeysDistinct(relations) <==>
              KeysDistinct(shorter) && (HoldsData(r) ==> Key(r) !in Tallies(db, shorter, limits))
  {
    hide Key, Tallies;
    var n := |relations| - 1;
    var shorter, r := relations[..n], relations[n];
    TallyKeys(db, shorter, limits);
    if HoldsData(r) && Key(r) in Tallies(db, shorter, limits) {
      var q :| q in shorter && HoldsData(q) && Key(q) == Key(r);
      var i :| 0 <= i < n && shorter[i] == q;
      assert relations[i] == q;
    }
    if KeysDistinct(shorter) && (HoldsData(r) ==> Key(r) !in Tallies(db, shorter, limits)) {
      forall i, j | 0 <= i < j < |relations| && HoldsData(relations[i]) && HoldsData(relations[j])
        ensures Key(relations[i]) != Key(relations[j])
      {
        assert shorter[i] in shorter;
        if j < n {
          assert shorter[j] == relations[j];
        }
      }
    }
    if KeysDistinct(relations) {
      assert forall i | 0 <= i < n :: shorter[i] == relations[i];
    }
  }

  /** The tallies are keyed by the dotted name, so they have an entry for every data table exactly
      when no two dotted names agree. */
  lemma {:induction false} OneTallyPerTable(db: Database, relations: seq<Relation>, limits: Limits)
    ensures |Tallies(db, relations, limits)| <= DataTables(relations) <= |relations|
    ensures |Tallies(db, relations, limits)| == DataTables(relations) <==> KeysDistinct(relations)
    decreases |relations|
  {
    hide Key, KeysDistinct, RowsOf;
    if relations == [] {
      NoKeys();
    } else {
      var shorter, r := relations[..|relations| - 1], relations[|relations| - 1];
      OneTallyPerTable(db, shorter, limits);
      DistinctWithLast(db, relations, limits);
      Sizes.MapWith(Tallies(db, shorter, limits), Key(r), |RowsOf(db.copy(r), limits)|);
    }
  }

  lemma NoKeys()
    ensures KeysDistinct([])
  {
  }

  /** Of the data tables with one dotted name only the last one's count is kept. */
  lemma {:induction false} LastTallyStands(db: Database, relations: seq<Relation>, limits: Limits, j: nat)
    requires j < |relations| && HoldsData(relations[j])
    requires forall k | j < k < |relations| && HoldsData(relations[k]) :: Key(relations[k]) != Key(relations[j])
    ensures Key(relations[j]) in Tallies(db, relations, limits)
    ensures Tallies(db, relations, limits)[Key(relations[j])] == |RowsOf(db.copy(relations[j]), limits)|
    decreases |relations|
  {
    hide Key, RowsOf;
    var n := |relations| - 1;
    if j < n {
      assert relations[..n][j] == relations[j];
      LastTallyStands(db, relations[..n], limits, j);
    }
  }

  /** `m` is what one name has in its schema and the other in its table. */
  predicate Overlap(q: Relation, r: Relation, m: string) {
    q.schema == r.schema + "." + m && r.table == m + "." + q.table
  }

  /** When two dotted names agree: the same name twice, or a dot inside one schema and the other table. */
  lemma {:induction false} KeysAgreeExactly(q: Relation, r: Relation)
    ensures Key(q) == Key(r) <==>
              || (q.schema == r.schema && q.table == r.table)
              || (exists m :: Overlap(q, r, m)) || exists m :: Overlap(r, q, m)
  {
    if Key(q) == Key(r) {
      if |q.schema| > |r.schema| {
        SplitLater(q, r);
      } else if |q.schema| < |r.schema| {
        SplitLater(r, q);
      } else {
        assert q.schema == Key(q)[..|q.schema|] == r.schema;
        assert q.table == Key(q)[|q.schema| + 1..] == r.table;
      }
    }
    forall m | Overlap(q, r, m)
      ensures Key(q) == Key(r)
    {
      OverlapAgrees(q, r, m);
    }
    forall m | Overlap(r, q, m)
      ensures Key(q) == Key(r)
    {
      OverlapAgrees(r, q, m);
    }
  }

  lemma SplitLater(q: Relation, r: Relation)
    requires Key(q) == Key(r) && |q.schema| > |r.schema|
    ensures Overlap(q, r, q.schema[|r.schema| + 1..])
  {
    var n, key := |r.schema|, Key(q);
    var m := q.schema[n + 1..];
    assert key[..n] == r.schema && key[n] == '.' && key[n + 1..] == r.table;
    assert q.schema == key[..|q.schema|];
    assert q.schema == q.schema[..n] + [q.schema[n]] + m;
    assert r.table == m + "." + q.table;
  }

  lemma OverlapAgrees(q: Relation, r: Relation, m: string)
    requires Overlap(q, r, m)
    ensures Key(q) == Key(r)
  {
    assert r.schema + "." + m + "." + q.table == r.schema + "." + (m + "." + q.table);
  }

  ghost predicate NamesDistinct(relations: seq<Relation>) {
    forall i, j | 0 <= i < j < |relations| && HoldsData(relations[i]) && HoldsData(relations[j]) ::
      relations[i].schema != relations[j].schema || relations[i].table != relations[j].table
  }

  /** Distinct tables keep distinct tallies when no schema name contains a dot, or no table name does. */
  lemma {:induction false} PlainNamesApart(db: Database, relations: seq<Relation>, limits: Limits)
    requires NamesDistinct(relations)
    requires (forall r | r in relations && HoldsData(r) :: '.' !in r.schema)
             || (forall r | r in relations && HoldsData(r) :: '.' !in r.table)
    ensures KeysDistinct(relations) && |Tallies(db, relations, limits)| == DataTables(relations)
  {
    hide Key;
    forall i, j | 0 <= i < j < |relations| && HoldsData(relations[i]) && HoldsData(relations[j])
      ensures Key(relations[i]) != Key(relations[j])
    {
      var q, r := relations[i], relations[j];
      assert q in relations && r in relations;
      KeysAgreeExactly(q, r);
      OverlapHasDots(q, r);
      OverlapHasDots(r, q);
    }
    OneTallyPerTable(db, relations, limits);
  }

  lemma OverlapHasDots(q: Relation, r: Relation)
    ensures (exists m :: Overlap(q, r, m)) ==> '.' in q.schema && '.' in r.table
  {
    forall m | Overlap(q, r, m)
      ensures '.' in q.schema && '.' in r.table
    {
      assert q.schema[|r.schema|] == '.' && r.table[|m|] == '.';
    }
  }

  /** PostgreSQL names may contain a dot, so that two data tables, each alone in its schema, can share
      one tally. */
  lemma {:induction false} DottedNamesCollide()
    ensures var relations := [Relation("a.b", "c", 'r'), Relation("a", "b.c", 'r')];
            && NamesDistinct(relations) && DataTables(relations) == 2
            && forall db, limits ::
                 Tallies(db, relations, limits) == map["a.b.c" := |RowsOf(db.copy(relations[1]), limits)|]
  {
    hide RowsOf;
    var relations := [Relation("a.b", "c", 'r'), Relation("a", "b.c", 'r')];
    assert Key(relations[0]) == "a.b.c" == Key(relations[1]);
    assert relations[..1][..0] == [] && relations[..1][0] == relations[0];
    assert DataTables(relations[..1]) == DataTables(relations[..1][..0]) + 1;
    forall db, limits
      ensures Tallies(db, relations, limits) == map["a.b.c" := |RowsOf(db.copy(relations[1]), limits)|]
    {
      assert Tallies(db, relations[..1][..0], limits) == map[];
      var before := Tallies(db, relations[..1], limits);
      assert before.Keys == {"a.b.c"};
    }
  }

  ghost function Total(m: map<string, nat>): nat {
    if m == map[] then 0
    else
      var key :| key in m;
      m[key] + Total(m - {key})
  }

  lemma {:induction false} TotalWithout(m: map<string, nat>, key: string)
    requires key in m
    ensures Total(m) == m[key] + Total(m - {key})
    decreases |m|
  {
    var other :| other in m && Total(m) == m[other] + Total(m - {other});
    if other != key {
      TotalWithout(m - {other}, key);
      TotalWithout(m - {key}, other);
      assert m - {other} - {key} == m - {key} - {other};
    }
  }

  /** Whatever the names, a comparison that passes never trips the bounds the owned worker then
      puts on its result: the number of tallies, each tally and their sum. */
  lemma {:induction false} TalliesWithinLimits(source: Database, target: Database, limits: Limits, end: int)
    requires Same(source, target, limits, end) && |source.catalog.relations| <= limits.objects
    ensures var tallies := Tallies(source, source.catalog.relations, limits);
            && |tallies| <= limits.objects && Total(tallies) <= limits.rows
            && forall key | key in tallies :: tallies[key] <= limits.rows
  {
    VerdictIsSymmetric(source, target, limits, end);
    OneTallyPerTable(source, source.catalog.relations, limits);
    TotalOfTallies(source, source.catalog.relations, limits);
    var tallies := Tallies(source, source.catalog.relations, limits);
    forall key | key in tallies
      ensures tallies[key] <= limits.rows
    {
      TotalWithout(tallies, key);
    }
  }

  lemma {:induction false} TotalOfTallies(db: Database, relations: seq<Relation>, limits: Limits)
    ensures Total(Tallies(db, relations, limits)) <= TableRows(db, relations, limits)
    decreases |relations|
  {
    hide Key, RowsOf;
    if relations != [] {
      var shorter, r := relations[..|relations| - 1], relations[|relations| - 1];
      TotalOfTallies(db, shorter, limits);
      if HoldsData(r) {
        var before, after := Tallies(db, shorter, limits), Tallies(db, relations, limits);
        TotalWithout(after, Key(r));
        assert after - {Key(r)} == before - {Key(r)};
        if Key(r) in before {
          TotalWithout(before, Key(r));
        } else {
          assert before - {Key(r)} == before;
        }
      }
    }
  }
}
