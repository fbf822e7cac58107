/** `_failure_diagnostics`: a bounded breadth-first walk over the causes and contexts of an
    exception, a graph that may be cyclic. */
module FailureGraph {
  import opened Outcomes

  const NODES := 8
  const FRAMES := 48
  const FRAMES_PER_NODE := 12
  const SCANNED := 128

  datatype Frame = Frame(file: string, name: string, line: nat)

  /** One exception object. A traceback entry is a frame of this repository, or of other code. */
  datatype Fault = Fault(
    kind: string, cause: Option<nat>, context: Option<nat>, suppress: bool, traceback: seq<Option<Frame>>)

  /** Exceptions by identity. */
  type Heap = nat -> Fault

  datatype Row = Row(kind: string, frames: seq<Frame>, suppress: bool, cause: Option<nat>, context: Option<nat>)

  // --- Frames ---

  function Own(traceback: seq<Option<Frame>>): seq<Frame> {
    if traceback == [] then []
    else
      Own(traceback[..|traceback| - 1])
      + match traceback[|traceback| - 1] case None => [] case Some(frame) => [frame]
  }

  function Least(a: nat, b: nat): nat { if a < b then a else b }

  function Scanned(traceback: seq<Option<Frame>>): seq<Option<Frame>> {
    traceback[..Least(128, |traceback|)]
  }

  lemma {:induction false} OwnPrefix(traceback: seq<Option<Frame>>, n: nat)
    requires n <= |traceback|
    ensures Own(traceback[..n]) <= Own(traceback)
    ensures n < |traceback| ==>
              Own(traceback[..n + 1])
              == Own(traceback[..n]) + match traceback[n] case None => [] case Some(frame) => [frame]
    decreases |traceback|
  {
    if n == |traceback| {
      assert traceback[..n] == traceback;
    } else {
      var shorter := traceback[..|traceback| - 1];
      OwnPrefix(shorter, n);
      assert shorter[..n] == traceback[..n] && traceback[..n + 1][..n] == traceback[..n];
    }
  }

  /** The first frames of its own that both budgets allow. */
  function Kept(traceback: seq<Option<Frame>>, budget: nat): seq<Frame> {
    var own := Own(Scanned(traceback));
    own[..Least(|own|, Least(12, budget))]
  }

  /** The traceback loop: the first frames of its own, as many as the two budgets allow. */
  method Frames(traceback: seq<Option<Frame>>, budget: nat) returns (frames: seq<Frame>, left: nat, truncated: bool)
    ensures var own := Own(Scanned(traceback));
            && frames == Kept(traceback, budget)
            && left == budget - |frames|
            && (truncated <==> |traceback| > 128 || |frames| < |own|)
  {
    frames, left, truncated := [], budget, false;
    var scanned := 0;
    while scanned < |traceback| && scanned < SCANNED
      invariant scanned <= |traceback| && scanned <= SCANNED
      invariant var own := Own(traceback[..scanned]);
                && frames == own[..Least(|own|, Least(FRAMES_PER_NODE, budget))]
                && left == budget - |frames|
                && (truncated <==> |frames| < |own|)
    {
      OwnPrefix(traceback, scanned);
      var frame := traceback[scanned];
      scanned := scanned + 1;
      if frame.Some? && left > 0 && |frames| < FRAMES_PER_NODE {
        frames, left := frames + [frame.value], left - 1;
      } else if frame.Some? {
        truncated := true;
      }
    }
    truncated := truncated || scanned < |traceback|;
  }

  // --- What one row says of its exception ---

  /** A recorded edge points at the child; a missing one means no child, or one left out for good. */
  predicate EdgeOk(order: seq<nat>, child: Option<nat>, edge: Option<nat>) {
    match edge
    case Some(j) => j < |order| && child == Some(order[j])
    case None => child.Some? ==> child.value !in order && |order| >= 8
  }

  predicate RowOk(fault: Fault, order: seq<nat>, row: Row) {
    && row.kind == fault.kind && row.suppress == fault.suppress
    && row.frames <= Own(Scanned(fault.traceback)) && |row.frames| <= 12
    && EdgeOk(order, fault.cause, row.cause) && EdgeOk(order, fault.context, row.context)
  }

  /** Something of the exception is missing from its row. */
  predicate Lossy(fault: Fault, row: Row) {
    || |fault.traceback| > 128 || |row.frames| < |Own(Scanned(fault.traceback))|
    || (fault.cause.Some? && row.cause == None) || (fault.context.Some? && row.context == None)
  }

  function FramesIn(nodes: seq<Row>): nat {
    if nodes == [] then 0 else FramesIn(nodes[..|nodes| - 1]) + |nodes[|nodes| - 1].frames|
  }

  /** What the budget of 48 frames leaves after these nodes. */
  function LeftAfter(nodes: seq<Row>): int {
    48 - FramesIn(nodes)
  }

  /** Every node has kept as many of its own frames as were left for it. */
  predicate FramesKept(heap: Heap, order: seq<nat>, nodes: seq<Row>) {
    |nodes| <= |order|
    && forall i | 0 <= i < |nodes| ::
         && LeftAfter(nodes[..i]) >= 0
         && nodes[i].frames == Kept(heap(order[i]).traceback, LeftAfter(nodes[..i]))
  }

  lemma OneMoreRow(heap: Heap, order: seq<nat>, more: seq<nat>, nodes: seq<Row>, row: Row, left: nat)
    requires FramesKept(heap, order, nodes) && order <= more && |nodes| < |order|
    requires LeftAfter(nodes) == left && row.frames == Kept(heap(order[|nodes|]).traceback, left)
    ensures FramesKept(heap, more, nodes + [row])
  {
    hide Kept, LeftAfter;
    var longer := nodes + [row];
    forall i | 0 <= i < |longer|
      ensures longer[..i] == nodes[..i]
    {
    }
    assert nodes[..|nodes|] == nodes;
  }

  predicate Numbered(order: seq<nat>, indices: map<nat, nat>) {
    && (forall i | 0 <= i < |order| :: order[i] in indices && indices[order[i]] == i)
    && (forall x | x in indices :: indices[x] < |order| && order[indices[x]] == x)
  }

  predicate ChildOf(heap: Heap, parent: nat, child: nat) {
    heap(parent).cause == Some(child) || heap(parent).context == Some(child)
  }

  function Added(order: seq<nat>, child: Option<nat>): seq<nat> {
    if child.Some? && child.value !in order && |order| < 8 then order + [child.value] else order
  }

  /** The exceptions found by the time the first `i` have been visited, breadth first: each one's
      cause and then its context, if new and if there is room. */
  function Found(heap: Heap, error: nat, i: nat): seq<nat> {
    if i == 0 then [error]
    else
      var order := Found(heap, error, i - 1);
      if i - 1 < |order|
      then Added(Added(order, heap(order[i - 1]).cause), heap(order[i - 1]).context)
      else order
  }

  ghost predicate Discovered(heap: Heap, error: nat, order: seq<nat>) {
    && order != [] && order[0] == error
    && forall i | 0 < i < |order| :: exists j | 0 <= j < i :: ChildOf(heap, order[j], order[i])
  }

  // --- The walk ---

  method Child(child: Option<nat>, pending: seq<nat>, indices: map<nat, nat>)
    returns (edge: Option<nat>, pending': seq<nat>, indices': map<nat, nat>, dropped: bool)
    requires Numbered(pending, indices) && |pending| <= NODES
    ensures Numbered(pending', indices') && |pending'| <= NODES
    ensures pending' == Added(pending, child)
    ensures EdgeOk(pending', child, edge)
    ensures dropped <==> child.Some? && edge == None
  {
    edge, pending', indices', dropped := None, pending, indices, false;
    if child.Some? {
      if child.value in indices {
        edge := Some(indices[child.value]);
      } else if |pending| < NODES {
        edge := Some(|pending|);
        indices', pending' := indices[child.value := |pending|], pending + [child.value];
      } else {
        dropped := true;
      }
    }
  }

  lemma {:induction false} EdgeStays(order: seq<nat>, more: seq<nat>, child: Option<nat>, edge: Option<nat>)
    requires EdgeOk(order, child, edge) && |order| <= NODES && order <= more && |more| <= NODES
    ensures EdgeOk(more, child, edge)
  {
  }

  /** `more` is `order` with children of `parent` appended. */
  ghost predicate Grown(heap: Heap, parent: nat, order: seq<nat>, more: seq<nat>) {
    order <= more && forall k | |order| <= k < |more| :: ChildOf(heap, parent, more[k])
  }

  /** The body of the walk, for one exception. */
  method Visit(heap: Heap, current: nat, pending: seq<nat>, indices: map<nat, nat>, framesLeft: nat)
    returns (row: Row, pending': seq<nat>, indices': map<nat, nat>, left: nat, lost: bool)
    requires Numbered(pending, indices) && |pending| <= NODES
    ensures Numbered(pending', indices') && |pending'| <= NODES && Grown(heap, current, pending, pending')
    ensures pending' == Added(Added(pending, heap(current).cause), heap(current).context)
    ensures row.frames == Kept(heap(current).traceback, framesLeft)
    ensures RowOk(heap(current), pending', row) && left + |row.frames| == framesLeft
    ensures lost <==> Lossy(heap(current), row)
  {
    hide Own, Numbered;
    var fault := heap(current);
    var frames, cut, cause, context, noCause, noContext;
    frames, left, cut := Frames(fault.traceback, framesLeft);
    cause, pending', indices', noCause := Child(fault.cause, pending, indices);
    ghost var between := pending';
    context, pending', indices', noContext := Child(fault.context, pending', indices');
    EdgeStays(between, pending', fault.cause, cause);
    row := Row(fault.kind, frames, fault.suppress, cause, context);
    lost := cut || noCause || noContext;
  }

  lemma {:induction false} RowStays(fault: Fault, order: seq<nat>, more: seq<nat>, row: Row)
    requires RowOk(fault, order, row) && |order| <= NODES && order <= more && |more| <= NODES
    ensures RowOk(fault, more, row)
  {
    EdgeStays(order, more, fault.cause, row.cause);
    EdgeStays(order, more, fault.context, row.context);
  }

  lemma {:induction false} StillDiscovered(heap: Heap, error: nat, order: seq<nat>, more: seq<nat>, i: nat)
    requires Discovered(heap, error, order) && i < |order| && Grown(heap, order[i], order, more)
    ensures Discovered(heap, error, more)
  {
  }

  method FailureDiagnostics(heap: Heap, error: nat) returns (nodes: seq<Row>, truncated: bool, ghost order: seq<nat>)
    ensures 1 <= |nodes| == |order| <= 8 && FramesIn(nodes) <= 48
    ensures order == Found(heap, error, |order|) && Discovered(heap, error, order)
    ensures forall i, j | 0 <= i < j < |order| :: order[i] != order[j]
    ensures FramesKept(heap, order, nodes)
    ensures forall i | 0 <= i < |nodes| :: RowOk(heap(order[i]), order, nodes[i])
    ensures truncated <==> exists i | 0 <= i < |nodes| :: Lossy(heap(order[i]), nodes[i])
  {
    hide Own, Numbered, RowOk, Lossy, Discovered, Grown, Kept, Added;
    var pending: seq<nat>, indices: map<nat, nat> := [error], map[error := 0];
    OneNumbered(heap, error);
    var framesLeft: nat := FRAMES;
    nodes, truncated := [], false;
    var i := 0;
    while i < |pending|
      invariant i == |nodes| <= |pending| <= NODES && FramesIn(nodes) + framesLeft == FRAMES
      invariant Numbered(pending, indices) && Discovered(heap, error, pending) && pending == Found(heap, error, i)
      invariant FramesKept(heap, pending, nodes)
      invariant forall k | 0 <= k < i :: RowOk(heap(pending[k]), pending, nodes[k])
      invariant truncated <==> exists k | 0 <= k < i :: Lossy(heap(pending[k]), nodes[k])
      decreases NODES - i
    {
      ghost var before, earlier := pending, nodes;
      var row, left, lost;
      row, pending, indices, left, lost := Visit(heap, pending[i], pending, indices, framesLeft);
      IsPrefix(heap, before[i], before, pending);
      StillDiscovered(heap, error, before, pending, i);
      forall k | 0 <= k < i
        ensures RowOk(heap(pending[k]), pending, earlier[k])
      {
        RowStays(heap(before[k]), before, pending, earlier[k]);
      }
      assert (nodes + [row])[..|nodes|] == nodes;
      OneMoreRow(heap, before, pending, nodes, row, framesLeft);
      nodes, truncated, framesLeft := nodes + [row], truncated || lost, left;
      i := i + 1;
    }
    order := pending;
    AllDifferent(pending, indices);
    NotEmpty(heap, error, pending);
  }

  lemma IsPrefix(heap: Heap, parent: nat, order: seq<nat>, more: seq<nat>)
    requires Grown(heap, parent, order, more)
    ensures order <= more
  {
  }

  lemma NotEmpty(heap: Heap, error: nat, order: seq<nat>)
    requires Discovered(heap, error, order)
    ensures order != []
  {
  }

  lemma OneNumbered(heap: Heap, error: nat)
    ensures Numbered([error], map[error := 0]) && Discovered(heap, error, [error])
  {
  }

  lemma AllDifferent(order: seq<nat>, indices: map<nat, nat>)
    requires Numbered(order, indices)
    ensures forall i, j | 0 <= i < j < |order| :: order[i] != order[j]
  {
  }

  // --- Reachability ---

  /** A path of causes and contexts from the first exception to the last. */
  predicate Path(heap: Heap, path: seq<nat>) {
    path != [] && forall k | 0 <= k < |path| - 1 :: ChildOf(heap, path[k], path[k + 1])
  }

  ghost predicate Reachable(heap: Heap, error: nat, x: nat) {
    exists path :: Path(heap, path) && path[0] == error && path[|path| - 1] == x
  }

  lemma {:induction false} DiscoveredReachable(heap: Heap, error: nat, order: seq<nat>, i: nat)
    requires Discovered(heap, error, order) && i < |order|
    ensures Reachable(heap, error, order[i])
    decreases i
  {
    if i == 0 {
      assert Path(heap, [error]);
    } else {
      var j :| 0 <= j < i && ChildOf(heap, order[j], order[i]);
      DiscoveredReachable(heap, error, order, j);
      var path :| Path(heap, path) && path[0] == error && path[|path| - 1] == order[j];
      assert Path(heap, path + [order[i]]);
    }
  }

  lemma {:induction false} ClosedHasAll(heap: Heap, order: seq<nat>, path: seq<nat>)
    requires Path(heap, path) && path[0] in order
    requires forall x, child | x in order && ChildOf(heap, x, child) :: child in order
    ensures path[|path| - 1] in order
    decreases |path|
  {
    if |path| > 1 {
      assert ChildOf(heap, path[0], path[1]);
      ClosedHasAll(heap, order, path[1..]);
    }
  }

  lemma NothingLost(fault: Fault, order: seq<nat>, row: Row)
    requires RowOk(fault, order, row)
    ensures !Lossy(fault, row) <==> Exact(fault, order, row)
  {
    if |fault.traceback| <= SCANNED {
      assert Scanned(fault.traceback) == fault.traceback;
    }
  }

  lemma ExactRowsClose(heap: Heap, error: nat, nodes: seq<Row>, order: seq<nat>)
    requires |nodes| == |order| && Discovered(heap, error, order)
    requires forall i | 0 <= i < |nodes| :: Exact(heap(order[i]), order, nodes[i])
    ensures forall x | Reachable(heap, error, x) :: x in order
  {
    forall x, child | x in order && ChildOf(heap, x, child)
      ensures child in order
    {
      var i :| 0 <= i < |order| && order[i] == x;
      assert Exact(heap(order[i]), order, nodes[i]);
    }
    forall x | Reachable(heap, error, x)
      ensures x in order
    {
      var path :| Path(heap, path) && path[0] == error && path[|path| - 1] == x;
      ClosedHasAll(heap, order, path);
    }
  }

  /** The report says nothing is missing exactly when nothing is: its nodes are then precisely the
      reachable exceptions, each edge is exact, and each node carries every frame of its own. */
  lemma {:induction false} TruncatedExactly(heap: Heap, error: nat, nodes: seq<Row>, order: seq<nat>)
    requires 1 <= |nodes| == |order| && Discovered(heap, error, order)
    requires forall i | 0 <= i < |nodes| :: RowOk(heap(order[i]), order, nodes[i])
    ensures (forall i | 0 <= i < |nodes| :: !Lossy(heap(order[i]), nodes[i])) <==>
              (forall i | 0 <= i < |nodes| :: Exact(heap(order[i]), order, nodes[i]))
    ensures forall x | x in order :: Reachable(heap, error, x)
    ensures (forall i | 0 <= i < |nodes| :: !Lossy(heap(order[i]), nodes[i])) ==>
              forall x :: Reachable(heap, error, x) <==> x in order
  {
    hide Lossy, RowOk, Exact, Discovered, Reachable;
    forall i | 0 <= i < |order|
      ensures Reachable(heap, error, order[i])
      ensures !Lossy(heap(order[i]), nodes[i]) <==> Exact(heap(order[i]), order, nodes[i])
    {
      DiscoveredReachable(heap, error, order, i);
      NothingLost(heap(order[i]), order, nodes[i]);
    }
    if forall i | 0 <= i < |nodes| :: Exact(heap(order[i]), order, nodes[i]) {
      ExactRowsClose(heap, error, nodes, order);
    }
  }

  predicate Exact(fault: Fault, order: seq<nat>, row: Row) {
    && |fault.traceback| <= 128 && row.frames == Own(fault.traceback)
    && EdgeIs(order, fault.cause, row.cause) && EdgeIs(order, fault.context, row.context)
  }

  predicate EdgeIs(order: seq<nat>, child: Option<nat>, edge: Option<nat>) {
    match child
    case None => edge == None
    case Some(x) => edge.Some? && edge.value < |order| && order[edge.value] == x
  }
}
