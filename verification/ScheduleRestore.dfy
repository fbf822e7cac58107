/** `execute_schedules`: paused schedules are restored one at a time under a create-only journal, by
    any number of invocations that may each be cut off anywhere. */
module ScheduleRestore {
  import opened Outcomes

  /** A journal record: a write cut short leaves a file that no longer reads. */
  datatype Entry = Absent | Torn | Written

  datatype Mode = Resume | Reconcile | Observe

  /** `Crashed` is an invocation that ended without an answer. */
  datatype Answer =
    | Crashed | Denied | ObservationIncomplete(remainingUnsent: bool, retainedUnchecked: bool)
    | ReconciledOnly | Restored

  datatype Fate = Fine | DiesBefore | DiesDuring | DiesAfter

  /** What the control plane shows of a schedule. */
  datatype Row = Row(configurationMatches: bool, enabled: bool)

  /** The journal's markers for the pins in schedule order, and the requests that reached the control plane. */
  datatype Book = Book(binding: Entry, started: seq<Entry>, checked: seq<Entry>, sends: seq<nat>)

  // --- What every book keeps ---

  /** The first `k` pins are checked; of the rest only the next may have been started. */
  predicate InOrderAt(b: Book, k: nat) {
    && |b.started| == |b.checked| == |b.sends| && k <= |b.started|
    && (forall i | 0 <= i < k :: b.checked[i] == Written)
    && (forall i | k <= i < |b.checked| ::
          b.checked[i] != Written && (i > k ==> b.checked[i] == Absent && b.started[i] == Absent))
    && (forall i | 0 <= i < |b.checked| :: b.checked[i] != Absent ==> b.started[i] == Written)
    && (forall i | 0 <= i < |b.sends| :: b.sends[i] <= 1 && (b.sends[i] == 1 ==> b.started[i] == Written))
    && (b.binding != Written ==> forall i | 0 <= i < |b.started| :: b.started[i] == Absent)
  }

  ghost predicate InOrder(b: Book) {
    exists k: nat :: InOrderAt(b, k)
  }

  predicate HasTorn(b: Book) {
    b.binding == Torn || Torn in b.started || Torn in b.checked
  }

  /** Records are never removed or replaced, and requests are never unsent. */
  predicate Extends(b: Book, later: Book) {
    && |later.started| == |b.started| && |later.checked| == |b.checked| && |later.sends| == |b.sends|
    && (b.binding != Absent ==> later.binding == b.binding)
    && (forall i | 0 <= i < |b.started| :: b.started[i] != Absent ==> later.started[i] == b.started[i])
    && (forall i | 0 <= i < |b.checked| :: b.checked[i] != Absent ==> later.checked[i] == b.checked[i])
    && (forall i | 0 <= i < |b.sends| :: b.sends[i] <= later.sends[i])
  }

  /** A request is only sent for a pin that had not been started. */
  predicate SentFresh(b: Book, later: Book) {
    && |later.sends| == |b.sends| <= |b.started|
    && forall i | 0 <= i < |b.sends| :: later.sends[i] > b.sends[i] ==> b.started[i] == Absent
  }

  /** A pin that one invocation both started and checked had its one request sent. */
  predicate CheckedSent(b: Book, later: Book) {
    && |later.sends| == |b.sends| == |b.started| == |later.checked|
    && forall i | 0 <= i < |b.sends| ::
         b.started[i] == Absent && later.checked[i] == Written ==> later.sends[i] == b.sends[i] + 1
  }

  /** Every pin started since is checked. */
  predicate Settled(b: Book, later: Book) {
    && |later.started| == |later.checked| == |b.started|
    && forall i | 0 <= i < |b.started| ::
         b.started[i] == Absent && later.started[i] != Absent ==> later.checked[i] == Written
  }

  lemma SentItself(b: Book, k: nat)
    requires InOrderAt(b, k)
    ensures forall e :: CheckedSent(b, b.(binding := e)) && Settled(b, b.(binding := e))
    ensures CheckedSent(b, b) && Settled(b, b)
  {
    assert b.(binding := b.binding) == b;
  }

  lemma SentOnwards(a: Book, b: Book, c: Book, k: nat)
    requires Extends(a, b) && Extends(b, c) && SentFresh(b, c) && InOrderAt(b, k)
    requires CheckedSent(a, b) && Settled(a, b) && CheckedSent(b, c)
    ensures CheckedSent(a, c)
    ensures Settled(b, c) ==> Settled(a, c)
  {
  }

  /** A record made for the next pin, whole or torn. */
  lemma Marked(b: Book, k: nat, e: Entry)
    requires InOrderAt(b, k) && k < |b.started| && b.binding == Written && e != Absent
    ensures b.started[k] == Absent ==>
              var later := b.(started := b.started[k := e]); InOrderAt(later, k) && Extends(b, later)
    ensures b.checked[k] == Absent && b.started[k] == Written ==>
              var later := b.(checked := b.checked[k := e]);
              Extends(b, later) && InOrderAt(later, if e == Written then k + 1 else k)
  {
  }

  lemma Unsent(b: Book, k: nat)
    requires InOrderAt(b, k) && k < |b.started| && b.started[k] == Absent
    ensures |b.sends| == |b.started| && b.sends[k] == 0
  {
  }

  lemma ExtendsMore(a: Book, b: Book, c: Book)
    requires Extends(a, b) && Extends(b, c)
    ensures Extends(a, c)
  {
  }

  lemma Requested(b: Book, k: nat)
    requires InOrderAt(b, k) && k < |b.started| && b.started[k] == Written && b.sends[k] == 0
    ensures var later := b.(sends := b.sends[k := 1]); InOrderAt(later, k) && Extends(b, later)
  {
  }

  lemma ExtendsItself(b: Book)
    ensures Extends(b, b) && (forall e | b.binding == Absent :: Extends(b, b.(binding := e)))
    ensures |b.sends| <= |b.started| ==> SentFresh(b, b) && forall e :: SentFresh(b, b.(binding := e))
    ensures b.binding == Torn ==> HasTorn(b)
    ensures HasTorn(b) && b.binding == Absent ==> forall e :: HasTorn(b.(binding := e))
  {
  }

  lemma ExtendsOnwards(a: Book, b: Book, c: Book)
    requires Extends(a, b) && Extends(b, c) && SentFresh(a, b) && SentFresh(b, c)
    ensures Extends(a, c) && SentFresh(a, c)
  {
  }

  lemma SameLengths(b: Book, k: nat)
    requires InOrderAt(b, k)
    ensures |b.started| == |b.checked| == |b.sends| && k <= |b.started|
    ensures HasTorn(b) && b.binding == Absent ==> false
  {
  }

  lemma AllChecked(b: Book, k: nat)
    requires InOrderAt(b, k) && |b.started| <= k && b.binding == Written
    ensures forall i | 0 <= i < |b.checked| :: b.checked[i] == Written
    ensures |b.checked| == |b.started|
    ensures HasTorn(b) ==> false
  {
  }

  function Total(sends: seq<nat>): nat {
    if sends == [] then 0 else sends[0] + Total(sends[1..])
  }

  lemma {:induction false} AtMostEach(sends: seq<nat>)
    requires forall i | 0 <= i < |sends| :: sends[i] <= 1
    ensures Total(sends) <= |sends|
  {
    if sends != [] {
      AtMostEach(sends[1..]);
    }
  }

  /** Checked pins form a prefix, at most one further pin is started and unchecked, and at most one
      request per pin was ever sent. */
  lemma {:induction false} OrderMeans(b: Book)
    requires InOrder(b)
    ensures forall i, j | 0 <= i < j < |b.checked| && b.checked[j] == Written :: b.checked[i] == Written
    ensures forall i, j | 0 <= i < |b.started| && 0 <= j < |b.started|
                          && b.started[i] != Absent && b.checked[i] != Written
                          && b.started[j] != Absent && b.checked[j] != Written :: i == j
    ensures forall i, j | 0 <= i < j < |b.started| && b.started[j] != Absent :: b.checked[i] == Written
    ensures Total(b.sends) <= |b.started|
  {
    var k: nat :| InOrderAt(b, k);
    AtMostEach(b.sends);
  }

  // --- Invocations that nothing disturbs ---

  /** Every record reads and the control plane agrees with it: a schedule that was never started is not enabled, and
      one that was checked is. */
  predicate Agree(b: Book, live: seq<bool>) {
    && |live| == |b.started| == |b.checked| == |b.sends| && b.binding != Torn
    && forall i | 0 <= i < |live| ::
         && b.started[i] != Torn && b.checked[i] != Torn
         && (b.started[i] == Absent ==> b.checked[i] == Absent && !live[i])
         && (b.checked[i] == Written ==> live[i])
  }

  /** The book once the pins from `k` to `i` were each started, sent and checked. */
  function Finished(b: Book, k: nat, i: nat): Book
    requires |b.started| == |b.checked| == |b.sends|
  {
    var n := |b.started|;
    Book(Written,
         seq(n, j requires 0 <= j < n => if k <= j < i then Written else b.started[j]),
         seq(n, j requires 0 <= j < n => if k <= j < i then Written else b.checked[j]),
         seq(n, j requires 0 <= j < n => if k <= j < i then b.sends[j] + 1 else b.sends[j]))
  }

  /** What an invocation comes to that nothing disturbs, when the first `k` pins are checked. */
  ghost predicate CalmOutcome(mode: Mode, b: Book, live: seq<bool>, k: nat, answer: Answer, later: Book)
    requires InOrderAt(b, k) && |live| == |b.started|
  {
    var n := |b.started|;
    if b.binding == Absent && mode != Resume then answer == Denied && later == b
    else if k == n then answer == Restored && later == b.(binding := Written)
    else if mode == Observe then
      answer == ObservationIncomplete(b.started[k] == Absent, b.started[k] == Written) && later == b
    else if b.started[k] == Absent then
      if mode == Resume then answer == Restored && later == Finished(b, k, n)
      else answer == ReconciledOnly && later == b
    else if mode == Resume || !live[k] then answer == Denied && later == b
    else answer == (if k + 1 == n then Restored else ReconciledOnly) && later == b.(checked := b.checked[k := Written])
  }

  /** The same for one pin: whether the invocation ends there, and what is recorded and enabled. */
  ghost predicate CalmPin(mode: Mode, b: Book, live: seq<bool>, i: nat, ended: Option<Answer>, later: Book,
                          after: seq<bool>)
    requires i < |live| == |b.started| == |b.checked| == |b.sends|
  {
    if b.checked[i] == Written then ended == None && later == b && after == live
    else if mode == Observe then
      && ended == Some(ObservationIncomplete(b.started[i] == Absent, b.started[i] == Written))
      && later == b && after == live
    else if b.started[i] == Absent then
      if mode == Reconcile then ended == Some(ReconciledOnly) && later == b && after == live
      else
        && ended == None && after == live[i := true]
        && later == Book(b.binding, b.started[i := Written], b.checked[i := Written], b.sends[i := b.sends[i] + 1])
    else if mode == Resume || !live[i] then ended == Some(Denied) && later == b && after == live
    else ended == None && later == b.(checked := b.checked[i := Written]) && after == live
  }

  lemma PinAgrees(mode: Mode, b: Book, live: seq<bool>, i: nat, ended: Option<Answer>, later: Book, after: seq<bool>)
    requires Agree(b, live) && i < |live| && CalmPin(mode, b, live, i, ended, later, after)
    ensures Agree(later, after)
  {
  }

  /** Before pin `i`: nothing has changed up to the first unchecked pin; past it, every pin is finished, or a started
      one was reconciled. */
  ghost predicate CalmSoFar(mode: Mode, b: Book, live: seq<bool>, k: nat, i: nat, now: Book, enabled: seq<bool>)
    requires InOrderAt(b, k) && |live| == |b.started|
  {
    && i <= |b.started|
    && if i <= k then now == b && enabled == live
       else if mode == Resume then
         && b.started[k] == Absent && now == Finished(b, k, i)
         && enabled == seq(|live|, j requires 0 <= j < |live| => (k <= j < i) || live[j])
       else
         && mode == Reconcile && i == k + 1 && b.started[k] == Written && live[k]
         && now == b.(checked := b.checked[k := Written]) && enabled == live
  }

  lemma CalmNext(mode: Mode, b: Book, live: seq<bool>, k: nat, i: nat, now: Book, enabled: seq<bool>,
                 ended: Option<Answer>, later: Book, after: seq<bool>)
    requires InOrderAt(b, k) && Agree(b, live) && b.binding == Written && i < |live|
    requires CalmSoFar(mode, b, live, k, i, now, enabled)
    requires |enabled| == |now.started| == |now.checked| == |now.sends| == |live|
    requires CalmPin(mode, now, enabled, i, ended, later, after)
    ensures ended == None ==> CalmSoFar(mode, b, live, k, i + 1, later, after)
    ensures ended.Some? ==> CalmOutcome(mode, b, live, k, ended.value, later)
  {
    if i == k && mode == Resume && b.started[k] == Absent {
      assert Finished(b, k, k + 1) == later;
    }
  }

  lemma CalmEnds(mode: Mode, b: Book, live: seq<bool>, k: nat, now: Book, enabled: seq<bool>)
    requires InOrderAt(b, k) && |live| == |b.started| && b.binding == Written
    requires CalmKept(mode, b, live, k, |b.started|, now, enabled)
    ensures Agree(b, live) ==> Agree(now, enabled) && CalmOutcome(mode, b, live, k, Restored, now)
  {
  }

  /** A first resumption starts from the book it has just bound. */
  lemma CalmBound(b: Book, live: seq<bool>, k: nat, answer: Answer, later: Book)
    requires InOrderAt(b, k) && |live| == |b.started| && b.binding == Absent
    requires InOrderAt(b.(binding := Written), k) && CalmOutcome(Resume, b.(binding := Written), live, k, answer, later)
    ensures CalmOutcome(Resume, b, live, k, answer, later)
  {
  }

  lemma CalmUnbound(mode: Mode, b: Book, live: seq<bool>, k: nat)
    requires InOrderAt(b, k) && b.binding == Absent && |live| == |b.started|
    ensures mode != Resume ==> CalmOutcome(mode, b, live, k, Denied, b)
    ensures forall i | 0 <= i < |b.started| :: b.started[i] == Absent && b.checked[i] == Absent
  {
  }

  lemma AgreeMeans(b: Book, live: seq<bool>)
    requires Agree(b, live)
    ensures b.binding != Torn && |live| == |b.started| == |b.checked| == |b.sends|
  {
  }

  lemma CalmStarts(mode: Mode, b: Book, live: seq<bool>, k: nat)
    requires InOrderAt(b, k) && |live| == |b.started|
    ensures CalmKept(mode, b, live, k, 0, b, live)
  {
  }

  /** A first resumption goes on from the book it has just bound. */
  lemma CalmBinding(b: Book, bound: Book, live: seq<bool>, k: nat)
    requires InOrderAt(b, k) && InOrderAt(bound, k) && |live| == |b.started|
    requires b.binding == Absent && bound == b.(binding := Written)
    ensures Agree(b, live) ==> Agree(bound, live)
    ensures forall answer, later ::
              CalmOutcome(Resume, bound, live, k, answer, later) ==> CalmOutcome(Resume, b, live, k, answer, later)
  {
    forall answer, later | CalmOutcome(Resume, bound, live, k, answer, later)
      ensures CalmOutcome(Resume, b, live, k, answer, later)
    {
      CalmBound(b, live, k, answer, later);
    }
  }

  lemma NotFurther(b: Book, k: nat, j: nat)
    requires InOrderAt(b, k) && InOrderAt(b, j)
    ensures j <= k
  {
    if k < |b.checked| {
      assert b.checked[k] != Written;
    }
  }

  lemma OneOrder(b: Book)
    ensures forall k: nat, j: nat | InOrderAt(b, k) && InOrderAt(b, j) :: k == j
  {
    hide InOrderAt;
    forall k: nat, j: nat | InOrderAt(b, k) && InOrderAt(b, j)
      ensures k == j
    {
      NotFurther(b, k, j);
      NotFurther(b, j, k);
    }
  }

  /** What the loop keeps when nothing disturbs it. */
  ghost predicate CalmKept(mode: Mode, b: Book, live: seq<bool>, k: nat, i: nat, now: Book, enabled: seq<bool>)
    requires InOrderAt(b, k) && |live| == |b.started|
  {
    Agree(b, live) ==> Agree(now, enabled) && CalmSoFar(mode, b, live, k, i, now, enabled)
  }

  lemma CalmStep(mode: Mode, b: Book, live: seq<bool>, k: nat, i: nat, now: Book, enabled: seq<bool>,
                 ended: Option<Answer>, later: Book, after: seq<bool>)
    requires InOrderAt(b, k) && b.binding == Written && i < |live| == |b.started|
    requires |now.started| == |now.checked| == |now.sends| == |enabled| == |live|
    requires CalmKept(mode, b, live, k, i, now, enabled)
    requires Agree(now, enabled) ==> CalmPin(mode, now, enabled, i, ended, later, after)
    ensures ended == None ==> CalmKept(mode, b, live, k, i + 1, later, after)
    ensures ended.Some? && Agree(b, live) ==> Agree(later, after) && CalmOutcome(mode, b, live, k, ended.value, later)
  {
    hide CalmSoFar, CalmPin, Agree, CalmOutcome, InOrderAt;
    if Agree(b, live) {
      PinAgrees(mode, now, enabled, i, ended, later, after);
      CalmNext(mode, b, live, k, i, now, enabled, ended, later, after);
    }
  }

  /** A pin whose intent is on record but whose schedule never came on keeps every later invocation from changing
      anything, in every mode; if it did come on, a reconciliation finishes it. */
  lemma {:induction false} UnsentPinStays(mode: Mode, b: Book, live: seq<bool>, k: nat, answer: Answer, later: Book)
    requires InOrderAt(b, k) && |live| == |b.started| && k < |live| && b.started[k] == Written && b.binding == Written
    requires CalmOutcome(mode, b, live, k, answer, later)
    ensures later != b <==> mode == Reconcile && live[k]
    ensures later != b ==> InOrderAt(later, k + 1)
    ensures later == b ==> answer == Denied || answer == ObservationIncomplete(false, true)
  {
    if mode == Reconcile && live[k] {
      assert later.checked[k] == Written != b.checked[k];
    }
  }

  // --- The invocations ---

  class Restoration {
    /** Whether every pin's pause is on record. */
    const pausesObserved: bool
    /** Nothing fails, nobody else acts, and the control plane shows what is so. */
    const calm: bool
    var book: Book
    /** The schedules that are enabled, as far as this journal's requests go. */
    var live: seq<bool>

    ghost predicate Valid()
      reads this
    {
      |live| == |book.started|
    }

    constructor (pins: nat, pausesObserved: bool, calm: bool)
      ensures InOrder(book) && |book.started| == pins && Valid()
      ensures book == Book(Absent, seq(pins, _ => Absent), seq(pins, _ => Absent), seq(pins, _ => 0))
      ensures Agree(book, live) && this.pausesObserved == pausesObserved && this.calm == calm
    {
      this.pausesObserved, this.calm := pausesObserved, calm;
      book := Book(Absent, seq(pins, _ => Absent), seq(pins, _ => Absent), seq(pins, _ => 0));
      live := seq(pins, _ => false);
      new;
      assert InOrderAt(book, 0);
    }

    /** What the control plane shows of one schedule. */
    method Look(i: nat) returns (row: Row)
      requires i < |live|
      ensures calm ==> row == Row(true, live[i])
    {
      row := *;
      if calm {
        row := Row(true, live[i]);
      }
    }

    /** How a write or a request goes. */
    method Attempt() returns (fate: Fate)
      ensures calm ==> fate == Fine
    {
      fate := *;
      if calm {
        fate := Fine;
      }
    }

    /** `restore_states` within `boundary.verify`: every marker is read and every row agrees with it. */
    method Verify() returns (ok: bool, rows: seq<Row>)
      requires Valid() && |book.started| == |book.checked|
      ensures ok ==>
                && pausesObserved && Torn !in book.started && Torn !in book.checked && |rows| == |book.started|
                && forall i | 0 <= i < |rows| ::
                     && rows[i].configurationMatches && (book.started[i] == Absent ==> !rows[i].enabled)
                     && (book.checked[i] != Absent ==> book.started[i] != Absent && rows[i].enabled)
      ensures calm && pausesObserved && Agree(book, live) ==> ok
    {
      rows := [];
      if !pausesObserved {
        return false, rows;
      }
      for i := 0 to |book.started|
        invariant |rows| == i
        invariant forall k | 0 <= k < i :: book.started[k] != Torn && book.checked[k] != Torn
        invariant forall k | 0 <= k < i ::
                    && rows[k].configurationMatches && (book.started[k] == Absent ==> !rows[k].enabled)
                    && (book.checked[k] != Absent ==> book.started[k] != Absent && rows[k].enabled)
      {
        if book.started[i] == Torn || book.checked[i] == Torn
          || (book.checked[i] == Written && book.started[i] == Absent) {
          return false, rows;
        }
        var row := Look(i);
        if !row.configurationMatches || (book.started[i] == Absent && row.enabled)
          || (book.checked[i] == Written && !row.enabled) {
          return false, rows;
        }
        rows := rows + [row];
      }
      ok := *;
      ok := ok || calm;
    }

    /** The create of a pin's record: the write may be cut short, or the invocation may end around it. */
    method MarkStarted(i: nat, ghost k: nat) returns (ok: bool)
      requires InOrderAt(book, k) && i == k < |book.started| && book.binding == Written && book.started[i] == Absent
      modifies this
      ensures i < |book.started| && book == old(book).(started := old(book.started)[i := book.started[i]])
      ensures InOrderAt(book, k) && Extends(old(book), book) && (ok ==> book.started[i] == Written)
      ensures live == old(live) && (calm ==> ok)
    {
      hide InOrderAt, Extends;
      SameLengths(book, k);
      ExtendsItself(book);
      var fate := Attempt();
      if fate != DiesBefore {
        var e := if fate == DiesDuring then Torn else Written;
        Marked(book, k, e);
        book := book.(started := book.started[i := e]);
      }
      ok := fate == Fine;
    }

    method MarkChecked(i: nat, ghost k: nat) returns (ok: bool, ghost k': nat)
      requires InOrderAt(book, k) && i == k < |book.started| && book.binding == Written
      requires book.started[i] == Written && book.checked[i] == Absent
      modifies this
      ensures i < |book.checked| && book == old(book).(checked := old(book.checked)[i := book.checked[i]])
      ensures InOrderAt(book, k') && k <= k' <= k + 1 && Extends(old(book), book) && (ok ==> k' == k + 1)
      ensures live == old(live) && (calm ==> ok) && (ok ==> book.checked[i] == Written)
    {
      hide InOrderAt, Extends;
      SameLengths(book, k);
      ExtendsItself(book);
      k' := k;
      var fate := Attempt();
      if fate != DiesBefore {
        var e := if fate == DiesDuring then Torn else Written;
        Marked(book, k, e);
        book, k' := book.(checked := book.checked[i := e]), if e == Written then k + 1 else k;
      }
      ok := fate == Fine;
    }

    /** `resource_action` for a paused schedule whose target is enabled: the intent is recorded before
        the one request, the outcome after it was seen. */
    method ResourceAction(i: nat, reconcile: bool, ghost k: nat) returns (answer: Option<Answer>, ghost k': nat)
      requires InOrderAt(book, k) && i == k < |book.started| && book.binding == Written
      requires book.started[i] != Torn && book.checked[i] == Absent && Valid()
      modifies this
      ensures Valid() && Extends(old(book), book) && book.binding == Written
      ensures InOrderAt(book, k') && k <= k' <= k + 1 && (answer == None ==> k' == k + 1)
      ensures answer != None ==> answer == Some(Denied) || answer == Some(Crashed)
      ensures reconcile ==> book.started == old(book.started) && book.sends == old(book.sends)
      ensures book.sends[i] > old(book.sends[i]) ==> old(book.started[i]) == Absent && book.started[i] == Written
      ensures forall j | 0 <= j < |book.sends| && j != i ::
                && book.sends[j] == old(book.sends[j]) && book.started[j] == old(book.started[j])
                && book.checked[j] == old(book.checked[j])
      ensures book.checked[i] == Written && old(book.started[i]) == Absent ==> book.sends[i] == old(book.sends[i]) + 1
      ensures old(book.started[i]) == Written && !reconcile ==> book == old(book) && answer == Some(Denied)
      ensures calm && pausesObserved && Agree(old(book), old(live))
              && !(reconcile && old(book.started[i]) == Absent) ==>
                CalmPin(if reconcile then Reconcile else Resume, old(book), old(live), i, answer, book, live)
    {
      hide InOrderAt, Extends;
      SameLengths(book, k);
      ExtendsItself(book);
      k' := k;
      var row := Look(i);
      if !row.configurationMatches {
        return Some(Denied), k';
      }
      if book.started[i] == Absent {
        if reconcile || !pausesObserved || row.enabled {
          return Some(Denied), k';
        }
        Unsent(book, k);
        var marked := MarkStarted(i, k);
        if !marked {
          return Some(Crashed), k';
        }
        var sent := Attempt();
        if sent.DiesBefore? {
          return Some(Crashed), k';
        }
        Requested(book, k);
        ghost var before := book;
        book := book.(sends := book.sends[i := book.sends[i] + 1]);
        live := live[i := true];
        ExtendsMore(old(book), before, book);
        if !sent.Fine? {
          return Some(Crashed), k';
        }
      } else if !reconcile {
        return Some(Denied), k';
      }
      row := Look(i);
      if !row.configurationMatches || !row.enabled {
        return Some(Denied), k';
      }
      ghost var before := book;
      var checked;
      checked, k' := MarkChecked(i, k);
      ExtendsMore(old(book), before, book);
      answer := if checked then None else Some(Crashed);
    }

    /** The record that ties the invocation's source to the journal, before anything else is recorded. */
    method Bind(ghost k: nat) returns (ok: bool)
      requires InOrderAt(book, k) && book.binding == Absent
      modifies this
      ensures exists e :: book == old(book).(binding := e) && (ok ==> e == Written)
      ensures live == old(live) && (calm ==> ok)
      ensures InOrderAt(book, k)
    {
      var fate := Attempt();
      match fate {
        case DiesBefore => return false;
        case DiesDuring =>
          book := book.(binding := Torn);
          return false;
        case _ =>
          book := book.(binding := Written);
          return fate.Fine?;
      }
    }

    /** The body of the loop: one pin of the schedule. */
    method Attend(i: nat, mode: Mode, ghost k: nat) returns (ended: Option<Answer>, rows: seq<Row>, ghost k': nat)
      requires InOrderAt(book, k) && i <= k && i < |book.started| && book.binding == Written && Valid()
      modifies this
      ensures Valid() && InOrderAt(book, k') && book.binding == Written
      ensures Extends(old(book), book) && SentFresh(old(book), book)
      ensures CheckedSent(old(book), book) && (ended == None ==> Settled(old(book), book))
      ensures mode != Resume ==> book.started == old(book.started) && book.sends == old(book.sends)
      ensures mode == Observe ==> book == old(book)
      ensures |book.started| == |old(book).started|
      ensures HasTorn(old(book)) ==> book == old(book) && (ended.Some? ==> ended.value == Denied)
      ensures ended == None ==> i < k'
      ensures ended.Some? ==>
                match ended.value
                case ObservationIncomplete(unsent, unchecked) =>
                  && mode == Observe && i == k' && book.checked[i] == Absent
                  && unsent == (book.started[i] == Absent) && unchecked == (book.started[i] != Absent)
                case ReconciledOnly => mode == Reconcile && i == k' && book.started[i] == Absent
                case Restored => false
                case _ => true
      ensures calm && pausesObserved && Agree(old(book), old(live)) ==>
                CalmPin(mode, old(book), old(live), i, ended, book, live)
      ensures !pausesObserved ==> ended == Some(Denied) && book == old(book)
    {
      rows, k' := [], k;
      if book.started[i] == Torn || book.checked[i] == Torn {
        return Some(Denied), rows, k';
      }
      var ok;
      ok, rows := Verify();
      if !ok {
        return Some(Denied), rows, k';
      }
      if book.checked[i] == Written {
        return None, rows, k';
      }
      if mode == Observe {
        return Some(ObservationIncomplete(book.started[i] == Absent, book.started[i] != Absent)), rows, k';
      }
      if mode == Reconcile && book.started[i] == Absent {
        return Some(ReconciledOnly), rows, k';
      }
      if !(mode == Reconcile || book.started[i] == Absent) {
        return Some(Denied), rows, k';
      }
      ended, k' := ResourceAction(i, mode == Reconcile, k);
    }

    /** The loop over the pins and the last look, once the binding is on record. */
    method AttendAll(mode: Mode, ghost first: nat) returns (answer: Answer, rows: seq<Row>)
      requires InOrderAt(book, first) && book.binding == Written && Valid()
      modifies this
      ensures Valid() && InOrder(book) && Extends(old(book), book) && book.binding == Written
      ensures mode != Resume ==> book.started == old(book.started) && book.sends == old(book.sends)
      ensures mode == Observe ==> book == old(book)
      ensures HasTorn(old(book)) ==> book == old(book) && (answer == Denied || answer == Crashed)
      ensures SentFresh(old(book), book) && CheckedSent(old(book), book)
      ensures answer == Restored ==>
                && (forall i | 0 <= i < |book.checked| :: book.checked[i] == Written)
                && |rows| == |book.checked|
                && forall i | 0 <= i < |rows| :: rows[i].configurationMatches && rows[i].enabled
      ensures answer.ObservationIncomplete? ==>
                && mode == Observe
                && exists k: nat :: k < |book.checked| && InOrderAt(book, k) && book.checked[k] == Absent
                     && answer.remainingUnsent == (book.started[k] == Absent)
                     && answer.retainedUnchecked == (book.started[k] != Absent)
      ensures answer == ReconciledOnly ==>
                && mode == Reconcile
                && exists k: nat :: k < |book.checked| && InOrderAt(book, k) && book.started[k] == Absent
      ensures !pausesObserved ==> answer == Denied && book == old(book)
      ensures calm && pausesObserved && Agree(old(book), old(live)) ==>
                Agree(book, live) && CalmOutcome(mode, old(book), old(live), first, answer, book)
    {
      hide InOrderAt, Extends, SentFresh, HasTorn, CheckedSent, Settled, Agree, CalmOutcome, CalmPin, CalmKept;
      ghost var k, b0, live0 := first, book, live;
      SameLengths(book, k);
      ExtendsItself(book);
      SentItself(book, k);
      CalmStarts(mode, book, live, k);
      rows := [];
      for i := 0 to |book.started|
        invariant Valid() && i <= k && InOrderAt(book, k) && book.binding == Written && |book.started| == |b0.started|
        invariant Extends(b0, book) && SentFresh(b0, book) && CheckedSent(b0, book) && Settled(b0, book)
        invariant mode != Resume ==> book.started == b0.started && book.sends == b0.sends
        invariant mode == Observe || HasTorn(b0) ==> book == b0
        invariant calm && pausesObserved ==> CalmKept(mode, b0, live0, first, i, book, live)
        invariant !pausesObserved ==> i == 0 && book == b0
      {
        ghost var before, j, enabled := book, k, live;
        var ended;
        ended, rows, k := Attend(i, mode, k);
        SentOnwards(b0, before, book, j);
        ExtendsOnwards(b0, before, book);
        if calm && pausesObserved {
          SameLengths(before, j);
          CalmStep(mode, b0, live0, first, i, before, enabled, ended, book, live);
        }
        if ended.Some? {
          return ended.value, rows;
        }
      }
      AllChecked(book, k);
      if calm && pausesObserved {
        CalmEnds(mode, b0, live0, first, book, live);
      }
      var ok;
      ok, rows := Verify();
      if !ok {
        return Denied, rows;
      }
      return Restored, rows;
    }

    /** One invocation, under both journals' locks. Undisturbed, it goes exactly as far as its mode lets it. */
    method ExecuteSchedules(mode: Mode) returns (answer: Answer, rows: seq<Row>)
      requires InOrder(book) && Valid()
      modifies this
      ensures Valid() && InOrder(book) && Extends(old(book), book)
      ensures mode != Resume ==> book.started == old(book.started) && book.sends == old(book.sends)
                                 && book.binding == old(book.binding)
      ensures mode == Observe ==> book == old(book)
      ensures HasTorn(old(book)) ==> book == old(book) && (answer == Denied || answer == Crashed)
      ensures SentFresh(old(book), book) && CheckedSent(old(book), book)
      ensures answer == Restored ==>
                && (forall i | 0 <= i < |book.checked| :: book.checked[i] == Written)
                && |rows| == |book.checked|
                && forall i | 0 <= i < |rows| :: rows[i].configurationMatches && rows[i].enabled
      ensures answer.ObservationIncomplete? ==>
                && mode == Observe
                && exists k: nat :: k < |book.checked| && InOrderAt(book, k) && book.checked[k] == Absent
                     && answer.remainingUnsent == (book.started[k] == Absent)
                     && answer.retainedUnchecked == (book.started[k] != Absent)
      ensures answer == ReconciledOnly ==>
                && mode == Reconcile
                && exists k: nat :: k < |book.checked| && InOrderAt(book, k) && book.started[k] == Absent
      ensures !pausesObserved ==> answer == Denied && book == old(book)
      ensures calm && pausesObserved && Agree(old(book), old(live)) ==>
                && Agree(book, live)
                && forall k: nat | InOrderAt(old(book), k) :: CalmOutcome(mode, old(book), old(live), k, answer, book)
    {
      hide InOrderAt, Extends, SentFresh, HasTorn, CheckedSent, Settled, Agree, CalmOutcome, CalmPin, CalmSoFar;
      ghost var k: nat :| InOrderAt(book, k);
      OneOrder(book);
      ExtendsItself(book);
      SameLengths(book, k);
      SentItself(book, k);
      rows := [];
      if calm && Agree(book, live) {
        AgreeMeans(book, live);
      }
      if book.binding == Torn {
        return Denied, rows;
      }
      if book.binding == Absent {
        CalmUnbound(mode, book, live, k);
        if mode != Resume
           || exists i | 0 <= i < |book.started| :: book.started[i] != Absent || book.checked[i] != Absent {
          return Denied, rows;
        }
        var ok;
        ok, rows := Verify();
        if !ok {
          return Denied, rows;
        }
        var bound := Bind(k);
        if !bound {
          return Crashed, rows;
        }
        CalmBinding(old(book), book, live, k);
      }
      ghost var b := book;
      answer, rows := AttendAll(mode, k);
      SentOnwards(old(book), b, book, k);
      ExtendsOnwards(old(book), b, book);
    }

    /** Any number of invocations in any modes. */
    method Campaign(modes: seq<Mode>) returns (answers: seq<Answer>)
      requires InOrder(book) && Valid()
      modifies this
      ensures Valid() && InOrder(book) && Extends(old(book), book) && |answers| == |modes|
      ensures SentFresh(old(book), book)
      ensures Resume !in modes ==> book.started == old(book.started) && book.sends == old(book.sends)
                                   && book.binding == old(book.binding)
      ensures (forall n | 0 <= n < |modes| :: modes[n] == Observe) ==> book == old(book)
      ensures HasTorn(old(book)) ==>
                book == old(book) && forall n | 0 <= n < |answers| :: answers[n] == Denied || answers[n] == Crashed
      ensures Restored in answers ==> forall i | 0 <= i < |book.checked| :: book.checked[i] == Written
    {
      hide InOrderAt, HasTorn, CheckedSent;
      ghost var k: nat :| InOrderAt(book, k);
      SameLengths(book, k);
      answers := [];
      for n := 0 to |modes|
        invariant Valid() && InOrder(book) && Extends(old(book), book) && |answers| == n
        invariant SentFresh(old(book), book)
        invariant Resume !in modes[..n] ==> book.started == old(book.started) && book.sends == old(book.sends)
                                            && book.binding == old(book.binding)
        invariant (forall j | 0 <= j < n :: modes[j] == Observe) ==> book == old(book)
        invariant HasTorn(old(book)) ==>
                    book == old(book) && forall j | 0 <= j < n :: answers[j] == Denied || answers[j] == Crashed
        invariant Restored in answers ==> forall i | 0 <= i < |book.checked| :: book.checked[i] == Written
      {
        assert modes[..n + 1] == modes[..n] + [modes[n]];
        var answer, rows := ExecuteSchedules(modes[n]);
        answers := answers + [answer];
      }
      assert modes[..|modes|] == modes;
    }
  }
}
