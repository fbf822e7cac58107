/** The bootstrap's write-ahead journal: any number of `--execute` processes on one directory, each of
    which may be cut off anywhere, and the provider writes they issue. */
module BootstrapJournal {
  import opened Outcomes

  datatype Operation = Operation(kind: string, target: string)

  datatype File = PlanFile | Intent(phase: nat, kind: string) | Ack(phase: nat, kind: string)
                | Unknown(phase: nat, kind: string) | ResultFile

  /** Everything durable, in the order it happened. */
  datatype Entry = Created(file: File, owner: nat) | Issued(owner: nat, phase: nat, operation: Operation)

  /** Where a process stands; `n` operations are behind it. */
  datatype Pc =
    | Start | SawEmpty | Ready(n: nat) | Intended(n: nat) | Sent(n: nat) | Checked(n: nat) | Failing(n: nat)
    | Stopped | Finished

  /** `occupied`: the directory held something before any of these processes started. */
  datatype State = State(occupied: bool, log: seq<Entry>, pcs: map<nat, Pc>)

  /** How a create-only append ends: a failure may leave the file behind. */
  datatype Fate = Fine | LeftBehind | NotCreated

  datatype Event =
    | LookForFiles | AppendPlan(fate: Fate) | AppendIntent(fate: Fate) | Send(managerValid: bool) | Response(ok: bool)
    | AppendAck(fate: Fate) | AppendUnknown(fate: Fate) | AppendResult(fate: Fate) | Stop

  predicate Exists(s: State, file: File) {
    exists i | 0 <= i < |s.log| :: s.log[i].Created? && s.log[i].file == file
  }

  function Enter(s: State, p: nat, pc: Pc): State {
    s.(pcs := s.pcs[p := pc])
  }

  /** `Journal.append`, and where the process goes if it returns and if it raises. */
  function Append(s: State, p: nat, file: File, fate: Fate, after: Pc, raised: Pc): State {
    if Exists(s, file) || fate.NotCreated? then Enter(s, p, raised)
    else Enter(s.(log := s.log + [Created(file, p)]), p, if fate.Fine? then after else raised)
  }

  /** One step of process `p`, whose plan asks for the operations `program`. */
  function Step(program: seq<Operation>, s: State, p: nat, e: Event): State {
    var pc := if p in s.pcs then s.pcs[p] else Start;
    match e
    case LookForFiles =>
      if pc != Start then s
      else Enter(s, p, if s.occupied || exists i | 0 <= i < |s.log| :: s.log[i].Created? then Stopped else SawEmpty)
    case AppendPlan(fate) => if pc != SawEmpty then s else Append(s, p, PlanFile, fate, Ready(0), Stopped)
    case AppendIntent(fate) =>
      if !pc.Ready? || pc.n >= |program| then s
      else Append(s, p, Intent(pc.n + 1, program[pc.n].kind), fate, Intended(pc.n), Stopped)
    case Send(managerValid) =>
      if !pc.Intended? || pc.n >= |program| then s
      else if !managerValid then Enter(s, p, Failing(pc.n))
      else Enter(s.(log := s.log + [Issued(p, pc.n + 1, program[pc.n])]), p, Sent(pc.n))
    case Response(ok) => if !pc.Sent? then s else Enter(s, p, if ok then Checked(pc.n) else Failing(pc.n))
    case AppendAck(fate) =>
      if !pc.Checked? || pc.n >= |program| then s
      else Append(s, p, Ack(pc.n + 1, program[pc.n].kind), fate, Ready(pc.n + 1), Failing(pc.n))
    case AppendUnknown(fate) =>
      if !pc.Failing? || pc.n >= |program| then s
      else Append(s, p, Unknown(pc.n + 1, program[pc.n].kind), fate, Stopped, Stopped)
    case AppendResult(fate) =>
      if pc != Ready(|program|) then s else Append(s, p, ResultFile, fate, Finished, Stopped)
    case Stop => Enter(s, p, Stopped)
  }

  function Run(programs: nat -> seq<Operation>, s: State, events: seq<(nat, Event)>): State {
    if events == [] then s
    else
      var (p, e) := events[|events| - 1];
      Step(programs(p), Run(programs, s, events[..|events| - 1]), p, e)
  }

  // --- The invariant ---

  function Issues(log: seq<Entry>): seq<Entry> {
    if log == [] then []
    else
      var last := log[|log| - 1];
      Issues(log[..|log| - 1]) + if last.Issued? then [last] else []
  }

  /** The writes issued are the first `k` operations of the owner's program, in order, once each. */
  predicate IssuedPrefix(program: seq<Operation>, log: seq<Entry>, owner: nat, k: nat) {
    && k <= |program| && |Issues(log)| == k
    && forall i | 0 <= i < k :: Issues(log)[i] == Issued(owner, i + 1, program[i])
  }

  predicate Before(log: seq<Entry>, t: nat, entry: Entry) {
    t <= |log| && entry in log[..t]
  }

  /** Every write has its own intent before it, and the ack of every earlier write. */
  predicate WriteAhead(log: seq<Entry>) {
    forall t: nat | t < |log| && log[t].Issued? ::
      && Before(log, t, Created(Intent(log[t].phase, log[t].operation.kind), log[t].owner))
      && forall i | 0 <= i < |Issues(log[..t])| ::
           var earlier := Issues(log[..t])[i];
           earlier.Issued? && Before(log, t, Created(Ack(earlier.phase, earlier.operation.kind), earlier.owner))
  }

  predicate AllAcked(log: seq<Entry>, n: nat) {
    n <= |Issues(log)|
    && forall i | 0 <= i < n ::
         Issues(log)[i].Issued?
         && Created(Ack(Issues(log)[i].phase, Issues(log)[i].operation.kind), Issues(log)[i].owner) in log
  }

  /** Only the process that created the plan file gets past looking. */
  predicate Owns(log: seq<Entry>, p: nat) {
    Created(PlanFile, p) in log
  }

  function Behind(pc: Pc): Option<nat> {
    match pc
    case Ready(n) => Some(n)
    case Intended(n) => Some(n)
    case Sent(n) => Some(n)
    case Checked(n) => Some(n)
    case Failing(n) => Some(n)
    case _ => None
  }

  predicate PcOk(program: seq<Operation>, log: seq<Entry>, p: nat, pc: Pc) {
    && (Behind(pc).Some? || pc.Finished? ==> Owns(log, p))
    && (pc.Ready? ==> IssuedPrefix(program, log, p, pc.n) && AllAcked(log, pc.n))
    && (pc.Intended? ==>
          && pc.n < |program| && IssuedPrefix(program, log, p, pc.n) && AllAcked(log, pc.n)
          && Created(Intent(pc.n + 1, program[pc.n].kind), p) in log)
    && (pc.Sent? || pc.Checked? ==> pc.n < |program| && IssuedPrefix(program, log, p, pc.n + 1) && AllAcked(log, pc.n))
    && (pc.Failing? ==> pc.n < |program|)
    && (pc.Finished? ==> IssuedPrefix(program, log, p, |program|) && AllAcked(log, |program|))
  }

  predicate OneOwner(log: seq<Entry>) {
    forall i, j | 0 <= i < |log| && 0 <= j < |log| && log[i].Created? && log[j].Created?
                  && log[i].file == PlanFile && log[j].file == PlanFile ::
      log[i].owner == log[j].owner
  }

  predicate SomePrefix(programs: nat -> seq<Operation>, log: seq<Entry>) {
    && (forall i | 0 <= i < |log| && log[i].Issued? :: Owns(log, log[i].owner))
    && (forall i | 0 <= i < |log| && log[i].Created? && log[i].file == PlanFile ::
          IssuedPrefix(programs(log[i].owner), log, log[i].owner, |Issues(log)|))
    && (forall i | 0 <= i < |log| && log[i].Created? && log[i].file == ResultFile ::
          && Owns(log, log[i].owner)
          && IssuedPrefix(programs(log[i].owner), log, log[i].owner, |programs(log[i].owner)|)
          && AllAcked(log, |programs(log[i].owner)|))
  }

  ghost predicate Inv(programs: nat -> seq<Operation>, s: State) {
    && (forall p | p in s.pcs :: PcOk(programs(p), s.log, p, s.pcs[p]))
    && OneOwner(s.log) && SomePrefix(programs, s.log) && WriteAhead(s.log)
    && (s.occupied ==> s.log == [] && forall p | p in s.pcs :: s.pcs[p] != SawEmpty)
  }

  // --- Preservation ---

  lemma CreatedKeeps(log: seq<Entry>, entry: Entry)
    requires entry.Created?
    ensures var longer := log + [entry];
            && Issues(longer) == Issues(log)
            && (WriteAhead(log) ==> WriteAhead(longer))
            && (forall p :: Owns(log, p) ==> Owns(longer, p))
            && (forall n :: AllAcked(log, n) ==> AllAcked(longer, n))
            && (forall program, p, k :: IssuedPrefix(program, log, p, k) <==> IssuedPrefix(program, longer, p, k))
  {
    var longer := log + [entry];
    assert longer[..|log|] == log;
    assert Issues(longer) == Issues(log) + [];
    if WriteAhead(log) {
      forall t: nat | t < |longer| && longer[t].Issued?
        ensures longer[..t] == log[..t] && t < |log|
      {
      }
    }
  }

  lemma IssuedKeeps(program: seq<Operation>, log: seq<Entry>, p: nat, n: nat)
    requires n < |program| && IssuedPrefix(program, log, p, n) && AllAcked(log, n) && WriteAhead(log)
    requires Created(Intent(n + 1, program[n].kind), p) in log
    ensures var longer := log + [Issued(p, n + 1, program[n])];
            && WriteAhead(longer) && IssuedPrefix(program, longer, p, n + 1) && AllAcked(longer, n)
            && Issues(longer) == Issues(log) + [Issued(p, n + 1, program[n])]
            && (forall q :: Owns(log, q) <==> Owns(longer, q))
  {
    var longer := log + [Issued(p, n + 1, program[n])];
    assert longer[..|log|] == log;
    forall t: nat | t < |longer| && longer[t].Issued?
      ensures longer[..t] == log[..t]
    {
    }
  }

  lemma {:induction false} PcStays(program: seq<Operation>, log: seq<Entry>, entry: Entry, p: nat, pc: Pc)
    requires PcOk(program, log, p, pc) && entry.Created?
    ensures PcOk(program, log + [entry], p, pc)
  {
    hide IssuedPrefix, AllAcked;
    CreatedKeeps(log, entry);
  }

  lemma {:induction false} EnterKeeps(programs: nat -> seq<Operation>, s: State, p: nat, pc: Pc)
    requires Inv(programs, s) && PcOk(programs(p), s.log, p, pc) && (s.occupied ==> pc != SawEmpty)
    ensures Inv(programs, Enter(s, p, pc))
  {
    hide PcOk, OneOwner, SomePrefix, WriteAhead;
  }

  /** A file of the owner's own, other than the plan, goes in. */
  lemma FileKeeps(programs: nat -> seq<Operation>, s: State, p: nat, file: File)
    requires Inv(programs, s) && Owns(s.log, p) && file != PlanFile
    requires file == ResultFile ==>
               IssuedPrefix(programs(p), s.log, p, |programs(p)|) && AllAcked(s.log, |programs(p)|)
    ensures Inv(programs, s.(log := s.log + [Created(file, p)]))
  {
    hide PcOk, IssuedPrefix, AllAcked, WriteAhead;
    var entry := Created(file, p);
    CreatedKeeps(s.log, entry);
    forall q | q in s.pcs
      ensures PcOk(programs(q), s.log + [entry], q, s.pcs[q])
    {
      PcStays(programs(q), s.log, entry, q, s.pcs[q]);
    }
  }

  lemma {:induction false} NoIssues(log: seq<Entry>)
    requires forall i | 0 <= i < |log| :: !log[i].Issued?
    ensures Issues(log) == []
  {
    if log != [] {
      NoIssues(log[..|log| - 1]);
    }
  }

  /** The plan file goes in: whoever creates it is the owner, and nothing has been issued yet. */
  lemma PlanKeeps(programs: nat -> seq<Operation>, s: State, p: nat)
    requires Inv(programs, s) && !Exists(s, PlanFile) && !s.occupied
    ensures var log := s.log + [Created(PlanFile, p)];
            && Inv(programs, s.(log := log))
            && Owns(log, p) && IssuedPrefix(programs(p), log, p, 0) && AllAcked(log, 0)
  {
    hide PcOk, WriteAhead;
    var entry := Created(PlanFile, p);
    assert forall q :: !Owns(s.log, q);
    NoIssues(s.log);
    CreatedKeeps(s.log, entry);
    forall q | q in s.pcs
      ensures PcOk(programs(q), s.log + [entry], q, s.pcs[q])
    {
      PcStays(programs(q), s.log, entry, q, s.pcs[q]);
    }
  }

  lemma {:induction false} OnlyOwner(log: seq<Entry>, p: nat, q: nat)
    requires OneOwner(log) && Owns(log, p) && Owns(log, q)
    ensures p == q
  {
    var i :| 0 <= i < |log| && log[i] == Created(PlanFile, p);
    var j :| 0 <= j < |log| && log[j] == Created(PlanFile, q);
  }

  lemma NotOwner(program: seq<Operation>, log: seq<Entry>, longer: seq<Entry>, q: nat, pc: Pc)
    requires PcOk(program, log, q, pc) && !Owns(log, q)
    ensures PcOk(program, longer, q, pc)
  {
  }

  lemma SendKeeps(programs: nat -> seq<Operation>, s: State, p: nat, n: nat)
    requires Inv(programs, s) && p in s.pcs && s.pcs[p] == Intended(n)
    ensures Inv(programs, Step(programs(p), s, p, Send(true)))
  {
    hide IssuedPrefix, AllAcked, WriteAhead, Owns;
    var program := programs(p);
    var entry := Issued(p, n + 1, program[n]);
    var t := Step(program, s, p, Send(true));
    assert PcOk(program, s.log, p, s.pcs[p]);
    IssuedKeeps(program, s.log, p, n);
    forall q | q in t.pcs
      ensures PcOk(programs(q), t.log, q, t.pcs[q])
    {
      if q != p {
        if Owns(s.log, q) {
          OnlyOwner(s.log, p, q);
        }
        NotOwner(programs(q), s.log, t.log, q, s.pcs[q]);
      }
    }
    SendKeepsPrefix(programs, s.log, p, n);
    SameOwner(s.log, entry);
  }

  lemma SameOwner(log: seq<Entry>, entry: Entry)
    requires OneOwner(log) && entry.Issued?
    ensures OneOwner(log + [entry])
  {
  }

  lemma {:induction false} SendKeepsPrefix(programs: nat -> seq<Operation>, log: seq<Entry>, p: nat, n: nat)
    requires SomePrefix(programs, log) && OneOwner(log) && Owns(log, p) && n < |programs(p)|
    requires IssuedPrefix(programs(p), log, p, n)
    requires IssuedPrefix(programs(p), log + [Issued(p, n + 1, programs(p)[n])], p, n + 1)
    ensures SomePrefix(programs, log + [Issued(p, n + 1, programs(p)[n])])
  {
  }

  lemma {:induction false} StepKeeps(programs: nat -> seq<Operation>, s: State, p: nat, e: Event)
    requires Inv(programs, s)
    ensures Inv(programs, Step(programs(p), s, p, e))
  {
    hide Inv, IssuedPrefix, AllAcked, WriteAhead, SomePrefix, OneOwner, Owns, Issues;
    var program := programs(p);
    var pc := if p in s.pcs then s.pcs[p] else Start;
    PcIs(programs, s, p);
    match e
    case LookForFiles =>
      if pc == Start {
        EnterKeeps(programs, s, p, Step(program, s, p, e).pcs[p]);
      }
    case AppendPlan(fate) =>
      EnterKeeps(programs, s, p, Stopped);
      if pc == SawEmpty && !Exists(s, PlanFile) {
        PlanKeeps(programs, s, p);
        var longer := s.(log := s.log + [Created(PlanFile, p)]);
        EnterKeeps(programs, longer, p, Ready(0));
        EnterKeeps(programs, longer, p, Stopped);
      }
    case AppendIntent(fate) =>
      EnterKeeps(programs, s, p, Stopped);
      if pc.Ready? && pc.n < |program| {
        Appending(programs, s, p, Intent(pc.n + 1, program[pc.n].kind), Intended(pc.n), Stopped);
      }
    case Send(managerValid) =>
      if pc.Intended? && pc.n < |program| {
        if managerValid {
          SendKeeps(programs, s, p, pc.n);
        } else {
          EnterKeeps(programs, s, p, Failing(pc.n));
        }
      }
    case Response(ok) =>
      if pc.Sent? {
        EnterKeeps(programs, s, p, if ok then Checked(pc.n) else Failing(pc.n));
      }
    case AppendAck(fate) =>
      if pc.Checked? && pc.n < |program| {
        EnterKeeps(programs, s, p, Failing(pc.n));
        Acked(program, s.log, p, pc.n);
        Appending(programs, s, p, Ack(pc.n + 1, program[pc.n].kind), Ready(pc.n + 1), Failing(pc.n));
      }
    case AppendUnknown(fate) =>
      EnterKeeps(programs, s, p, Stopped);
      if pc.Failing? && pc.n < |program| {
        Appending(programs, s, p, Unknown(pc.n + 1, program[pc.n].kind), Stopped, Stopped);
      }
    case AppendResult(fate) =>
      EnterKeeps(programs, s, p, Stopped);
      if pc == Ready(|program|) {
        Appending(programs, s, p, ResultFile, Finished, Stopped);
      }
    case Stop => EnterKeeps(programs, s, p, Stopped);
  }

  lemma PcIs(programs: nat -> seq<Operation>, s: State, p: nat)
    requires Inv(programs, s)
    ensures p in s.pcs ==> PcOk(programs(p), s.log, p, s.pcs[p])
    ensures p in s.pcs && s.pcs[p] == SawEmpty ==> !s.occupied
    ensures p in s.pcs && Owns(s.log, p) ==> !s.occupied
  {
  }

  lemma {:induction false} Acked(program: seq<Operation>, log: seq<Entry>, p: nat, n: nat)
    requires n < |program| && IssuedPrefix(program, log, p, n + 1) && AllAcked(log, n) && Owns(log, p)
    ensures PcOk(program, log + [Created(Ack(n + 1, program[n].kind), p)], p, Ready(n + 1))
  {
    CreatedKeeps(log, Created(Ack(n + 1, program[n].kind), p));
  }

  /** A file of the owner's, and where the process goes after it. */
  lemma Appending(programs: nat -> seq<Operation>, s: State, p: nat, file: File, after: Pc, raised: Pc)
    requires Inv(programs, s) && Owns(s.log, p) && file != PlanFile && !s.occupied
    requires file == ResultFile ==>
               IssuedPrefix(programs(p), s.log, p, |programs(p)|) && AllAcked(s.log, |programs(p)|)
    requires after != SawEmpty && raised != SawEmpty
    requires PcOk(programs(p), s.log + [Created(file, p)], p, after)
             || (after.Intended? && after.n < |programs(p)| && file == Intent(after.n + 1, programs(p)[after.n].kind)
                 && IssuedPrefix(programs(p), s.log, p, after.n) && AllAcked(s.log, after.n))
             || after.Finished? || after.Stopped?
    requires after.Finished? ==> file == ResultFile
    requires PcOk(programs(p), s.log, p, raised)
    ensures forall fate :: Inv(programs, Append(s, p, file, fate, after, raised))
  {
    hide Inv, IssuedPrefix, AllAcked, WriteAhead, SomePrefix, OneOwner, Issues;
    var longer := s.(log := s.log + [Created(file, p)]);
    CreatedKeeps(s.log, Created(file, p));
    FileKeeps(programs, s, p, file);
    PcStays(programs(p), s.log, Created(file, p), p, raised);
    EnterKeeps(programs, s, p, raised);
    EnterKeeps(programs, longer, p, raised);
    EnterKeeps(programs, longer, p, after);
  }

  lemma {:induction false} Reachable(programs: nat -> seq<Operation>, s: State, events: seq<(nat, Event)>)
    requires s.log == [] && s.pcs == map[]
    ensures Inv(programs, Run(programs, s, events))
    decreases |events|
  {
    hide Inv, Step;
    if events == [] {
      AtStart(programs, s);
    } else {
      Reachable(programs, s, events[..|events| - 1]);
      StepKeeps(programs, Run(programs, s, events[..|events| - 1]), events[|events| - 1].0, events[|events| - 1].1);
    }
  }

  lemma AtStart(programs: nat -> seq<Operation>, s: State)
    requires s.log == [] && s.pcs == map[]
    ensures Inv(programs, s)
  {
  }

  // --- What the journal guarantees ---

  /** Over every interleaving of processes, failed appends and crashes: the writes issued to the
      provider are the first operations of one process's plan, in order, once each, numbered from 1;
      none is issued on a directory that was already occupied. */
  lemma {:induction false} WritesAreOnePlan(programs: nat -> seq<Operation>, s: State, events: seq<(nat, Event)>)
    requires s.log == [] && s.pcs == map[]
    ensures var issues := Issues(Run(programs, s, events).log);
            && (s.occupied ==> issues == [])
            && (issues != [] ==>
                  var owner := issues[0].owner;
                  && |issues| <= |programs(owner)|
                  && forall i | 0 <= i < |issues| :: issues[i] == Issued(owner, i + 1, programs(owner)[i]))
  {
    hide PcOk;
    Reachable(programs, s, events);
    var t := Run(programs, s, events);
    OccupiedStays(programs, s, events);
    if Issues(t.log) != [] {
      var i := FirstIssue(t.log);
      assert Owns(t.log, t.log[i].owner);
      var j :| 0 <= j < |t.log| && t.log[j] == Created(PlanFile, t.log[i].owner);
      assert IssuedPrefix(programs(t.log[j].owner), t.log, t.log[j].owner, |Issues(t.log)|);
    }
  }

  lemma {:induction false} OccupiedStays(programs: nat -> seq<Operation>, s: State, events: seq<(nat, Event)>)
    ensures Run(programs, s, events).occupied == s.occupied
    decreases |events|
  {
    if events != [] {
      OccupiedStays(programs, s, events[..|events| - 1]);
    }
  }

  lemma {:induction false} FirstIssue(log: seq<Entry>) returns (i: nat)
    requires Issues(log) != []
    ensures i < |log| && log[i].Issued?
  {
    if log[|log| - 1].Issued? {
      i := |log| - 1;
    } else {
      i := FirstIssue(log[..|log| - 1]);
    }
  }

  /** Every write is preceded by its own durable intent and by the durable ack of every earlier
      write: after the first write that is not confirmed, nothing more is written. */
  lemma {:induction false} IntentsComeFirst(programs: nat -> seq<Operation>, s: State, events: seq<(nat, Event)>)
    requires s.log == [] && s.pcs == map[]
    ensures WriteAhead(Run(programs, s, events).log)
  {
    hide PcOk, WriteAhead;
    Reachable(programs, s, events);
  }

  /** A result on record means the whole plan was issued and every write of it acknowledged. */
  lemma {:induction false} ResultIsComplete(programs: nat -> seq<Operation>, s: State, events: seq<(nat, Event)>,
                                            p: nat)
    requires s.log == [] && s.pcs == map[]
    ensures var log := Run(programs, s, events).log;
            Created(ResultFile, p) in log ==>
              IssuedPrefix(programs(p), log, p, |programs(p)|) && AllAcked(log, |programs(p)|)
  {
    hide PcOk, IssuedPrefix, AllAcked;
    Reachable(programs, s, events);
  }

  // --- A process that nothing disturbs, and those that come after ---

  /** The first `k` operations, each with its intent before it and its ack after it. */
  function Confirmed(p: nat, program: seq<Operation>, k: nat): seq<Entry>
    requires k <= |program|
  {
    if k == 0 then [Created(PlanFile, p)]
    else
      Confirmed(p, program, k - 1)
      + [Created(Intent(k, program[k - 1].kind), p), Issued(p, k, program[k - 1]),
         Created(Ack(k, program[k - 1].kind), p)]
  }

  lemma {:induction false} NotYetThere(p: nat, program: seq<Operation>, k: nat, i: nat)
    requires k <= |program| && i < |Confirmed(p, program, k)| && Confirmed(p, program, k)[i].Created?
    ensures match Confirmed(p, program, k)[i].file
            case PlanFile => true
            case Intent(phase, _) => phase <= k
            case Ack(phase, _) => phase <= k
            case _ => false
  {
    if k > 0 && i < |Confirmed(p, program, k - 1)| {
      NotYetThere(p, program, k - 1, i);
    }
  }

  lemma Then(programs: nat -> seq<Operation>, s: State, events: seq<(nat, Event)>, at: State, p: nat, e: Event)
    returns (events': seq<(nat, Event)>, at': State)
    requires Run(programs, s, events) == at
    ensures events' == events + [(p, e)] && at' == Step(programs(p), at, p, e) && Run(programs, s, events') == at'
  {
    events', at' := events + [(p, e)], Step(programs(p), at, p, e);
    assert events'[..|events|] == events;
  }

  /** A create-only append on a name that is free. */
  lemma AppendFree(s: State, p: nat, file: File, after: Pc, raised: Pc)
    requires !Exists(s, file)
    ensures Append(s, p, file, Fine, after, raised) == State(s.occupied, s.log + [Created(file, p)], s.pcs[p := after])
    ensures Append(s, p, file, LeftBehind, after, raised)
            == State(s.occupied, s.log + [Created(file, p)], s.pcs[p := raised])
    ensures Append(s, p, file, NotCreated, after, raised) == s.(pcs := s.pcs[p := raised])
  {
  }

  function AtReady(p: nat, program: seq<Operation>, k: nat): State
    requires k <= |program|
  {
    State(false, Confirmed(p, program, k), map[p := Ready(k)])
  }

  lemma OneOperation(programs: nat -> seq<Operation>, s: State, events: seq<(nat, Event)>, p: nat, k: nat)
    returns (events': seq<(nat, Event)>)
    requires k < |programs(p)| && Run(programs, s, events) == AtReady(p, programs(p), k)
    ensures Run(programs, s, events') == AtReady(p, programs(p), k + 1)
  {
    hide Run, Exists, Append;
    var program, at := programs(p), AtReady(p, programs(p), k);
    var kind := program[k].kind;
    assert !Exists(at, Intent(k + 1, kind)) by { FreeName(p, program, k, at.log, []); }
    AppendFree(at, p, Intent(k + 1, kind), Intended(k), Stopped);
    events', at := Then(programs, s, events, at, p, AppendIntent(Fine));
    events', at := Then(programs, s, events', at, p, Send(true));
    events', at := Then(programs, s, events', at, p, Response(true));
    var more := [Created(Intent(k + 1, kind), p), Issued(p, k + 1, program[k])];
    assert at.log == Confirmed(p, program, k) + more;
    assert !Exists(at, Ack(k + 1, kind)) by { FreeName(p, program, k, at.log, more); }
    AppendFree(at, p, Ack(k + 1, kind), Ready(k + 1), Failing(k));
    events', at := Then(programs, s, events', at, p, AppendAck(Fine));
    assert at.log == Confirmed(p, program, k + 1);
    assert at.pcs == map[p := Ready(k + 1)];
  }

  lemma FreeName(p: nat, program: seq<Operation>, k: nat, log: seq<Entry>, more: seq<Entry>)
    requires k < |program| && log == Confirmed(p, program, k) + more
    requires more == [] || more == [Created(Intent(k + 1, program[k].kind), p), Issued(p, k + 1, program[k])]
    ensures forall s: State | s.log == log ::
              !Exists(s, Ack(k + 1, program[k].kind)) && (more == [] ==> !Exists(s, Intent(k + 1, program[k].kind)))
  {
    forall i | 0 <= i < |Confirmed(p, program, k)| && Confirmed(p, program, k)[i].Created?
      ensures Confirmed(p, program, k)[i].file != Ack(k + 1, program[k].kind)
      ensures Confirmed(p, program, k)[i].file != Intent(k + 1, program[k].kind)
    {
      NotYetThere(p, program, k, i);
    }
  }

  lemma {:induction false} FirstOperations(programs: nat -> seq<Operation>, p: nat, k: nat)
    returns (events: seq<(nat, Event)>)
    requires k <= |programs(p)|
    ensures Run(programs, State(false, [], map[]), events) == AtReady(p, programs(p), k)
  {
    var s := State(false, [], map[]);
    if k == 0 {
      hide Run;
      events := [];
      RunNothing(programs, s);
      var at := s;
      events, at := Then(programs, s, events, at, p, LookForFiles);
      events, at := Then(programs, s, events, at, p, AppendPlan(Fine));
    } else {
      hide Run, Confirmed;
      events := FirstOperations(programs, p, k - 1);
      events := OneOperation(programs, s, events, p, k - 1);
    }
  }

  lemma RunNothing(programs: nat -> seq<Operation>, s: State)
    ensures Run(programs, s, []) == s
  {
  }

  /** On an empty directory a process that nothing disturbs finishes: every operation of its plan between its intent
      and its ack, in order, and then the result. */
  lemma {:induction false} UndisturbedFinishes(programs: nat -> seq<Operation>, p: nat)
    ensures exists events ::
              Run(programs, State(false, [], map[]), events)
              == State(false, Confirmed(p, programs(p), |programs(p)|) + [Created(ResultFile, p)], map[p := Finished])
  {
    hide Run, Exists, Append;
    var s, program := State(false, [], map[]), programs(p);
    var events := FirstOperations(programs, p, |program|);
    var at := AtReady(p, program, |program|);
    assert !Exists(at, ResultFile) by { NoResultYet(p, program); }
    AppendFree(at, p, ResultFile, Finished, Stopped);
    events, at := Then(programs, s, events, at, p, AppendResult(Fine));
    assert at.pcs == map[p := Finished];
  }

  lemma NoResultYet(p: nat, program: seq<Operation>)
    ensures !Exists(AtReady(p, program, |program|), ResultFile)
  {
    forall i | 0 <= i < |Confirmed(p, program, |program|)| && Confirmed(p, program, |program|)[i].Created?
      ensures Confirmed(p, program, |program|)[i].file != ResultFile
    {
      NotYetThere(p, program, |program|, i);
    }
  }

  /** Whatever goes wrong between an intent and its ack is recorded as unknown, and the process stops. */
  lemma {:induction false} UnknownIsRecorded(program: seq<Operation>, s: State, p: nat, n: nat)
    requires p in s.pcs && n < |program| && !Exists(s, Unknown(n + 1, program[n].kind))
    requires !Exists(s, Ack(n + 1, program[n].kind))
    ensures s.pcs[p] == Intended(n) ==> Step(program, s, p, Send(false)) == s.(pcs := s.pcs[p := Failing(n)])
    ensures s.pcs[p] == Sent(n) ==> Step(program, s, p, Response(false)) == s.(pcs := s.pcs[p := Failing(n)])
    ensures s.pcs[p] == Checked(n) ==>
              && Step(program, s, p, AppendAck(NotCreated)) == s.(pcs := s.pcs[p := Failing(n)])
              && Step(program, s, p, AppendAck(LeftBehind)).pcs[p] == Failing(n)
    ensures s.pcs[p] == Failing(n) ==>
              Step(program, s, p, AppendUnknown(Fine))
              == State(s.occupied, s.log + [Created(Unknown(n + 1, program[n].kind), p)], s.pcs[p := Stopped])
  {
    hide Exists;
  }

  /** A process that finds anything on the directory, or that has stopped, never does anything again. */
  lemma {:induction false} LaterProcessesStop(program: seq<Operation>, s: State, p: nat, e: Event)
    ensures p !in s.pcs && (s.occupied || exists file :: Exists(s, file)) ==>
              Step(program, s, p, LookForFiles) == s.(pcs := s.pcs[p := Stopped])
    ensures p in s.pcs && s.pcs[p] == Stopped ==> Step(program, s, p, e) == s
  {
    if p in s.pcs && s.pcs[p] == Stopped {
      assert s.pcs[p := Stopped] == s.pcs;
    }
  }

  // --- The writes of one plan ---

  /** What of a plan names resources; `digest` is the fingerprint of the execution registry, `id` the
      attempt's own identity. */
  datatype Plan = Plan(project: string, location: string, execution: string, protected: string, replay: string,
                       bucket: string, ring: string, assertionKey: string, claimKey: string)

  /** The plan's own check. */
  predicate Valid(plan: Plan) {
    && plan.execution != plan.protected && plan.execution != plan.replay && plan.protected != plan.replay
    && plan.assertionKey != plan.claimKey
  }

  function Database(plan: Plan, id: string): string {
    "projects/" + plan.project + "/databases/" + id
  }

  function Ring(plan: Plan): string {
    "projects/" + plan.project + "/locations/" + plan.location + "/keyRings/" + plan.ring
  }

  function Object(plan: Plan, path: string): string {
    "gs://" + plan.bucket + "/" + path
  }

  /** The writes of `execute`, in order. */
  function Program(plan: Plan, digest: string, id: string): (program: seq<Operation>)
    ensures |program| == 12
  {
    [ Operation("database", Database(plan, plan.execution)),
      Operation("database", Database(plan, plan.protected)),
      Operation("database", Database(plan, plan.replay)),
      Operation("records", Database(plan, plan.execution)),
      Operation("records", Database(plan, plan.protected)),
      Operation("records", Database(plan, plan.replay)),
      Operation("object", Object(plan, "authority-publication-v3-resources/" + digest + ".json")),
      Operation("object", Object(plan, "candidate-native-bootstrap/" + id + "/manifest")),
      Operation("object", Object(plan, "candidate-native-bootstrap/" + id + "/witness")),
      Operation("ring", Ring(plan)),
      Operation("key", Ring(plan) + "/cryptoKeys/" + plan.assertionKey),
      Operation("key", Ring(plan) + "/cryptoKeys/" + plan.claimKey) ]
  }

  const SMALL := Plan("p", "l", "e", "t", "r", "b", "k", "a", "c")

  lemma SmallDatabase(id: string)
    ensures Database(SMALL, id) == "projects/p/databases/" + id
  {
  }

  lemma SmallRing()
    ensures Ring(SMALL) == "projects/p/locations/l/keyRings/k"
  {
  }

  lemma SmallObjects(path: string)
    ensures Object(SMALL, path) == "gs://b/" + path
    ensures "authority-publication-v3-resources/" + "d" + ".json" == "authority-publication-v3-resources/d.json"
    ensures "candidate-native-bootstrap/" + "i" + "/manifest" == "candidate-native-bootstrap/i/manifest"
    ensures "candidate-native-bootstrap/" + "i" + "/witness" == "candidate-native-bootstrap/i/witness"
  {
  }

  /** The writes of a small plan, written out: databases and then their records, the execution database before the
      protected and the replay one, then the objects, the key ring and its two keys. */
  lemma {:induction false} SmallProgram()
    ensures Program(SMALL, "d", "i")
            == [Operation("database", "projects/p/databases/" + "e"),
                Operation("database", "projects/p/databases/" + "t"),
                Operation("database", "projects/p/databases/" + "r"),
                Operation("records", "projects/p/databases/" + "e"),
                Operation("records", "projects/p/databases/" + "t"),
                Operation("records", "projects/p/databases/" + "r"),
                Operation("object", "gs://b/" + "authority-publication-v3-resources/d.json"),
                Operation("object", "gs://b/" + "candidate-native-bootstrap/i/manifest"),
                Operation("object", "gs://b/" + "candidate-native-bootstrap/i/witness"),
                Operation("ring", "projects/p/locations/l/keyRings/k"),
                Operation("key", "projects/p/locations/l/keyRings/k" + "/cryptoKeys/a"),
                Operation("key", "projects/p/locations/l/keyRings/k" + "/cryptoKeys/c")]
  {
    hide Database, Ring, Object;
    SmallDatabase("e");
    SmallDatabase("t");
    SmallDatabase("r");
    SmallRing();
    SmallObjects("authority-publication-v3-resources/d.json");
    SmallObjects("candidate-native-bootstrap/i/manifest");
    SmallObjects("candidate-native-bootstrap/i/witness");
    assert Ring(SMALL) + "/cryptoKeys/" + "a" == Ring(SMALL) + "/cryptoKeys/a";
    assert Ring(SMALL) + "/cryptoKeys/" + "c" == Ring(SMALL) + "/cryptoKeys/c";
  }

  predicate Apart(program: seq<Operation>) {
    forall i, j | 0 <= i < j < |program| :: program[i] != program[j]
  }

  lemma SamePrefix(prefix: string, a: string, b: string)
    ensures prefix + a == prefix + b <==> a == b
  {
    assert (prefix + a)[|prefix|..] == a && (prefix + b)[|prefix|..] == b;
  }

  lemma DatabasesApart(plan: Plan, a: string, b: string)
    ensures Database(plan, a) == Database(plan, b) <==> a == b
  {
    SamePrefix("projects/" + plan.project + "/databases/", a, b);
  }

  lemma ObjectsApart(plan: Plan, digest: string, id: string)
    ensures var resource := Object(plan, "authority-publication-v3-resources/" + digest + ".json");
            var manifest := Object(plan, "candidate-native-bootstrap/" + id + "/manifest");
            var testimony := Object(plan, "candidate-native-bootstrap/" + id + "/witness");
            resource != manifest && resource != testimony && manifest != testimony
  {
    var prefix := "gs://" + plan.bucket + "/";
    var resource := "authority-publication-v3-resources/" + digest + ".json";
    var manifest := "candidate-native-bootstrap/" + id + "/manifest";
    var testimony := "candidate-native-bootstrap/" + id + "/witness";
    assert resource[0] == 'a' && manifest[0] == 'c' && testimony[0] == 'c' && |manifest| == |testimony| + 1;
    SamePrefix(prefix, resource, manifest);
    SamePrefix(prefix, resource, testimony);
    SamePrefix(prefix, manifest, testimony);
  }

  /** The plan's own check is exactly what keeps its writes apart. */
  lemma {:induction false} WritesApart(plan: Plan, digest: string, id: string)
    ensures Apart(Program(plan, digest, id)) <==> Valid(plan)
  {
    hide Database, Object, Ring;
    var program := Program(plan, digest, id);
    DatabasesApart(plan, plan.execution, plan.protected);
    DatabasesApart(plan, plan.execution, plan.replay);
    DatabasesApart(plan, plan.protected, plan.replay);
    ObjectsApart(plan, digest, id);
    SamePrefix(Ring(plan) + "/cryptoKeys/", plan.assertionKey, plan.claimKey);
    assert !Valid(plan) <==>
             || program[0] == program[1] || program[0] == program[2] || program[1] == program[2]
             || program[10] == program[11];
  }

  function Programs(plans: nat -> Plan, digests: nat -> string, ids: nat -> string): nat -> seq<Operation> {
    (p: nat) => Program(plans(p), digests(p), ids(p))
  }

  /** Over every interleaving no two writes issued for valid plans are the same, and a result on record
      means all twelve of its plan were issued and acknowledged. */
  lemma {:induction false} EachWriteOnce(plans: nat -> Plan, digests: nat -> string, ids: nat -> string, s: State,
                                         events: seq<(nat, Event)>)
    requires s.log == [] && s.pcs == map[] && forall p :: Valid(plans(p))
    ensures var log := Run(Programs(plans, digests, ids), s, events).log;
            && |Issues(log)| <= 12
            && (forall i, j | 0 <= i < j < |Issues(log)| ::
                  && Issues(log)[i].Issued? && Issues(log)[j].Issued?
                  && Issues(log)[i].operation != Issues(log)[j].operation)
            && forall p | Created(ResultFile, p) in log :: |Issues(log)| == 12 && AllAcked(log, 12)
  {
    hide Run, Issues, Program, AllAcked, Valid;
    var programs := Programs(plans, digests, ids);
    var log := Run(programs, s, events).log;
    var issues := Issues(log);
    WritesAreOnePlan(programs, s, events);
    if issues != [] {
      var owner := issues[0].owner;
      WritesApart(plans(owner), digests(owner), ids(owner));
      forall i, j | 0 <= i < j < |issues|
        ensures issues[i].Issued? && issues[j].Issued? && issues[i].operation != issues[j].operation
      {
        assert issues[i] == Issued(owner, i + 1, programs(owner)[i]);
        assert issues[j] == Issued(owner, j + 1, programs(owner)[j]);
      }
    }
    forall p | Created(ResultFile, p) in log
      ensures |issues| == 12 && AllAcked(log, 12)
    {
      ResultIsComplete(programs, s, events, p);
    }
  }
}
