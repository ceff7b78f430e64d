/** The bounded blocking runner of `crates/core/src/blocking.rs`: `run` as a state machine whose
    permit moves from the caller's future into the job, with nested jobs, cancellation, panics and
    a runtime that may refuse a job. */
module BlockingRunner {
  import opened Common

  /** Submissions are numbered in the order they are made. */
  type Id = nat
  type Thread = nat

  datatype Answer = Value | Panic | Lost

  datatype Phase =
    | Queued
    | Granted
    | Spawned
    | Running(thread: Thread)
    | Finished(answer: Answer)
    | Delivered(answer: Answer)
    | Discarded
    | Cancelled

  /** One call of `run`: where it is, whether its future is still held, and the job that made the
      call, if a job did. A job may wait on any number of nested calls at once. */
  datatype Submission = Submission(phase: Phase, awaited: bool, parent: Option<Id>)

  datatype State = State(
    limit: nat, free: nat, queue: seq<Id>, subs: seq<Submission>, marked: set<Thread>)

  predicate Settled(p: Phase) { p.Delivered? || p.Discarded? || p.Cancelled? }

  predicate Live(p: Phase) { p.Spawned? || p.Running? }

  predicate Holds(p: Phase) { p.Granted? || Live(p) }

  function Holders(subs: seq<Submission>): set<Id> {
    set i: Id | i < |subs| && Holds(subs[i].phase)
  }

  function LiveJobs(subs: seq<Submission>): set<Id> {
    set i: Id | i < |subs| && Live(subs[i].phase)
  }

  /** Job `j` waits inside its own body for the answer of a nested call. */
  predicate Parked(subs: seq<Submission>, j: Id) {
    exists c: Id :: c < |subs| && subs[c].parent == Some(j) && subs[c].awaited && !Settled(subs[c].phase)
  }

  function ParkedJobs(subs: seq<Submission>): set<Id> {
    set j: Id | j < |subs| && Parked(subs, j)
  }

  /** `(cores * 2).max(4)`, with 8 cores assumed when the host does not say. */
  function ConcurrencyLimit(cores: Option<nat>): (n: nat)
    ensures n >= 4 && (cores.None? ==> n == 16)
    ensures cores.Some? ==> n >= 2 * cores.value && (n > 4 ==> n == 2 * cores.value)
  {
    var c := if cores.Some? then cores.value else 8;
    if c * 2 < 4 then 4 else c * 2
  }

  function Init(limit: nat): State {
    State(limit, limit, [], [], {})
  }

  datatype Action =
    | Submit(parent: Option<Id>)
    | Spawn(id: Id)
    | Refuse(id: Id)
    | Start(id: Id, thread: Thread)
    | Finish(id: Id, answer: Answer)
    | Deliver(id: Id)
    | Drop(id: Id)

  predicate Enabled(s: State, a: Action) {
    match a
    case Submit(p) => p.Some? ==> p.value < |s.subs| && s.subs[p.value].phase.Running?
    case Spawn(i) => i < |s.subs| && s.subs[i].phase == Granted
    case Refuse(i) => i < |s.subs| && s.subs[i].phase == Granted
    case Start(i, t) =>
      && i < |s.subs| && s.subs[i].phase == Spawned
      && forall j :: 0 <= j < |s.subs| ==> s.subs[j].phase != Running(t)
    case Finish(i, answer) => i < |s.subs| && s.subs[i].phase.Running? && !Parked(s.subs, i) && answer != Lost
    case Deliver(i) => i < |s.subs| && s.subs[i].phase.Finished? && s.subs[i].awaited
    case Drop(i) => i < |s.subs| && s.subs[i].awaited && !Settled(s.subs[i].phase)
  }

  function SetPhase(s: State, i: Id, p: Phase): State
    requires i < |s.subs|
  {
    s.(subs := s.subs[i := s.subs[i].(phase := p)])
  }

  /** A permit comes back: to the head of the queue if there is one, else to the free permits. */
  function Release(s: State): State
    requires s.queue != [] ==> s.queue[0] < |s.subs|
  {
    if s.queue == [] then s.(free := s.free + 1)
    else SetPhase(s, s.queue[0], Granted).(queue := s.queue[1..])
  }

  function Without(q: seq<Id>, i: Id): seq<Id> {
    if q == [] then [] else if q[0] == i then q[1..] else [q[0]] + Without(q[1..], i)
  }

  /** What becomes of a job's answer: kept for a caller that still waits, else thrown away. */
  function Answered(sub: Submission, a: Answer): Phase {
    if sub.awaited then Finished(a) else Discarded
  }

  ghost predicate QueueInRange(s: State) {
    forall k :: 0 <= k < |s.queue| ==> s.queue[k] < |s.subs|
  }

  function Apply(s: State, a: Action): State
    requires Enabled(s, a) && QueueInRange(s)
  {
    match a
    case Submit(p) =>
      if s.free > 0 then s.(free := s.free - 1, subs := s.subs + [Submission(Granted, true, p)])
      else s.(queue := s.queue + [|s.subs|], subs := s.subs + [Submission(Queued, true, p)])
    case Spawn(i) => SetPhase(s, i, Spawned)
    case Refuse(i) => Release(SetPhase(s, i, Answered(s.subs[i], Lost)))
    case Start(i, t) => SetPhase(s, i, Running(t)).(marked := s.marked + {t})
    case Finish(i, answer) =>
      Release(SetPhase(s, i, Answered(s.subs[i], answer)).(marked := s.marked - {s.subs[i].phase.thread}))
    case Deliver(i) => SetPhase(s, i, Delivered(s.subs[i].phase.answer))
    case Drop(i) =>
      match s.subs[i].phase
      case Queued => SetPhase(s, i, Cancelled).(queue := Without(s.queue, i))
      case Granted => Release(SetPhase(s, i, Cancelled))
      case Finished(_) => SetPhase(s, i, Discarded)
      case _ => s.(subs := s.subs[i := s.subs[i].(awaited := false)])
  }

  // ---------------------------------------------------------------- the invariant

  ghost predicate Conserved(s: State) {
    s.free + |Holders(s.subs)| == s.limit
  }

  ghost predicate QueueOk(s: State) {
    && QueueInRange(s)
    && (forall j, k :: 0 <= j < k < |s.queue| ==> s.queue[j] < s.queue[k])
    && (forall i: Id :: i < |s.subs| ==> (s.subs[i].phase == Queued <==> i in s.queue))
    && (s.free > 0 ==> s.queue == [])
  }

  ghost predicate SubsOk(s: State) {
    && (forall i :: 0 <= i < |s.subs| && (s.subs[i].phase.Queued? || s.subs[i].phase.Granted? || s.subs[i].phase.Finished?)
                    ==> s.subs[i].awaited)
    && (forall i :: 0 <= i < |s.subs| && s.subs[i].parent.Some? ==> s.subs[i].parent.value < i)
    && (forall i :: 0 <= i < |s.subs| && s.subs[i].parent.Some? && s.subs[i].awaited && !Settled(s.subs[i].phase)
                    ==> s.subs[s.subs[i].parent.value].phase.Running?)
  }

  /** The thread-local flag is set exactly on the threads that execute a job now. */
  ghost predicate MarkerOk(s: State) {
    && (forall i :: 0 <= i < |s.subs| && s.subs[i].phase.Running? ==> s.subs[i].phase.thread in s.marked)
    && (forall t :: t in s.marked ==> exists i :: 0 <= i < |s.subs| && s.subs[i].phase == Running(t))
    && (forall i, j :: 0 <= i < j < |s.subs| && s.subs[i].phase.Running? ==> s.subs[i].phase != s.subs[j].phase)
  }

  ghost predicate Invariant(s: State) {
    Conserved(s) && QueueOk(s) && SubsOk(s) && MarkerOk(s)
  }

  // ---------------------------------------------------------------- preservation, clause by clause

  lemma HoldersUpdate(subs: seq<Submission>, i: Id, x: Submission)
    requires i < |subs|
    ensures Holders(subs[i := x]) == (Holders(subs) - {i}) + if Holds(x.phase) then {i} else {}
  {
    forall j: Id | j != i && j < |subs| ensures subs[i := x][j] == subs[j] {
    }
  }

  lemma SetPhaseHolders(s: State, i: Id, p: Phase)
    requires i < |s.subs|
    ensures |Holders(SetPhase(s, i, p).subs)|
         == |Holders(s.subs)| - (if Holds(s.subs[i].phase) then 1 else 0) + (if Holds(p) then 1 else 0)
  {
    HoldersUpdate(s.subs, i, s.subs[i].(phase := p));
  }

  lemma HoldersAppend(subs: seq<Submission>, x: Submission)
    ensures Holders(subs + [x]) == Holders(subs) + if Holds(x.phase) then {|subs|} else {}
  {
  }

  /** Handing a permit back keeps the books: it is free again or held by the queue's head. */
  lemma ReleaseConserves(s: State)
    requires QueueInRange(s) && (s.queue != [] ==> s.subs[s.queue[0]].phase == Queued)
    ensures Release(s).free + |Holders(Release(s).subs)| == s.free + |Holders(s.subs)| + 1
    ensures Release(s).limit == s.limit
  {
    if s.queue != [] {
      SetPhaseHolders(s, s.queue[0], Granted);
    }
  }

  /** The holder `i` moves to a phase without a permit and hands its permit back. */
  lemma HandBackConserves(s: State, i: Id, p: Phase, marked: set<Thread>)
    requires Conserved(s) && QueueOk(s) && i < |s.subs| && Holds(s.subs[i].phase) && !Holds(p)
    ensures Conserved(Release(SetPhase(s, i, p).(marked := marked)))
  {
    SetPhaseHolders(s, i, p);
    ReleaseConserves(SetPhase(s, i, p).(marked := marked));
  }

  lemma SubmitConserves(s: State, p: Option<Id>)
    requires Conserved(s) && QueueOk(s) && Enabled(s, Submit(p))
    ensures Conserved(Apply(s, Submit(p)))
  {
    HoldersAppend(s.subs, Submission(if s.free > 0 then Granted else Queued, true, p));
  }

  lemma DropConserves(s: State, i: Id)
    requires Conserved(s) && QueueOk(s) && Enabled(s, Drop(i))
    ensures Conserved(Apply(s, Drop(i)))
  {
    var p := s.subs[i].phase;
    if p.Granted? {
      HandBackConserves(s, i, Cancelled, s.marked);
    } else if Live(p) {
      assert Holders(Apply(s, Drop(i)).subs) == Holders(s.subs);
    } else {
      SetPhaseHolders(s, i, if p.Queued? then Cancelled else Discarded);
    }
  }

  lemma ConservedKept(s: State, a: Action)
    requires Conserved(s) && QueueOk(s) && Enabled(s, a)
    ensures Conserved(Apply(s, a))
  {
    match a {
      case Submit(p) => SubmitConserves(s, p);
      case Spawn(i) => SetPhaseHolders(s, i, Spawned);
      case Refuse(i) => HandBackConserves(s, i, Answered(s.subs[i], Lost), s.marked);
      case Start(i, t) => SetPhaseHolders(s, i, Running(t));
      case Finish(i, answer) =>
        HandBackConserves(s, i, Answered(s.subs[i], answer), s.marked - {s.subs[i].phase.thread});
      case Deliver(i) => SetPhaseHolders(s, i, Delivered(s.subs[i].phase.answer));
      case Drop(i) => DropConserves(s, i);
    }
  }

  lemma {:induction false} WithoutOne(q: seq<Id>, i: Id)
    requires forall j, k :: 0 <= j < k < |q| ==> q[j] < q[k]
    ensures forall x: Id :: x in Without(q, i) <==> x in q && x != i
    ensures forall j, k :: 0 <= j < k < |Without(q, i)| ==> Without(q, i)[j] < Without(q, i)[k]
  {
    if q != [] {
      if q[0] == i {
        assert q == [q[0]] + q[1..];
      } else {
        WithoutOne(q[1..], i);
        assert q == [q[0]] + q[1..];
        var w := Without(q[1..], i);
        forall k | 0 <= k < |w| ensures q[0] < w[k] {
          assert w[k] in w;
        }
      }
    }
  }

  /** Taking the head off the queue and granting it keeps queue and phases in step. */
  lemma ReleaseQueueOk(s: State)
    requires QueueInRange(s)
    requires forall j, k :: 0 <= j < k < |s.queue| ==> s.queue[j] < s.queue[k]
    requires forall i: Id :: i < |s.subs| ==> (s.subs[i].phase == Queued <==> i in s.queue)
    requires s.free > 0 ==> s.queue == []
    ensures QueueOk(Release(s))
  {
    if s.queue != [] {
      assert s.queue == [s.queue[0]] + s.queue[1..];
      assert s.queue[0] !in s.queue[1..];
    }
  }

  lemma DropQueuedOk(s: State, i: Id)
    requires QueueOk(s) && i < |s.subs| && s.subs[i].phase == Queued
    ensures QueueOk(SetPhase(s, i, Cancelled).(queue := Without(s.queue, i)))
  {
    WithoutOne(s.queue, i);
    var q := Without(s.queue, i);
    forall k | 0 <= k < |q| ensures q[k] < |s.subs| {
      assert q[k] in q && q[k] in s.queue;
    }
  }

  lemma DropQueueOk(s: State, i: Id)
    requires QueueOk(s) && Enabled(s, Drop(i))
    ensures QueueOk(Apply(s, Drop(i)))
  {
    if s.subs[i].phase.Queued? {
      DropQueuedOk(s, i);
    } else if s.subs[i].phase.Granted? {
      ReleaseQueueOk(SetPhase(s, i, Cancelled));
    }
  }

  lemma QueueOkKept(s: State, a: Action)
    requires QueueOk(s) && Enabled(s, a)
    ensures QueueOk(Apply(s, a))
  {
    match a {
      case Submit(p) =>
        assert forall i: Id :: i in s.queue ==> i < |s.subs|;
      case Refuse(i) => ReleaseQueueOk(SetPhase(s, i, Answered(s.subs[i], Lost)));
      case Finish(i, answer) =>
        ReleaseQueueOk(SetPhase(s, i, Answered(s.subs[i], answer)).(marked := s.marked - {s.subs[i].phase.thread}));
      case Drop(i) => DropQueueOk(s, i);
      case _ =>
    }
  }

  predicate NeedsCaller(p: Phase) { p.Queued? || p.Granted? || p.Finished? }

  lemma SetPhaseSubsOk(s: State, i: Id, p: Phase)
    requires SubsOk(s) && i < |s.subs| && !Settled(s.subs[i].phase)
    requires NeedsCaller(p) ==> s.subs[i].awaited
    requires s.subs[i].phase.Running? ==> p.Running? || !Parked(s.subs, i)
    ensures SubsOk(SetPhase(s, i, p))
  {
    var s' := SetPhase(s, i, p);
    forall c | 0 <= c < |s'.subs| && s'.subs[c].parent.Some? && s'.subs[c].awaited && !Settled(s'.subs[c].phase)
      ensures s'.subs[s'.subs[c].parent.value].phase.Running?
    {
      assert s.subs[c].parent == s'.subs[c].parent;
      assert c < |s.subs| && s.subs[c].awaited && !Settled(s.subs[c].phase);
    }
  }

  lemma SetPhaseMarkerOk(s: State, i: Id, p: Phase)
    requires MarkerOk(s) && i < |s.subs| && !s.subs[i].phase.Running? && !p.Running?
    ensures MarkerOk(SetPhase(s, i, p))
  {
    var s' := SetPhase(s, i, p);
    forall t | t in s'.marked ensures exists j :: 0 <= j < |s'.subs| && s'.subs[j].phase == Running(t) {
      var j :| 0 <= j < |s.subs| && s.subs[j].phase == Running(t);
      assert s'.subs[j].phase == Running(t);
    }
  }

  /** Granting the queue's head disturbs neither the submissions nor the thread markers. */
  lemma ReleaseOk(s: State)
    requires SubsOk(s) && MarkerOk(s) && QueueInRange(s) && (s.queue != [] ==> s.subs[s.queue[0]].phase == Queued)
    ensures SubsOk(Release(s)) && MarkerOk(Release(s))
  {
    if s.queue != [] {
      SetPhaseSubsOk(s, s.queue[0], Granted);
      SetPhaseMarkerOk(s, s.queue[0], Granted);
    }
  }

  lemma AppendSubsOk(s: State, x: Submission)
    requires SubsOk(s) && x.awaited
    requires x.parent.Some? ==> x.parent.value < |s.subs| && s.subs[x.parent.value].phase.Running?
    ensures SubsOk(s.(subs := s.subs + [x]))
  {
  }

  lemma AppendMarkerOk(s: State, x: Submission)
    requires MarkerOk(s) && !x.phase.Running?
    ensures MarkerOk(s.(subs := s.subs + [x]))
  {
    var s' := s.(subs := s.subs + [x]);
    forall t | t in s'.marked ensures exists j :: 0 <= j < |s'.subs| && s'.subs[j].phase == Running(t) {
      var j :| 0 <= j < |s.subs| && s.subs[j].phase == Running(t);
      assert s'.subs[j].phase == Running(t);
    }
  }

  lemma SubmitOk(s: State, p: Option<Id>)
    requires SubsOk(s) && MarkerOk(s) && QueueOk(s) && Enabled(s, Submit(p))
    ensures SubsOk(Apply(s, Submit(p))) && MarkerOk(Apply(s, Submit(p)))
  {
    var x := Submission(if s.free > 0 then Granted else Queued, true, p);
    AppendSubsOk(s, x);
    AppendMarkerOk(s, x);
  }

  lemma StartOk(s: State, i: Id, t: Thread)
    requires SubsOk(s) && MarkerOk(s) && QueueOk(s) && Enabled(s, Start(i, t))
    ensures SubsOk(Apply(s, Start(i, t))) && MarkerOk(Apply(s, Start(i, t)))
  {
    SetPhaseSubsOk(s, i, Running(t));
    StartMarkerOk(s, i, t);
  }

  lemma StartMarkerOk(s: State, i: Id, t: Thread)
    requires MarkerOk(s) && QueueInRange(s) && Enabled(s, Start(i, t))
    ensures MarkerOk(Apply(s, Start(i, t)))
  {
    var s' := Apply(s, Start(i, t));
    forall u | u in s'.marked ensures exists j :: 0 <= j < |s'.subs| && s'.subs[j].phase == Running(u) {
      if u == t {
        assert s'.subs[i].phase == Running(t);
      } else {
        var j :| 0 <= j < |s.subs| && s.subs[j].phase == Running(u);
        assert s'.subs[j].phase == Running(u);
      }
    }
  }

  lemma FinishOk(s: State, i: Id, answer: Answer)
    requires SubsOk(s) && MarkerOk(s) && QueueOk(s) && Enabled(s, Finish(i, answer))
    ensures SubsOk(Apply(s, Finish(i, answer))) && MarkerOk(Apply(s, Finish(i, answer)))
  {
    var p := Answered(s.subs[i], answer);
    var mid := SetPhase(s, i, p).(marked := s.marked - {s.subs[i].phase.thread});
    SetPhaseSubsOk(s, i, p);
    assert SubsOk(mid);
    assert MarkerOk(mid) by {
      forall t | t in mid.marked ensures exists j :: 0 <= j < |mid.subs| && mid.subs[j].phase == Running(t) {
        var j :| 0 <= j < |s.subs| && s.subs[j].phase == Running(t);
        assert mid.subs[j].phase == Running(t);
      }
    }
    ReleaseOk(mid);
  }

  lemma DetachOk(s: State, i: Id)
    requires SubsOk(s) && MarkerOk(s) && QueueOk(s) && Enabled(s, Drop(i)) && Live(s.subs[i].phase)
    ensures SubsOk(Apply(s, Drop(i))) && MarkerOk(Apply(s, Drop(i)))
  {
    var s' := Apply(s, Drop(i));
    assert forall j :: 0 <= j < |s.subs| ==> s'.subs[j].phase == s.subs[j].phase && s'.subs[j].parent == s.subs[j].parent;
    forall t | t in s'.marked ensures exists j :: 0 <= j < |s'.subs| && s'.subs[j].phase == Running(t) {
      var j :| 0 <= j < |s.subs| && s.subs[j].phase == Running(t);
      assert s'.subs[j].phase == Running(t);
    }
  }

  lemma PlainOk(s: State, i: Id, p: Phase)
    requires SubsOk(s) && MarkerOk(s) && i < |s.subs| && NeedsCaller(s.subs[i].phase) && !p.Running?
    ensures SubsOk(SetPhase(s, i, p)) && MarkerOk(SetPhase(s, i, p))
  {
    SetPhaseSubsOk(s, i, p);
    SetPhaseMarkerOk(s, i, p);
  }

  lemma SubsAndMarkerKept(s: State, a: Action)
    requires SubsOk(s) && MarkerOk(s) && QueueOk(s) && Enabled(s, a)
    ensures SubsOk(Apply(s, a)) && MarkerOk(Apply(s, a))
  {
    match a {
      case Submit(p) => SubmitOk(s, p);
      case Spawn(i) => PlainOk(s, i, Spawned);
      case Refuse(i) =>
        PlainOk(s, i, Answered(s.subs[i], Lost));
        ReleaseOk(SetPhase(s, i, Answered(s.subs[i], Lost)));
      case Start(i, t) => StartOk(s, i, t);
      case Finish(i, answer) => FinishOk(s, i, answer);
      case Deliver(i) => PlainOk(s, i, Delivered(s.subs[i].phase.answer));
      case Drop(i) =>
        if Live(s.subs[i].phase) {
          DetachOk(s, i);
        } else {
          PlainOk(s, i, if s.subs[i].phase.Finished? then Discarded else Cancelled);
          if s.subs[i].phase.Granted? {
            ReleaseOk(SetPhase(s, i, Cancelled));
          }
        }
    }
  }

  lemma InvariantKept(s: State, a: Action)
    requires Invariant(s) && Enabled(s, a)
    ensures Invariant(Apply(s, a))
  {
    ConservedKept(s, a);
    QueueOkKept(s, a);
    SubsAndMarkerKept(s, a);
  }

  // ---------------------------------------------------------------- runs

  ghost predicate IsRun(s: State, acts: seq<Action>)
    decreases |acts|
  {
    acts == [] || (QueueInRange(s) && Enabled(s, acts[0]) && IsRun(Apply(s, acts[0]), acts[1..]))
  }

  ghost function Run(s: State, acts: seq<Action>): State
    requires IsRun(s, acts)
    decreases |acts|
  {
    if acts == [] then s else Run(Apply(s, acts[0]), acts[1..])
  }

  lemma {:induction false} RunKeepsInvariant(s: State, acts: seq<Action>)
    requires Invariant(s) && IsRun(s, acts)
    ensures Invariant(Run(s, acts)) && Run(s, acts).limit == s.limit
    decreases |acts|
  {
    if acts != [] {
      InvariantKept(s, acts[0]);
      RunKeepsInvariant(Apply(s, acts[0]), acts[1..]);
    }
  }

  lemma InitInvariant(limit: nat)
    ensures Invariant(Init(limit))
  {
    assert Holders([]) == {};
  }

  function GrantedOnly(subs: seq<Submission>): set<Id> {
    set i: Id | i < |subs| && subs[i].phase.Granted?
  }

  /** Permit conservation. However calls are made, dropped, panic or are refused, the free permits,
      the granted callers that have not spawned yet and the live jobs, awaited or detached, add up
      to the limit; so live jobs never exceed it. A thread's marker is set exactly while a job runs
      on it. */
  lemma PermitsConserved(limit: nat, acts: seq<Action>)
    requires IsRun(Init(limit), acts)
    ensures var s := Run(Init(limit), acts);
            && s.free + |GrantedOnly(s.subs)| + |LiveJobs(s.subs)| == limit
            && |LiveJobs(s.subs)| <= limit
            && MarkerOk(s)
  {
    InitInvariant(limit);
    RunKeepsInvariant(Init(limit), acts);
    var s := Run(Init(limit), acts);
    assert Holders(s.subs) == GrantedOnly(s.subs) + LiveJobs(s.subs);
  }

  /** What one step may do to submission `i`: once settled nothing; once spawned, only forward. */
  lemma StepForward(s: State, a: Action, i: Id)
    requires QueueOk(s) && Enabled(s, a) && i < |s.subs|
    ensures i < |Apply(s, a).subs|
    ensures Settled(s.subs[i].phase) ==> Apply(s, a).subs[i] == s.subs[i]
    ensures Live(s.subs[i].phase) || s.subs[i].phase.Finished?
            ==> !NeedsPermit(Apply(s, a).subs[i].phase) && !Apply(s, a).subs[i].phase.Cancelled?
  {
    if a.Submit? || a.id != i {
      StepElsewhere(s, a, i);
    }
  }

  predicate NeedsPermit(p: Phase) { p.Queued? || p.Granted? }

  /** Settled is settled: in particular a call dropped while queued is `Cancelled` for good and
      never runs. */
  lemma {:induction false} SettledForever(s: State, acts: seq<Action>, i: Id)
    requires Invariant(s) && IsRun(s, acts) && i < |s.subs| && Settled(s.subs[i].phase)
    ensures i < |Run(s, acts).subs| && Run(s, acts).subs[i] == s.subs[i]
    decreases |acts|
  {
    if acts != [] {
      InvariantKept(s, acts[0]);
      StepForward(s, acts[0], i);
      SettledForever(Apply(s, acts[0]), acts[1..], i);
    }
  }

  lemma DroppedWhileQueuedNeverRuns(s: State, acts: seq<Action>, i: Id)
    requires Invariant(s) && i < |s.subs| && s.subs[i].phase == Queued && s.subs[i].awaited
    requires IsRun(Apply(s, Drop(i)), acts)
    ensures i < |Run(Apply(s, Drop(i)), acts).subs|
    ensures Run(Apply(s, Drop(i)), acts).subs[i].phase == Cancelled
  {
    InvariantKept(s, Drop(i));
    SettledForever(Apply(s, Drop(i)), acts, i);
  }

  /** And a job that was spawned is never cancelled: dropping its caller only detaches it. */
  lemma {:induction false} SpawnedIsNeverCancelled(s: State, acts: seq<Action>, i: Id)
    requires Invariant(s) && IsRun(s, acts) && i < |s.subs|
    requires !NeedsPermit(s.subs[i].phase) && !s.subs[i].phase.Cancelled?
    ensures i < |Run(s, acts).subs|
    ensures !NeedsPermit(Run(s, acts).subs[i].phase) && !Run(s, acts).subs[i].phase.Cancelled?
    decreases |acts|
  {
    if acts != [] {
      InvariantKept(s, acts[0]);
      StepForward(s, acts[0], i);
      SpawnedIsNeverCancelled(Apply(s, acts[0]), acts[1..], i);
    }
  }

  // ---------------------------------------------------------------- permits go in order

  lemma NeverRequeued(s: State, a: Action, i: Id)
    requires QueueOk(s) && Enabled(s, a) && i < |s.subs| && s.subs[i].phase != Queued
    ensures i < |Apply(s, a).subs| && Apply(s, a).subs[i].phase != Queued
  {
  }

  lemma HeadIsFirst(s: State, i: Id, j: Id)
    requires QueueOk(s) && i < j < |s.subs| && s.subs[i].phase == Queued
    ensures s.queue != [] && s.queue[0] != j
  {
    assert i in s.queue;
    var m :| 0 <= m < |s.queue| && s.queue[m] == i;
    assert s.queue[0] <= i;
  }

  lemma OnlyHeadGranted(s: State, a: Action, j: Id)
    requires QueueOk(s) && Enabled(s, a) && j < |s.subs| && s.subs[j].phase == Queued
    ensures j < |Apply(s, a).subs|
    ensures Apply(s, a).subs[j].phase == Queued || Apply(s, a).subs[j].phase == Cancelled
            || (s.queue != [] && s.queue[0] == j)
  {
  }

  /** A step that ends one call's wait, other than by dropping it, leaves no earlier call waiting. */
  lemma GrantsInOrder(s: State, a: Action, i: Id, j: Id)
    requires QueueOk(s) && Enabled(s, a) && i < j < |s.subs| && s.subs[j].phase == Queued
    ensures j < |Apply(s, a).subs|
    ensures Apply(s, a).subs[j].phase == Queued || Apply(s, a).subs[j].phase == Cancelled
            || Apply(s, a).subs[i].phase != Queued
  {
    OnlyHeadGranted(s, a, j);
    if s.subs[i].phase == Queued {
      HeadIsFirst(s, i, j);
    } else {
      NeverRequeued(s, a, i);
    }
  }

  /** First come, first served: of two waiting calls the later one never gets a permit while the
      earlier one still waits, over every run. */
  lemma {:induction false} FirstComeFirstServed(s: State, acts: seq<Action>, i: Id, j: Id)
    requires Invariant(s) && IsRun(s, acts) && i < j < |s.subs|
    requires s.subs[j].phase == Queued || s.subs[j].phase == Cancelled || s.subs[i].phase != Queued
    ensures j < |Run(s, acts).subs|
    ensures Run(s, acts).subs[j].phase == Queued || Run(s, acts).subs[j].phase == Cancelled
            || Run(s, acts).subs[i].phase != Queued
    decreases |acts|
  {
    if acts != [] {
      var a := acts[0];
      InvariantKept(s, a);
      if s.subs[i].phase != Queued {
        NeverRequeued(s, a, i);
      } else if s.subs[j].phase == Queued {
        GrantsInOrder(s, a, i, j);
      }
      StepForward(s, a, j);
      FirstComeFirstServed(Apply(s, a), acts[1..], i, j);
    }
  }

  // ---------------------------------------------------------------- which answer a call gets

  /** The run ended the job of call `i` with this answer, or lost the job. */
  predicate EndedWith(acts: seq<Action>, i: Id, x: Answer) {
    Finish(i, x) in acts || (Refuse(i) in acts && x == Lost)
  }

  /** What one step does to call `i`'s answer. */
  lemma StepAnswer(s: State, a: Action, i: Id, x: Answer)
    requires QueueOk(s) && Enabled(s, a) && i < |s.subs|
    ensures i < |Apply(s, a).subs|
    ensures var before, after := s.subs[i].phase, Apply(s, a).subs[i].phase;
            && (after == Finished(x) ==> before == Finished(x) || EndedWith([a], i, x))
            && (after == Delivered(x) ==> before == Delivered(x) || before == Finished(x))
            && (before == Finished(x) || before == Delivered(x) || before == Discarded
                ==> after == Finished(x) || after == Delivered(x) || after == Discarded)
            && (EndedWith([a], i, x) ==> after == Finished(x) || after == Discarded)
  {
    if a.Submit? || a.id != i {
      StepElsewhere(s, a, i);
    }
  }

  /** A step names the call it is about; another call is at most granted a permit. */
  lemma StepElsewhere(s: State, a: Action, i: Id)
    requires QueueOk(s) && Enabled(s, a) && i < |s.subs| && (a.Submit? || a.id != i)
    ensures Apply(s, a).subs[i] == s.subs[i]
            || (s.subs[i].phase == Queued && Apply(s, a).subs[i] == s.subs[i].(phase := Granted))
  {
  }

  lemma {:induction false} RunLast(s: State, acts: seq<Action>)
    requires acts != [] && IsRun(s, acts)
    ensures var front, last := acts[..|acts| - 1], acts[|acts| - 1];
            && IsRun(s, front) && QueueInRange(Run(s, front)) && Enabled(Run(s, front), last)
            && Run(s, acts) == Apply(Run(s, front), last)
    decreases |acts|
  {
    if |acts| == 1 {
      assert acts[..0] == [] && acts[1..] == [];
    } else {
      RunLast(Apply(s, acts[0]), acts[1..]);
      assert acts[1..][..|acts| - 2] == acts[..|acts| - 1][1..];
    }
  }

  /** A call that has an answer has its job's, and a job's answer is with its call or thrown away. */
  predicate AnswerOk(acts: seq<Action>, subs: seq<Submission>, i: Id, x: Answer) {
    && (i < |subs| && (subs[i].phase == Finished(x) || subs[i].phase == Delivered(x)) ==> EndedWith(acts, i, x))
    && (EndedWith(acts, i, x) ==>
          i < |subs| && (subs[i].phase == Finished(x) || subs[i].phase == Delivered(x) || subs[i].phase == Discarded))
  }

  lemma AnswerStep(acts: seq<Action>, s: State, a: Action, i: Id, x: Answer)
    requires QueueOk(s) && Enabled(s, a) && AnswerOk(acts, s.subs, i, x)
    ensures AnswerOk(acts + [a], Apply(s, a).subs, i, x)
  {
    assert EndedWith(acts + [a], i, x) <==> EndedWith(acts, i, x) || EndedWith([a], i, x);
    if i < |s.subs| {
      StepAnswer(s, a, i, x);
    } else {
      NewCallHasNone(s, a, i, x);
    }
  }

  lemma NewCallHasNone(s: State, a: Action, i: Id, x: Answer)
    requires QueueOk(s) && Enabled(s, a) && i >= |s.subs|
    ensures !EndedWith([a], i, x)
    ensures i < |Apply(s, a).subs| ==> NeedsPermit(Apply(s, a).subs[i].phase)
  {
  }

  /** A call gets its own job's answer. In every run, a call that has an answer has the one its job
      ended with, `Lost` only if the runtime refused the job; and a job that ended so, panic
      included, has that answer waiting, delivered, or thrown away with its caller. */
  lemma {:induction false} AnswersAreTheJobs(limit: nat, acts: seq<Action>, i: Id, x: Answer)
    requires IsRun(Init(limit), acts)
    ensures AnswerOk(acts, Run(Init(limit), acts).subs, i, x)
    decreases |acts|
  {
    if acts != [] {
      var front, a := acts[..|acts| - 1], acts[|acts| - 1];
      RunLast(Init(limit), acts);
      AnswersAreTheJobs(limit, front, i, x);
      InitInvariant(limit);
      RunKeepsInvariant(Init(limit), front);
      AnswerStep(front, Run(Init(limit), front), a, i, x);
      assert acts == front + [a];
    }
  }

  predicate LetGo(x: Submission) { !x.awaited || x.phase == Discarded || x.phase == Cancelled }

  lemma StepLetsGo(s: State, a: Action, i: Id)
    requires QueueOk(s) && Enabled(s, a) && i < |Apply(s, a).subs| && LetGo(Apply(s, a).subs[i])
    ensures a == Drop(i) || (i < |s.subs| && LetGo(s.subs[i]))
  {
  }

  /** An answer is thrown away, or a call cancelled or detached, only by dropping that call. */
  lemma {:induction false} OnlyDropsLetGo(limit: nat, acts: seq<Action>, i: Id)
    requires IsRun(Init(limit), acts) && i < |Run(Init(limit), acts).subs| && LetGo(Run(Init(limit), acts).subs[i])
    ensures Drop(i) in acts
    decreases |acts|
  {
    RunLast(Init(limit), acts);
    var front, a := acts[..|acts| - 1], acts[|acts| - 1];
    InitInvariant(limit);
    RunKeepsInvariant(Init(limit), front);
    StepLetsGo(Run(Init(limit), front), a, i);
    if a != Drop(i) {
      OnlyDropsLetGo(limit, front, i);
    }
  }

  /** So a panic reaches the caller exactly when the job panicked. */
  lemma PanicIsDeliveredIffJobPanicked(limit: nat, acts: seq<Action>, i: Id)
    requires IsRun(Init(limit), acts) && i < |Run(Init(limit), acts).subs|
    requires Run(Init(limit), acts).subs[i].phase.Delivered?
    ensures Run(Init(limit), acts).subs[i].phase == Delivered(Panic) <==> Finish(i, Panic) in acts
    ensures Run(Init(limit), acts).subs[i].phase == Delivered(Value) <==> Finish(i, Value) in acts
    ensures Run(Init(limit), acts).subs[i].phase == Delivered(Lost) <==> Refuse(i) in acts
  {
    AnswersAreTheJobs(limit, acts, i, Panic);
    AnswersAreTheJobs(limit, acts, i, Value);
    AnswersAreTheJobs(limit, acts, i, Lost);
    NoJobEndsLost(Init(limit), acts, i);
  }

  lemma {:induction false} NoJobEndsLost(s: State, acts: seq<Action>, i: Id)
    requires IsRun(s, acts)
    ensures Finish(i, Lost) !in acts
    decreases |acts|
  {
    if acts != [] {
      NoJobEndsLost(Apply(s, acts[0]), acts[1..], i);
      assert acts == [acts[0]] + acts[1..];
    }
  }

  // ---------------------------------------------------------------- progress

  /** Steps the runner takes by itself: no new calls and no cancellation. */
  predicate Internal(a: Action) { !a.Submit? && !a.Drop? }

  function FreeThread(subs: seq<Submission>): (t: Thread)
    ensures forall i :: 0 <= i < |subs| && subs[i].phase.Running? ==> subs[i].phase.thread < t
  {
    if subs == [] then 0
    else
      var last := subs[|subs| - 1].phase;
      var t := FreeThread(subs[..|subs| - 1]);
      if last.Running? && last.thread >= t then last.thread + 1 else t
  }

  /** With every permit held by a running job, one of them is not parked unless all are. */
  lemma SomeHolderFree(s: State) returns (i: Id)
    requires Invariant(s) && s.free == 0 && |ParkedJobs(s.subs)| < s.limit
    requires forall j: Id :: j < |s.subs| ==> !s.subs[j].phase.Granted? && !s.subs[j].phase.Spawned?
    ensures i < |s.subs| && s.subs[i].phase.Running? && !Parked(s.subs, i)
  {
    var running, parked := Holders(s.subs), ParkedJobs(s.subs);
    if running <= parked {
      SubsetCard(running, parked);
      assert false;
    }
    i :| i in running && i !in parked;
  }

  /** The last job running waits for nobody when nothing is queued: nested calls come later. */
  lemma {:induction false} LastRunnerFree(s: State, i: Id) returns (r: Id)
    requires SubsOk(s) && i < |s.subs| && s.subs[i].phase.Running?
    requires forall j: Id :: j < |s.subs| ==> Settled(s.subs[j].phase) || s.subs[j].phase.Running?
    ensures r < |s.subs| && s.subs[r].phase.Running? && !Parked(s.subs, r)
    decreases |s.subs| - i
  {
    if Parked(s.subs, i) {
      var c: Id :| c < |s.subs| && s.subs[c].parent == Some(i) && s.subs[c].awaited && !Settled(s.subs[c].phase);
      r := LastRunnerFree(s, c);
    } else {
      r := i;
    }
  }

  /** Nested-job progress: while fewer jobs than the limit are parked on another call, anything
      unfinished can be moved on by the runner itself. */
  lemma Progress(s: State, i: Id) returns (a: Action)
    requires Invariant(s) && |ParkedJobs(s.subs)| < s.limit
    requires i < |s.subs| && !Settled(s.subs[i].phase)
    ensures Internal(a) && Enabled(s, a)
  {
    if j: Id :| j < |s.subs| && s.subs[j].phase.Granted? {
      a := Spawn(j);
    } else if j: Id :| j < |s.subs| && s.subs[j].phase.Spawned? {
      a := Start(j, FreeThread(s.subs));
    } else if j: Id :| j < |s.subs| && s.subs[j].phase.Finished? {
      a := Deliver(j);
    } else if s.queue != [] {
      var r := SomeHolderFree(s);
      a := Finish(r, Value);
    } else {
      var r := LastRunnerFree(s, i);
      a := Finish(r, Value);
    }
  }

  function Rank(p: Phase): nat {
    match p
    case Queued => 5
    case Granted => 4
    case Spawned => 3
    case Running(_) => 2
    case Finished(_) => 1
    case _ => 0
  }

  /** How many internal steps the outstanding calls can still take. */
  function Weight(subs: seq<Submission>): nat {
    if subs == [] then 0 else Rank(subs[0].phase) + Weight(subs[1..])
  }

  lemma {:induction false} WeightUpdate(subs: seq<Submission>, i: Id, x: Submission)
    requires i < |subs|
    ensures Weight(subs[i := x]) == Weight(subs) - Rank(subs[i].phase) + Rank(x.phase)
    decreases |subs|
  {
    if i == 0 {
      assert subs[i := x][1..] == subs[1..];
    } else {
      WeightUpdate(subs[1..], i - 1, x);
      assert subs[i := x][1..] == subs[1..][i - 1 := x];
    }
  }

  lemma ReleaseWeight(s: State)
    requires QueueInRange(s) && (s.queue != [] ==> s.subs[s.queue[0]].phase == Queued)
    ensures Weight(Release(s).subs) <= Weight(s.subs)
  {
    if s.queue != [] {
      WeightUpdate(s.subs, s.queue[0], s.subs[s.queue[0]].(phase := Granted));
    }
  }

  lemma HandBackWeight(s: State, i: Id, p: Phase, marked: set<Thread>)
    requires QueueOk(s) && i < |s.subs| && !s.subs[i].phase.Queued? && Rank(p) < Rank(s.subs[i].phase)
    ensures Weight(Release(SetPhase(s, i, p).(marked := marked)).subs) < Weight(s.subs)
  {
    WeightUpdate(s.subs, i, s.subs[i].(phase := p));
    ReleaseWeight(SetPhase(s, i, p).(marked := marked));
  }

  lemma InternalWeight(s: State, a: Action)
    requires QueueOk(s) && Enabled(s, a) && Internal(a)
    ensures Weight(Apply(s, a).subs) < Weight(s.subs)
  {
    match a {
      case Spawn(i) => WeightUpdate(s.subs, i, s.subs[i].(phase := Spawned));
      case Refuse(i) => HandBackWeight(s, i, Answered(s.subs[i], Lost), s.marked);
      case Start(i, t) => WeightUpdate(s.subs, i, s.subs[i].(phase := Running(t)));
      case Finish(i, answer) =>
        HandBackWeight(s, i, Answered(s.subs[i], answer), s.marked - {s.subs[i].phase.thread});
      case Deliver(i) => WeightUpdate(s.subs, i, s.subs[i].(phase := Delivered(s.subs[i].phase.answer)));
    }
  }

  /** The runner's own steps park nobody. */
  lemma InternalParksNobody(s: State, a: Action)
    requires QueueOk(s) && Enabled(s, a) && Internal(a)
    ensures |Apply(s, a).subs| == |s.subs|
    ensures ParkedJobs(Apply(s, a).subs) <= ParkedJobs(s.subs)
  {
    var s' := Apply(s, a);
    forall j | j in ParkedJobs(s'.subs) ensures j in ParkedJobs(s.subs) {
      var c: Id :| c < |s'.subs| && s'.subs[c].parent == Some(j) && s'.subs[c].awaited && !Settled(s'.subs[c].phase);
      StepForward(s, a, c);
      assert s.subs[c].parent == Some(j) && s.subs[c].awaited && !Settled(s.subs[c].phase);
    }
  }

  lemma {:induction false} DrainBounded(s: State, acts: seq<Action>)
    requires Invariant(s) && IsRun(s, acts) && (forall a :: a in acts ==> Internal(a))
    ensures |acts| + Weight(Run(s, acts).subs) <= Weight(s.subs)
    ensures ParkedJobs(Run(s, acts).subs) <= ParkedJobs(s.subs)
    decreases |acts|
  {
    if acts != [] {
      var a := acts[0];
      InvariantKept(s, a);
      InternalWeight(s, a);
      InternalParksNobody(s, a);
      DrainBounded(Apply(s, a), acts[1..]);
    }
  }

  /** Whatever order the runner works in, once calls stop coming and with fewer jobs parked than
      the limit, it stops after finitely many steps and only when every call is settled. */
  lemma DrainsCompletely(s: State, acts: seq<Action>)
    requires Invariant(s) && IsRun(s, acts) && (forall a :: a in acts ==> Internal(a))
    requires |ParkedJobs(s.subs)| < s.limit
    ensures |acts| <= Weight(s.subs)
    ensures (forall a :: Internal(a) ==> !Enabled(Run(s, acts), a))
            ==> forall i :: 0 <= i < |Run(s, acts).subs| ==> Settled(Run(s, acts).subs[i].phase)
  {
    DrainBounded(s, acts);
    RunKeepsInvariant(s, acts);
    var end := Run(s, acts);
    SubsetCard(ParkedJobs(end.subs), ParkedJobs(s.subs));
    if i: Id :| i < |end.subs| && !Settled(end.subs[i].phase) {
      var a := Progress(end, i);
    }
  }

  // ---------------------------------------------------------------- deadlock, exactly

  ghost predicate Unfinished(s: State) {
    exists i: Id :: i < |s.subs| && !Settled(s.subs[i].phase)
  }

  /** The runner has no step of its own. */
  ghost predicate Stuck(s: State) {
    forall a :: Internal(a) ==> !Enabled(s, a)
  }

  /** As many jobs are parked as there are permits, and no answer is waiting to be picked up. */
  ghost predicate Deadlocked(s: State) {
    && |ParkedJobs(s.subs)| == s.limit
    && forall i :: 0 <= i < |s.subs| ==> !s.subs[i].phase.Finished?
  }

  lemma ParkedJobsHold(s: State)
    requires Invariant(s)
    ensures ParkedJobs(s.subs) <= Holders(s.subs)
    ensures forall j :: j in ParkedJobs(s.subs) ==> s.subs[j].phase.Running?
    ensures |ParkedJobs(s.subs)| <= s.limit
  {
    SubsetCard(ParkedJobs(s.subs), Holders(s.subs));
  }

  /** When every permit is with a parked job, every holder is one. */
  lemma HoldersAllParked(s: State)
    requires Invariant(s) && |ParkedJobs(s.subs)| == s.limit
    ensures s.free == 0 && Holders(s.subs) == ParkedJobs(s.subs)
    ensures forall i: Id :: i < |s.subs| && Holds(s.subs[i].phase) ==> s.subs[i].phase.Running? && Parked(s.subs, i)
  {
    ParkedJobsHold(s);
    SubsetCard(ParkedJobs(s.subs), Holders(s.subs));
    forall i: Id | i < |s.subs| && Holds(s.subs[i].phase) ensures s.subs[i].phase.Running? && Parked(s.subs, i) {
      assert i in Holders(s.subs);
    }
  }

  lemma DeadlockedIsStuck(s: State, a: Action)
    requires Invariant(s) && Deadlocked(s) && Internal(a)
    ensures !Enabled(s, a)
  {
    HoldersAllParked(s);
  }

  lemma StuckIsDeadlocked(s: State)
    requires Invariant(s) && Unfinished(s) && Stuck(s)
    ensures Deadlocked(s)
  {
    ParkedJobsHold(s);
    var i: Id :| i < |s.subs| && !Settled(s.subs[i].phase);
    if |ParkedJobs(s.subs)| < s.limit {
      var a := Progress(s, i);
    }
    forall j: Id | j < |s.subs| ensures !s.subs[j].phase.Finished? {
      assert !Enabled(s, Deliver(j));
    }
  }

  /** Progress fails exactly at a deadlock: with calls unfinished, the runner has no step of its own
      if and only if every permit is with a parked job and no answer is waiting. */
  lemma StuckIffDeadlocked(s: State)
    requires Invariant(s) && Unfinished(s)
    ensures Stuck(s) <==> Deadlocked(s)
  {
    if Deadlocked(s) {
      forall a | Internal(a) ensures !Enabled(s, a) {
        DeadlockedIsStuck(s, a);
      }
    } else if Stuck(s) {
      StuckIsDeadlocked(s);
    }
  }

  lemma ParkedStayParked(subs: seq<Submission>, x: Submission)
    ensures ParkedJobs(subs) <= ParkedJobs(subs + [x])
  {
    forall j | j in ParkedJobs(subs) ensures Parked(subs + [x], j) {
      var c: Id :| c < |subs| && subs[c].parent == Some(j) && subs[c].awaited && !Settled(subs[c].phase);
      assert (subs + [x])[c] == subs[c];
    }
  }

  /** A new call on a deadlocked runner joins the queue, and the deadlock stays. */
  lemma DeadlockStep(s: State, p: Option<Id>)
    requires Invariant(s) && Deadlocked(s) && Enabled(s, Submit(p))
    ensures Deadlocked(Apply(s, Submit(p)))
  {
    HoldersAllParked(s);
    InvariantKept(s, Submit(p));
    var s' := Apply(s, Submit(p));
    ParkedJobsHold(s');
    ParkedStayParked(s.subs, Submission(Queued, true, p));
    SubsetCard(ParkedJobs(s.subs), ParkedJobs(s'.subs));
  }

  lemma {:induction false} DeadlockKept(s: State, acts: seq<Action>)
    requires Invariant(s) && Deadlocked(s) && IsRun(s, acts) && (forall a :: a in acts ==> !a.Drop?)
    ensures Deadlocked(Run(s, acts)) && (forall a :: a in acts ==> a.Submit?)
    decreases |acts|
  {
    if acts != [] {
      var a := acts[0];
      if Internal(a) {
        DeadlockedIsStuck(s, a);
      }
      InvariantKept(s, a);
      DeadlockStep(s, a.parent);
      DeadlockKept(Apply(s, a), acts[1..]);
      assert acts == [a] + acts[1..];
    }
  }

  /** With no free permit, calls only join the queue. */
  lemma {:induction false} CallsOnlyQueue(s: State, acts: seq<Action>)
    requires s.free == 0 && IsRun(s, acts) && (forall a :: a in acts ==> a.Submit?)
    ensures s.subs <= Run(s, acts).subs
    ensures forall i :: |s.subs| <= i < |Run(s, acts).subs| ==> Run(s, acts).subs[i].phase == Queued
    decreases |acts|
  {
    if acts != [] {
      CallsOnlyQueue(Apply(s, acts[0]), acts[1..]);
      assert Apply(s, acts[0]).subs == s.subs + [Submission(Queued, true, acts[0].parent)];
    }
  }

  /** And a deadlock is permanent: until some caller is dropped, new calls only queue up, and every
      call there was stays exactly as it is. */
  lemma DeadlockIsPermanent(s: State, acts: seq<Action>)
    requires Invariant(s) && Deadlocked(s) && IsRun(s, acts) && (forall a :: a in acts ==> !a.Drop?)
    ensures Deadlocked(Run(s, acts)) && (forall a :: a in acts ==> a.Submit?)
    ensures s.subs <= Run(s, acts).subs
    ensures forall i :: |s.subs| <= i < |Run(s, acts).subs| ==> Run(s, acts).subs[i].phase == Queued
  {
    DeadlockKept(s, acts);
    HoldersAllParked(s);
    CallsOnlyQueue(s, acts);
  }

  // ---------------------------------------------------------------- the bound is tight

  lemma {:induction false} RunAppend(s: State, acts: seq<Action>, a: Action)
    requires IsRun(s, acts) && QueueInRange(Run(s, acts)) && Enabled(Run(s, acts), a)
    ensures IsRun(s, acts + [a]) && Run(s, acts + [a]) == Apply(Run(s, acts), a)
    decreases |acts|
  {
    if acts == [] {
      assert [] + [a] == [a];
      assert IsRun(Apply(s, a), []);
    } else {
      RunAppend(Apply(s, acts[0]), acts[1..], a);
      assert (acts + [a])[1..] == acts[1..] + [a];
    }
  }

  function Top(i: Id): Submission { Submission(Running(i), true, None) }

  function Nested(i: Id): Submission { Submission(Queued, true, Some(i)) }

  function Threads(k: nat): (ts: set<Thread>)
    ensures |ts| == k && forall t: Thread :: t in ts <==> t < k
  {
    if k == 0 then {} else Threads(k - 1) + {k - 1}
  }

  /** `k` outer jobs running, the other permits free. */
  function Filled(limit: nat, k: nat): State
    requires k <= limit
  {
    State(limit, limit - k, [], seq(k, (i: nat) => Top(i)), Threads(k))
  }

  /** Every permit held by an outer job; the first `k` of them have made a nested call. */
  function Waiting(limit: nat, k: nat): State
    requires k <= limit
  {
    State(limit, 0, seq(k, (i: nat) => limit + i), seq(limit, (i: nat) => Top(i)) + seq(k, (i: nat) => Nested(i)), Threads(limit))
  }

  lemma FillStep(limit: nat, k: nat)
    requires k < limit
    ensures var s0 := Filled(limit, k);
            && Enabled(s0, Submit(None)) && Enabled(Apply(s0, Submit(None)), Spawn(k))
            && var s2 := Apply(Apply(s0, Submit(None)), Spawn(k));
               QueueInRange(s2) && Enabled(s2, Start(k, k)) && Apply(s2, Start(k, k)) == Filled(limit, k + 1)
  {
    var s0 := Filled(limit, k);
    var s1 := Apply(s0, Submit(None));
    var s2 := Apply(s1, Spawn(k));
    var s3 := Apply(s2, Start(k, k));
    assert s3.subs == Filled(limit, k + 1).subs;
    assert s3.marked == Threads(k + 1);
  }

  lemma ReachNext(limit: nat, k: nat, acts: seq<Action>) returns (more: seq<Action>)
    requires k < limit && IsRun(Init(limit), acts) && Run(Init(limit), acts) == Filled(limit, k)
    ensures IsRun(Init(limit), more) && Run(Init(limit), more) == Filled(limit, k + 1)
  {
    var s0 := Init(limit);
    FillStep(limit, k);
    more := acts + [Submit(None)];
    RunAppend(s0, acts, Submit(None));
    RunAppend(s0, more, Spawn(k));
    more := more + [Spawn(k)];
    RunAppend(s0, more, Start(k, k));
    more := more + [Start(k, k)];
  }

  lemma {:induction false} ReachFilled(limit: nat, k: nat) returns (acts: seq<Action>)
    requires k <= limit
    ensures IsRun(Init(limit), acts) && Run(Init(limit), acts) == Filled(limit, k)
    decreases k
  {
    if k == 0 {
      acts := [];
      assert Filled(limit, 0).subs == [] && Threads(0) == {};
    } else {
      acts := ReachFilled(limit, k - 1);
      acts := ReachNext(limit, k - 1, acts);
    }
  }

  lemma WaitStep(limit: nat, k: nat)
    requires k < limit
    ensures var s0 := Waiting(limit, k);
            QueueInRange(s0) && Enabled(s0, Submit(Some(k))) && Apply(s0, Submit(Some(k))) == Waiting(limit, k + 1)
  {
    var s0 := Waiting(limit, k);
    var s1 := Apply(s0, Submit(Some(k)));
    assert s1.subs == Waiting(limit, k + 1).subs;
    assert s1.queue == Waiting(limit, k + 1).queue;
  }

  lemma {:induction false} ReachWaiting(limit: nat, k: nat) returns (acts: seq<Action>)
    requires k <= limit
    ensures IsRun(Init(limit), acts) && Run(Init(limit), acts) == Waiting(limit, k)
    decreases k
  {
    if k == 0 {
      acts := ReachFilled(limit, limit);
      assert Filled(limit, limit).subs == Waiting(limit, 0).subs;
    } else {
      acts := ReachWaiting(limit, k - 1);
      WaitStep(limit, k - 1);
      RunAppend(Init(limit), acts, Submit(Some(k - 1)));
      acts := acts + [Submit(Some(k - 1))];
    }
  }

  lemma EveryHolderWaits(limit: nat)
    ensures forall i: Id :: i < limit ==> Parked(Waiting(limit, limit).subs, i)
    ensures ParkedJobs(Waiting(limit, limit).subs) == Threads(limit)
  {
    var subs := Waiting(limit, limit).subs;
    forall i: Id | i < limit ensures Parked(subs, i) {
      assert subs[limit + i] == Nested(i);
    }
    forall j | j in ParkedJobs(subs) ensures j < limit {
      var c: Id :| c < |subs| && subs[c].parent == Some(j);
    }
  }

  lemma WaitingDeadlocked(limit: nat)
    requires limit > 0
    ensures Deadlocked(Waiting(limit, limit)) && Unfinished(Waiting(limit, limit))
  {
    EveryHolderWaits(limit);
    var s := Waiting(limit, limit);
    forall i | 0 <= i < |s.subs| ensures !s.subs[i].phase.Finished? {
      assert s.subs[i].phase == if i < limit then Running(i) else Queued;
    }
    assert s.subs[0] == Top(0);
  }

  /** The bound is tight: for every limit a reachable state with exactly that many parked jobs is
      deadlocked with unfinished calls. */
  lemma AllParkedIsStuck(limit: nat) returns (acts: seq<Action>)
    requires limit > 0
    ensures IsRun(Init(limit), acts)
    ensures Deadlocked(Run(Init(limit), acts)) && Unfinished(Run(Init(limit), acts)) && Stuck(Run(Init(limit), acts))
  {
    acts := ReachWaiting(limit, limit);
    WaitingDeadlocked(limit);
    InitInvariant(limit);
    RunKeepsInvariant(Init(limit), acts);
    StuckIffDeadlocked(Run(Init(limit), acts));
  }

  // ---------------------------------------------------------------- the mutable runner

  /** The semaphore with its queue, the calls in flight and the thread markers, updated in place.
      Each method is one step of `run` and refines the state machine. */
  class Runner {
    const limit: nat
    var free: nat
    var queue: seq<Id>
    var subs: seq<Submission>
    var marked: set<Thread>

    ghost function View(): State
      reads this
    {
      State(limit, free, queue, subs, marked)
    }

    ghost predicate Valid()
      reads this
    {
      Invariant(View())
    }

    constructor (cores: Option<nat>)
      ensures Valid() && View() == Init(ConcurrencyLimit(cores))
    {
      limit := ConcurrencyLimit(cores);
      free := ConcurrencyLimit(cores);
      queue := [];
      subs := [];
      marked := {};
      InitInvariant(ConcurrencyLimit(cores));
    }

    method ReleasePermit()
      requires QueueInRange(View())
      modifies this`free, this`queue, this`subs
      ensures View() == Release(old(View()))
    {
      if queue == [] {
        free := free + 1;
      } else {
        var head := queue[0];
        queue := queue[1..];
        subs := subs[head := subs[head].(phase := Granted)];
      }
    }

    /** `SLOTS.acquire()`: take a free permit or join the queue. */
    method Acquire(parent: Option<Id>) returns (i: Id)
      requires Valid() && Enabled(View(), Submit(parent))
      modifies this`free, this`queue, this`subs
      ensures Valid() && View() == Apply(old(View()), Submit(parent)) && i == |old(subs)|
    {
      InvariantKept(View(), Submit(parent));
      i := |subs|;
      if free > 0 {
        free := free - 1;
        subs := subs + [Submission(Granted, true, parent)];
      } else {
        queue := queue + [i];
        subs := subs + [Submission(Queued, true, parent)];
      }
    }

    /** `spawn_blocking`: the permit moves into the closure, which a dead runtime drops unrun. */
    method SpawnBlocking(i: Id, runtimeAlive: bool)
      requires Valid() && Enabled(View(), Spawn(i))
      modifies this`free, this`queue, this`subs
      ensures Valid() && View() == Apply(old(View()), if runtimeAlive then Spawn(i) else Refuse(i))
      ensures subs[i].phase == if runtimeAlive then Spawned else Finished(Lost)
    {
      InvariantKept(View(), if runtimeAlive then Spawn(i) else Refuse(i));
      if runtimeAlive {
        subs := subs[i := subs[i].(phase := Spawned)];
      } else {
        subs := subs[i := subs[i].(phase := Answered(subs[i], Lost))];
        ReleasePermit();
      }
    }

    /** A pool thread picks the job up and sets its marker. */
    method BeginJob(i: Id, t: Thread)
      requires Valid() && Enabled(View(), Start(i, t))
      modifies this`subs, this`marked
      ensures Valid() && View() == Apply(old(View()), Start(i, t))
    {
      InvariantKept(View(), Start(i, t));
      marked := marked + {t};
      subs := subs[i := subs[i].(phase := Running(t))];
    }

    /** The closure returns or unwinds: the marker is cleared, then the permit released. */
    method EndJob(i: Id, panicked: bool)
      requires Valid() && Enabled(View(), Finish(i, Value))
      modifies this
      ensures Valid() && View() == Apply(old(View()), Finish(i, if panicked then Panic else Value))
      ensures old(subs[i].awaited) ==> subs[i].phase == Finished(if panicked then Panic else Value)
    {
      var answer := if panicked then Panic else Value;
      InvariantKept(View(), Finish(i, answer));
      marked := marked - {subs[i].phase.thread};
      subs := subs[i := subs[i].(phase := Answered(subs[i], answer))];
      ReleasePermit();
    }

    /** `handle.await` resolves: the value is returned, a panic or a lost job resurfaces. */
    method Await(i: Id) returns (answer: Answer)
      requires Valid() && Enabled(View(), Deliver(i))
      modifies this`subs
      ensures Valid() && View() == Apply(old(View()), Deliver(i)) && subs[i].phase == Delivered(answer)
      ensures old(subs[i].phase) == Finished(answer)
    {
      InvariantKept(View(), Deliver(i));
      answer := subs[i].phase.answer;
      subs := subs[i := subs[i].(phase := Delivered(answer))];
    }

    /** The caller's future is dropped, wherever the call has got to. */
    method DropFuture(i: Id)
      requires Valid() && Enabled(View(), Drop(i))
      modifies this`free, this`queue, this`subs
      ensures Valid() && View() == Apply(old(View()), Drop(i))
    {
      InvariantKept(View(), Drop(i));
      var p := subs[i].phase;
      if p.Queued? {
        queue := Without(queue, i);
        subs := subs[i := subs[i].(phase := Cancelled)];
      } else if p.Granted? {
        subs := subs[i := subs[i].(phase := Cancelled)];
        ReleasePermit();
      } else if p.Finished? {
        subs := subs[i := subs[i].(phase := Discarded)];
      } else {
        subs := subs[i := subs[i].(awaited := false)];
      }
    }
  }
}
