/** The drain counter of `crates/core/src/pending.rs`: an atomic count and a notifier that are
    updated in two separate steps, under every interleaving of adders, retirers and waiters. */
module PendingDrain {

  /** A `wait_drained` call: at the top of its loop, registered with the notifier, parked on it, or
      over. `notified` says whether a wake-up has reached the current registration. */
  datatype Pc = Entering | Registered(notified: bool) | Parked(notified: bool) | Returned | Abandoned

  /** `loops` counts registrations; `since` is how many wake-ups had been sent before the call. */
  datatype Waiter = Waiter(pc: Pc, loops: nat, since: nat)

  /** `owed` retirers have brought the count to zero and not yet called `notify_waiters`. */
  datatype State = State(count: nat, owed: nat, sent: nat, waiters: seq<Waiter>)

  const INIT := State(0, 0, 0, [])

  datatype Action =
    | Add(n: nat)
    | Sub(n: nat)
    | Notify
    | Call
    | Register(w: nat)
    | Check(w: nat)
    | Wake(w: nat)
    | Abandon(w: nat)

  predicate InCall(pc: Pc) { pc != Returned && pc != Abandoned }

  predicate At(s: State, w: nat, pc: Pc) { w < |s.waiters| && s.waiters[w].pc == pc }

  predicate Enabled(s: State, a: Action) {
    match a
    case Add(_) => true
    case Sub(n) => n <= s.count
    case Notify => s.owed > 0
    case Call => true
    case Register(w) => At(s, w, Entering)
    case Check(w) => w < |s.waiters| && s.waiters[w].pc.Registered?
    case Wake(w) => At(s, w, Parked(true))
    case Abandon(w) => w < |s.waiters| && InCall(s.waiters[w].pc)
  }

  function SetPc(s: State, w: nat, pc: Pc): State
    requires w < |s.waiters|
  {
    s.(waiters := s.waiters[w := s.waiters[w].(pc := pc)])
  }

  /** A wake-up reaches exactly the waiters registered at that moment. */
  function Woken(x: Waiter): Waiter {
    match x.pc
    case Registered(_) => x.(pc := Registered(true))
    case Parked(_) => x.(pc := Parked(true))
    case _ => x
  }

  function WokenAll(ws: seq<Waiter>): (r: seq<Waiter>)
    ensures |r| == |ws| && forall i :: 0 <= i < |ws| ==> r[i] == Woken(ws[i])
  {
    seq(|ws|, i requires 0 <= i < |ws| => Woken(ws[i]))
  }

  function Apply(s: State, a: Action): State
    requires Enabled(s, a)
  {
    match a
    case Add(n) => s.(count := s.count + n)
    case Sub(n) => s.(count := s.count - n, owed := if s.count == n then s.owed + 1 else s.owed)
    case Notify => s.(owed := s.owed - 1, sent := s.sent + 1, waiters := WokenAll(s.waiters))
    case Call => s.(waiters := s.waiters + [Waiter(Entering, 0, s.sent)])
    case Register(w) =>
      s.(waiters := s.waiters[w := s.waiters[w].(pc := Registered(false), loops := s.waiters[w].loops + 1)])
    case Check(w) => SetPc(s, w, if s.count == 0 then Returned else Parked(s.waiters[w].pc.notified))
    case Wake(w) => SetPc(s, w, Entering)
    case Abandon(w) => SetPc(s, w, Abandoned)
  }

  predicate IsRun(s: State, acts: seq<Action>)
    decreases |acts|
  {
    acts == [] || (Enabled(s, acts[0]) && IsRun(Apply(s, acts[0]), acts[1..]))
  }

  function Run(s: State, acts: seq<Action>): State
    requires IsRun(s, acts)
    decreases |acts|
  {
    if acts == [] then s else Run(Apply(s, acts[0]), acts[1..])
  }

  // ---------------------------------------------------------------- no lost wake-up

  /** A waiter parked without a wake-up has one coming: the count is still positive, or a retirer
      that reached zero has yet to send it. */
  ghost predicate NoLostWakeUp(s: State) {
    forall w :: 0 <= w < |s.waiters| && s.waiters[w].pc == Parked(false) ==> s.count > 0 || s.owed > 0
  }

  /** Each time round the loop after the first has used up a wake-up sent during the call. */
  predicate LoopsPaid(x: Waiter, sent: nat) {
    && x.since <= sent
    && x.loops <= sent - x.since + (if Unspent(x.pc) then 0 else 1)
  }

  predicate Unspent(pc: Pc) { pc == Entering || pc == Registered(true) || pc == Parked(true) }

  ghost predicate Invariant(s: State) {
    && NoLostWakeUp(s)
    && forall w :: 0 <= w < |s.waiters| ==> LoopsPaid(s.waiters[w], s.sent)
  }

  lemma InvariantKept(s: State, a: Action)
    requires Invariant(s) && Enabled(s, a)
    ensures Invariant(Apply(s, a))
  {
  }

  lemma {:induction false} RunKeepsInvariant(s: State, acts: seq<Action>)
    requires Invariant(s) && IsRun(s, acts)
    ensures Invariant(Run(s, acts))
    decreases |acts|
  {
    if acts != [] {
      InvariantKept(s, acts[0]);
      RunKeepsInvariant(Apply(s, acts[0]), acts[1..]);
    }
  }

  /** No lost wake-up, and no busy loop: in every interleaving a parked waiter has a wake-up coming,
      and a call has gone round at most once more than the wake-ups sent since it began. */
  lemma NoLostWakeUpEver(acts: seq<Action>, w: nat)
    requires IsRun(INIT, acts) && w < |Run(INIT, acts).waiters|
    ensures var s := Run(INIT, acts);
            && (s.waiters[w].pc == Parked(false) ==> s.count > 0 || s.owed > 0)
            && s.waiters[w].since <= s.sent
            && s.waiters[w].loops <= 1 + s.sent - s.waiters[w].since
  {
    RunKeepsInvariant(INIT, acts);
  }

  /** A call that has returned saw the count at zero itself, at its own check. */
  lemma {:induction false} ReturnedSawZero(s: State, acts: seq<Action>, w: nat) returns (k: nat)
    requires IsRun(s, acts) && At(Run(s, acts), w, Returned) && !At(s, w, Returned)
    ensures k < |acts| && acts[k] == Check(w)
    ensures IsRun(s, acts[..k]) && Run(s, acts[..k]).count == 0
    decreases |acts|
  {
    var s' := Apply(s, acts[0]);
    if acts[0] == Check(w) && s.count == 0 {
      k := 0;
      assert acts[..0] == [];
    } else {
      var j := ReturnedSawZero(s', acts[1..], w);
      k := j + 1;
      assert acts[..k] == [acts[0]] + acts[1..][..j];
      assert acts[..k][1..] == acts[1..][..j];
    }
  }

  // ---------------------------------------------------------------- the count is the balance

  function Added(acts: seq<Action>): nat {
    if acts == [] then 0 else (if acts[0].Add? then acts[0].n else 0) + Added(acts[1..])
  }

  function Retired(acts: seq<Action>): nat {
    if acts == [] then 0 else (if acts[0].Sub? then acts[0].n else 0) + Retired(acts[1..])
  }

  /** Conservation: in every run the count is what was added less what was retired. */
  lemma {:induction false} CountIsBalance(s: State, acts: seq<Action>)
    requires IsRun(s, acts)
    ensures Run(s, acts).count == s.count + Added(acts) - Retired(acts)
    decreases |acts|
  {
    if acts != [] {
      CountIsBalance(Apply(s, acts[0]), acts[1..]);
    }
  }

  // ---------------------------------------------------------------- every waiter returns

  /** What still happens once registrations and calls stop: retirements, wake-ups and waiting. */
  predicate Draining(a: Action) {
    (a.Sub? && a.n > 0) || a.Notify? || a.Register? || a.Check? || a.Wake?
  }

  /** And waiters may be dropped meanwhile. */
  predicate Winding(a: Action) { Draining(a) || a.Abandon? }

  function Steps(pc: Pc): nat {
    match pc
    case Entering => 3
    case Registered(notified) => if notified then 5 else 2
    case Parked(notified) => if notified then 4 else 1
    case Returned => 0
    case Abandoned => 0
  }

  function StepsAll(ws: seq<Waiter>): nat {
    if ws == [] then 0 else Steps(ws[0].pc) + StepsAll(ws[1..])
  }

  /** Every wake-up still to come costs each waiter at most five steps, plus its own. */
  function Potential(s: State): nat {
    (2 * s.count + s.owed) * (5 * |s.waiters| + 1) + StepsAll(s.waiters)
  }

  lemma {:induction false} StepsUpdate(ws: seq<Waiter>, w: nat, x: Waiter)
    requires w < |ws|
    ensures StepsAll(ws[w := x]) == StepsAll(ws) - Steps(ws[w].pc) + Steps(x.pc)
  {
    if w == 0 {
      assert ws[w := x][1..] == ws[1..];
    } else {
      StepsUpdate(ws[1..], w - 1, x);
      assert ws[w := x][1..] == ws[1..][w - 1 := x];
    }
  }

  lemma {:induction false} StepsBounded(ws: seq<Waiter>)
    ensures StepsAll(ws) <= 5 * |ws|
  {
    if ws != [] {
      StepsBounded(ws[1..]);
    }
  }

  lemma MulFewer(a: nat, b: nat, c: nat)
    requires a < b
    ensures a * c + c <= b * c
  {
    var d: nat := b - a - 1;
    assert b == a + 1 + d;
    assert (a + 1 + d) * c == a * c + c + d * c;
  }

  lemma PotentialFalls(s: State, a: Action)
    requires Enabled(s, a) && Winding(a)
    ensures Potential(Apply(s, a)) < Potential(s) && |Apply(s, a).waiters| == |s.waiters|
  {
    var s' := Apply(s, a);
    if a.Sub? || a.Notify? {
      MulFewer(2 * s'.count + s'.owed, 2 * s.count + s.owed, 5 * |s.waiters| + 1);
      StepsBounded(s'.waiters);
    } else {
      StepsUpdate(s.waiters, a.w, s'.waiters[a.w]);
    }
  }

  lemma {:induction false} DrainBounded(s: State, acts: seq<Action>)
    requires IsRun(s, acts) && (forall a :: a in acts ==> Winding(a))
    ensures |acts| + Potential(Run(s, acts)) <= Potential(s)
    decreases |acts|
  {
    if acts != [] {
      PotentialFalls(s, acts[0]);
      DrainBounded(Apply(s, acts[0]), acts[1..]);
    }
  }

  /** Waiter termination. Once registrations stop, everything that happens is bounded, drops of
      waiters included, and when nothing more can happen but a drop, the count is zero and every
      waiter that was not dropped has returned. */
  lemma EveryWaiterReturns(s: State, acts: seq<Action>)
    requires Invariant(s) && IsRun(s, acts) && (forall a :: a in acts ==> Winding(a))
    ensures |acts| <= Potential(s)
    ensures (forall a :: Draining(a) ==> !Enabled(Run(s, acts), a))
            ==> Run(s, acts).count == 0
                && forall w :: 0 <= w < |Run(s, acts).waiters|
                               ==> Run(s, acts).waiters[w].pc == Returned || Run(s, acts).waiters[w].pc == Abandoned
  {
    DrainBounded(s, acts);
    RunKeepsInvariant(s, acts);
    var end := Run(s, acts);
    if forall a :: Draining(a) ==> !Enabled(end, a) {
      assert Draining(Sub(1)) && Draining(Notify);
      forall w: nat | w < |end.waiters| ensures end.waiters[w].pc == Returned || end.waiters[w].pc == Abandoned {
        assert Draining(Register(w)) && Draining(Check(w)) && Draining(Wake(w));
      }
    }
  }

  // ---------------------------------------------------------------- the counter itself

  lemma {:induction false} RunAppend(s: State, acts: seq<Action>, a: Action)
    requires IsRun(s, acts) && Enabled(Run(s, acts), a)
    ensures IsRun(s, acts + [a]) && Run(s, acts + [a]) == Apply(Run(s, acts), a)
    decreases |acts|
  {
    if acts == [] {
      assert [] + [a] == [a];
      assert IsRun(Apply(s, a), []);
    } else {
      RunAppend(Apply(s, acts[0]), acts[1..], a);
      assert (acts + [a])[1..] == acts[1..] + [a];
    }
  }

  /** The others may take this step now: nobody else drives waiter `me`, and `mine` of the wake-ups
      owed are not theirs to send. */
  predicate CanTake(s: State, a: Action, me: int, mine: nat) {
    Enabled(s, a) && !Drives(a, me) && (a.Notify? ==> s.owed > mine)
  }

  /** The steps the others take when they try these in turn. */
  function Taken(s: State, acts: seq<Action>, me: int, mine: nat): seq<Action>
    decreases |acts|
  {
    if acts == [] then []
    else if CanTake(s, acts[0], me, mine) then [acts[0]] + Taken(Apply(s, acts[0]), acts[1..], me, mine)
    else Taken(s, acts[1..], me, mine)
  }

  predicate NobodyUnwoken(ws: seq<Waiter>) {
    forall w :: 0 <= w < |ws| ==> ws[w].pc != Parked(false) && ws[w].pc != Registered(false)
  }

  lemma NotifyWakesAll(s: State)
    requires Enabled(s, Notify)
    ensures NobodyUnwoken(Apply(s, Notify).waiters)
  {
  }

  /** The shared counter. A method that takes several atomic steps lets the other tasks in between
      them, as `others` says; `trace` is the interleaving that resulted. */
  class Pending {
    var count: nat
    var waiters: seq<Waiter>
    var owed: nat
    var sent: nat
    ghost var trace: seq<Action>
    /** What the other tasks were let in to do so far. */
    ghost var offered: seq<seq<Action>>

    ghost function View(): State
      reads this
    {
      State(count, owed, sent, waiters)
    }

    ghost predicate Valid()
      reads this
    {
      IsRun(INIT, trace) && Run(INIT, trace) == View()
    }

    constructor ()
      ensures Valid() && View() == INIT && trace == [] && offered == []
    {
      count, waiters, owed, sent, trace, offered := 0, [], 0, 0, [], [];
    }

    method Record(a: Action)
      requires Valid() && Enabled(View(), a)
      modifies this`count, this`owed, this`sent, this`waiters, this`trace
      ensures Valid() && View() == Apply(old(View()), a) && trace == old(trace) + [a]
    {
      RunAppend(INIT, trace, a);
      trace := trace + [a];
      var s := Apply(State(count, owed, sent, waiters), a);
      count, owed, sent, waiters := s.count, s.owed, s.sent, s.waiters;
    }

    /** The other tasks take whichever of these steps they can. Nobody else drives waiter `me`, and
        `mine` of the wake-ups owed are not theirs to send. */
    method Others(acts: seq<Action>, me: int, mine: nat) returns (ghost taken: seq<Action>)
      requires Valid() && mine <= owed
      modifies this
      ensures Valid() && mine <= owed && trace == old(trace) + taken
      ensures taken == Taken(old(View()), acts, me, mine) && offered == old(offered) + [acts]
      ensures |waiters| >= |old(waiters)|
      ensures 0 <= me < |old(waiters)| ==> SamePlace(old(waiters[me]), waiters[me])
    {
      taken := [];
      for i := 0 to |acts|
        invariant Valid() && mine <= owed && trace == old(trace) + taken && offered == old(offered)
        invariant taken + Taken(View(), acts[i..], me, mine) == Taken(old(View()), acts, me, mine)
        invariant |waiters| >= |old(waiters)|
        invariant 0 <= me < |old(waiters)| ==> SamePlace(old(waiters[me]), waiters[me])
      {
        var a := acts[i];
        assert acts[i..][1..] == acts[i + 1..];
        if CanTake(State(count, owed, sent, waiters), a, me, mine) {
          Record(a);
          taken := taken + [a];
        }
      }
      offered := offered + [acts];
    }

    method FetchAdd(n: nat) returns (prev: nat)
      requires Valid()
      modifies this
      ensures Valid() && prev == old(count) && View() == Apply(old(View()), Add(n))
      ensures count == old(count) + n && waiters == old(waiters) && owed == old(owed)
    {
      prev := count;
      Record(Add(n));
    }

    /** Retire `n` jobs: decrement, let others in, and wake the waiters if it reached zero. The call
        itself wakes exactly then, and every registered waiter is woken. */
    method FetchSub(n: nat, others: seq<Action>) returns (prev: nat, ghost theirs: seq<Action>)
      requires Valid() && n <= count
      modifies this
      ensures Valid() && prev == old(count)
      ensures theirs == Taken(Apply(old(View()), Sub(n)), others, -1, if prev == n then 1 else 0)
      ensures trace == old(trace) + [Sub(n)] + theirs + (if prev == n then [Notify] else [])
      ensures prev == n ==> NobodyUnwoken(waiters)
    {
      prev := count;
      Record(Sub(n));
      theirs := Others(others, -1, if prev == n then 1 else 0);
      if prev == n {
        NotifyWakesAll(View());
        Record(Notify);
      }
    }

    /** `wait_drained`: register, check, await, until the count is seen at zero; `seen` is when. It
        gives up only when the other tasks have nothing left to do and no wake-up has come. */
    method WaitDrained(others: seq<seq<Action>>) returns (w: nat, done: bool, ghost seen: nat)
      requires Valid()
      modifies this
      ensures Valid() && old(trace) <= trace && w == |old(waiters)| < |waiters|
      ensures done ==> waiters[w].pc == Returned
      ensures done ==> |old(trace)| < seen < |trace| && trace[seen] == Check(w)
      ensures done ==> IsRun(INIT, trace[..seen]) && Run(INIT, trace[..seen]).count == 0
      ensures !done ==> waiters[w].pc == Parked(false) && (count > 0 || owed > 0) && offered == old(offered) + others
      ensures others == [] ==> (done <==> old(count) == 0)
      ensures waiters[w].since == old(sent) <= sent && waiters[w].loops <= 1 + sent - old(sent)
    {
      w, seen := |waiters|, 0;
      Record(Call);
      var i := 0;
      while true
        invariant 0 <= i <= |others| && Valid() && old(trace) < trace && offered == old(offered) + others[..i]
        invariant others == [] ==> count == old(count)
        invariant Waits(w, old(sent)) && waiters[w].pc == Entering
        decreases |others| - i
      {
        ghost var from := i;
        i, done, seen := Attempt(w, others, i);
        assert others[..from] + others[from..i] == others[..i];
        from := i;
        if done {
          return;
        }
        var woken;
        woken, i := AwaitWake(w, others, i);
        assert others[..from] + others[from..i] == others[..i];
        if !woken {
          return;
        }
      }
    }

    /** Register with the notifier, then let the others in before the count is read. */
    method RegisterAndPause(w: nat, others: seq<seq<Action>>, i: nat) returns (j: nat)
      requires Valid() && w < |waiters| && waiters[w].pc == Entering && i <= |others|
      modifies this
      ensures Valid() && old(trace) < trace && i <= j <= |others| && (j == i <==> i == |others|)
      ensures offered == old(offered) + others[i..j] && |waiters| >= |old(waiters)|
      ensures waiters[w].pc.Registered? && waiters[w].since == old(waiters[w].since)
      ensures j == i ==> waiters[w].pc == Registered(false) && count == old(count)
    {
      Record(Register(w));
      j := i;
      if i < |others| {
        var _ := Others(others[i], w, 0);
        j := i + 1;
      }
    }

    /** One turn up to the check. */
    method Attempt(w: nat, others: seq<seq<Action>>, i: nat) returns (j: nat, done: bool, ghost seen: nat)
      requires Valid() && w < |waiters| && waiters[w].pc == Entering && i <= |others|
      modifies this
      ensures Valid() && old(trace) < trace && i <= j <= |others| && (j == i <==> i == |others|)
      ensures offered == old(offered) + others[i..j]
      ensures Waits(w, old(waiters[w].since)) && waiters[w].since <= sent
      ensures waiters[w].loops <= 1 + sent - waiters[w].since
      ensures if done then waiters[w].pc == Returned else waiters[w].pc.Parked?
      ensures done ==> |old(trace)| < seen < |trace| && trace[seen] == Check(w)
      ensures done ==> IsRun(INIT, trace[..seen]) && Run(INIT, trace[..seen]).count == 0
      ensures j == i ==> (done <==> old(count) == 0) && (!done ==> waiters[w].pc == Parked(false))
    {
      j := RegisterAndPause(w, others, i);
      done, seen := CheckCount(w);
    }

    ghost predicate Waits(w: nat, since: nat)
      reads this
    {
      w < |waiters| && waiters[w].since == since
    }

    /** The registered waiter reads the count: at zero it is done, else it goes to park. */
    method CheckCount(w: nat) returns (done: bool, ghost seen: nat)
      requires Valid() && w < |waiters| && waiters[w].pc.Registered?
      modifies this
      ensures Valid() && trace == old(trace) + [Check(w)] && seen == |old(trace)| && offered == old(offered)
      ensures done <==> old(count) == 0
      ensures w < |waiters| && waiters[w].since == old(waiters[w].since) <= sent
      ensures waiters[w].loops <= 1 + sent - waiters[w].since
      ensures waiters[w].pc == if done then Returned else Parked(old(waiters[w].pc.notified))
      ensures done ==> IsRun(INIT, trace[..seen]) && Run(INIT, trace[..seen]).count == 0
    {
      done, seen := count == 0, |trace|;
      ghost var before := trace;
      Record(Check(w));
      assert trace[..seen] == before;
      RunKeepsInvariant(INIT, trace);
    }

    /** `notified.await`: the other tasks run until a wake-up reaches the waiter. */
    method AwaitWake(w: nat, others: seq<seq<Action>>, from: nat) returns (woken: bool, i: nat)
      requires Valid() && w < |waiters| && waiters[w].pc.Parked? && from <= |others|
      modifies this
      ensures from <= i <= |others| && Valid() && old(trace) <= trace && offered == old(offered) + others[from..i]
      ensures Waits(w, old(waiters[w].since)) && waiters[w].since <= sent
      ensures waiters[w].loops <= 1 + sent - waiters[w].since
      ensures woken ==> waiters[w].pc == Entering
      ensures !woken ==> waiters[w].pc == Parked(false) && (count > 0 || owed > 0) && i == |others|
      ensures !old(waiters[w].pc.notified) ==> !woken || i > from
    {
      i := from;
      while waiters[w].pc == Parked(false)
        invariant from <= i <= |others| && Valid() && old(trace) <= trace && offered == old(offered) + others[from..i]
        invariant Waits(w, old(waiters[w].since)) && waiters[w].pc.Parked?
        invariant i == from ==> waiters[w] == old(waiters[w])
        decreases |others| - i
      {
        if i == |others| {
          woken := false;
          RunKeepsInvariant(INIT, trace);
          return;
        }
        var _ := Others(others[i], w, 0);
        i := i + 1;
      }
      Record(Wake(w));
      RunKeepsInvariant(INIT, trace);
      woken := true;
    }
  }

  predicate Drives(a: Action, me: int) {
    (a.Register? || a.Check? || a.Wake? || a.Abandon?) && a.w == me
  }

  /** Only the notified flag of a waiter changes behind its back. */
  predicate SamePlace(x: Waiter, y: Waiter) {
    y == x || y == Woken(x)
  }
}
