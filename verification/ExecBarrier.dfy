/** The exec barrier of `crates/core/src/fsutil.rs`: `close_ensure_ro_fd` as a protocol between
    one caller and any number of racing processes, over a model of descriptors, open file
    descriptions and `flock`. */
module ExecBarrier {
  import opened Common

  type Pid = int
  type Fd = int
  /** Identity of an open file description; forked and duplicated descriptors share it. */
  type Ofd = int
  type Inode = int

  datatype Lock = Unlocked | Shared | Exclusive

  datatype Description = Description(inode: Inode, writable: bool, lock: Lock)

  datatype Descriptor = Descriptor(ofd: Ofd, cloexec: bool)

  type Table = map<Fd, Descriptor>

  datatype File = File(bytes: seq<bv8>, executable: bool)

  datatype Kernel = Kernel(
    procs: map<Pid, Table>,
    descs: map<Ofd, Description>,
    next: Ofd,
    names: map<string, Inode>,
    files: map<Inode, File>)

  predicate Has(t: Table, d: Ofd) {
    exists fd :: fd in t && t[fd].ofd == d
  }

  /** The processes with a descriptor on description `d`. */
  function Holders(k: Kernel, d: Ofd): set<Pid> {
    set p | p in k.procs && Has(k.procs[p], d)
  }

  /** A description, and the lock on it, lives as long as some descriptor refers to it. */
  predicate Live(k: Kernel, d: Ofd) {
    exists p :: p in k.procs && Has(k.procs[p], d)
  }

  /** An `execve` of the file fails with `ETXTBSY`. */
  predicate TextBusy(k: Kernel, i: Inode) {
    exists d :: d in k.descs && k.descs[d].writable && k.descs[d].inode == i && Live(k, d)
  }

  ghost predicate WellFormed(k: Kernel) {
    && (forall d :: d in k.descs ==> d < k.next)
    && (forall p, fd :: p in k.procs && fd in k.procs[p] ==> k.procs[p][fd].ofd in k.descs)
    && (forall d :: d in k.descs ==> k.descs[d].inode in k.files)
    && (forall n :: n in k.names ==> k.names[n] in k.files)
  }

  datatype Action =
    | Fork(pid: Pid, child: Pid)
    | Exec(pid: Pid)
    | Exit(pid: Pid)
    | Close(pid: Pid, fd: Fd)
    | Dup(pid: Pid, fd: Fd, copy: Fd)
    | Open(pid: Pid, fd: Fd, path: string, writable: bool)
    | Create(pid: Pid, fd: Fd, path: string, inode: Inode)
    | Write(pid: Pid, fd: Fd, bytes: seq<bv8>)
    | Chmod(pid: Pid, fd: Fd, executable: bool)
    | Flock(pid: Pid, fd: Fd, mode: Lock)
    | Rename(path: string, inode: Inode)
    | Unlink(path: string)

  predicate Conflict(held: Lock, wanted: Lock) {
    (wanted == Exclusive && held != Unlocked) || (wanted == Shared && held == Exclusive)
  }

  /** `flock` on `d` would not block: no other live description of the inode conflicts. */
  predicate Grantable(k: Kernel, d: Ofd, mode: Lock)
    requires d in k.descs
  {
    forall e :: e in k.descs && e != d && k.descs[e].inode == k.descs[d].inode && Live(k, e)
                ==> !Conflict(k.descs[e].lock, mode)
  }

  predicate Valid(k: Kernel, p: Pid, fd: Fd) {
    p in k.procs && fd in k.procs[p] && k.procs[p][fd].ofd in k.descs
  }

  predicate Enabled(k: Kernel, a: Action) {
    match a
    case Fork(p, c) => p in k.procs && c !in k.procs
    case Exec(p) => p in k.procs
    case Exit(p) => p in k.procs
    case Close(p, fd) => Valid(k, p, fd)
    case Dup(p, fd, copy) => Valid(k, p, fd) && copy !in k.procs[p]
    case Open(p, fd, path, _) => p in k.procs && fd !in k.procs[p] && path in k.names && k.names[path] in k.files
    case Create(p, fd, path, i) =>
      && p in k.procs && fd !in k.procs[p]
      && (if path in k.names then i == k.names[path] && i in k.files else i !in k.files)
    case Write(p, fd, _) => Valid(k, p, fd) && k.descs[k.procs[p][fd].ofd].writable && k.descs[k.procs[p][fd].ofd].inode in k.files
    case Chmod(p, fd, _) => Valid(k, p, fd) && k.descs[k.procs[p][fd].ofd].inode in k.files
    case Flock(p, fd, mode) => Valid(k, p, fd) && Grantable(k, k.procs[p][fd].ofd, mode)
    case Rename(_, i) => i in k.files
    case Unlink(_) => true
  }

  /** What `execve` leaves of a descriptor table. */
  function Surviving(t: Table): Table {
    map fd | fd in t && !t[fd].cloexec :: t[fd]
  }

  function OpenAs(k: Kernel, p: Pid, fd: Fd, i: Inode, writable: bool): Kernel
    requires p in k.procs
  {
    k.(procs := k.procs[p := k.procs[p][fd := Descriptor(k.next, true)]],
       descs := k.descs[k.next := Description(i, writable, Unlocked)],
       next := k.next + 1)
  }

  function Apply(k: Kernel, a: Action): Kernel
    requires Enabled(k, a)
  {
    match a
    case Fork(p, c) => k.(procs := k.procs[c := k.procs[p]])
    case Exec(p) => k.(procs := k.procs[p := Surviving(k.procs[p])])
    case Exit(p) => k.(procs := k.procs - {p})
    case Close(p, fd) => k.(procs := k.procs[p := k.procs[p] - {fd}])
    case Dup(p, fd, copy) => k.(procs := k.procs[p := k.procs[p][copy := Descriptor(k.procs[p][fd].ofd, false)]])
    case Open(p, fd, path, w) => OpenAs(k, p, fd, k.names[path], w)
    case Create(p, fd, path, i) =>
      var executable := i in k.files && k.files[i].executable;
      OpenAs(k, p, fd, i, true).(names := k.names[path := i], files := k.files[i := File([], executable)])
    case Write(p, fd, bytes) =>
      var i := k.descs[k.procs[p][fd].ofd].inode;
      k.(files := k.files[i := k.files[i].(bytes := bytes)])
    case Chmod(p, fd, x) =>
      var i := k.descs[k.procs[p][fd].ofd].inode;
      k.(files := k.files[i := k.files[i].(executable := x)])
    case Flock(p, fd, mode) =>
      var d := k.procs[p][fd].ofd;
      k.(descs := k.descs[d := k.descs[d].(lock := mode)])
    case Rename(path, i) => k.(names := k.names[path := i])
    case Unlink(path) => k.(names := k.names - {path})
  }

  // ---------------------------------------------------------------- the barrier as a program

  /** One call: the caller, its writable descriptor, the path, what the descriptor denotes, and
      whether the caller keeps to the rule that nobody else writes the file. */
  datatype Job = Job(me: Pid, file: Fd, path: string, orig: Ofd, inode: Inode, lone: bool)

  /** Where the caller is. From the reopen on, `inode` is the file the path named then. */
  datatype Pc =
    | Start
    | Locked
    | Closed
    | Reopened(ro: Fd, inode: Inode)
    | Acquired(ro: Fd, inode: Inode)
    | Done(inode: Inode)
    | Failed

  datatype System = System(k: Kernel, pc: Pc)

  /** A step of the call itself (`fd` is the number the reopen would get) or of anyone else. */
  datatype Event = Own(fd: Fd) | Env(action: Action)

  predicate Over(pc: Pc) { pc.Done? || pc.Failed? }

  /** The descriptors the call owns; nothing else in the caller can name them. */
  function Owned(pc: Pc, job: Job): set<Fd> {
    match pc
    case Start | Locked => {job.file}
    case Reopened(ro, _) => {ro}
    case Acquired(ro, _) => {ro}
    case _ => {}
  }

  predicate Names(k: Kernel, p: Pid, fd: Fd, d: Ofd) {
    p in k.procs && fd in k.procs[p] && k.procs[p][fd].ofd == d
  }

  predicate OnInode(k: Kernel, p: Pid, fd: Fd, i: Inode) {
    Valid(k, p, fd) && k.descs[k.procs[p][fd].ofd].inode == i
  }

  /** The documented limits on everyone else: the call's own descriptors are left alone, nobody
      re-locks the original description and, if the job is lone, nobody opens or changes the file on
      their own. Forks, execs, exits, duplicates, closes, renames, unlinks and locks elsewhere are
      unrestricted. */
  predicate Allowed(s: System, job: Job, a: Action) {
    match a
    case Exec(p) => p == job.me ==> Over(s.pc)
    case Exit(p) => p == job.me ==> Over(s.pc)
    case Close(p, fd) => !(p == job.me && fd in Owned(s.pc, job))
    case Flock(p, fd, _) => !(p == job.me && fd in Owned(s.pc, job)) && !Names(s.k, p, fd, job.orig)
    case Open(_, _, path, w) => job.lone && w ==> path in s.k.names && s.k.names[path] != job.inode
    case Create(_, _, _, i) => job.lone ==> i != job.inode
    case Write(p, fd, _) => job.lone ==> !OnInode(s.k, p, fd, job.inode)
    case Chmod(p, fd, _) => job.lone ==> !OnInode(s.k, p, fd, job.inode)
    case _ => true
  }

  /** The call's next system call; `None` when the reopen finds no file. */
  function OwnAction(s: System, job: Job, fd: Fd): Option<Action>
    requires !Over(s.pc)
  {
    match s.pc
    case Start => Some(Flock(job.me, job.file, Exclusive))
    case Locked => Some(Close(job.me, job.file))
    case Closed => if job.path in s.k.names then Some(Open(job.me, fd, job.path, false)) else None
    case Reopened(ro, _) => Some(Flock(job.me, ro, Shared))
    case Acquired(ro, _) => Some(Close(job.me, ro))
  }

  function After(s: System, job: Job, fd: Fd): Pc
    requires !Over(s.pc)
  {
    match s.pc
    case Start => Locked
    case Locked => Closed
    case Closed => if job.path in s.k.names then Reopened(fd, s.k.names[job.path]) else Failed
    case Reopened(ro, i) => Acquired(ro, i)
    case Acquired(_, i) => Done(i)
  }

  predicate CanStep(s: System, job: Job, e: Event) {
    match e
    case Env(a) => Enabled(s.k, a) && Allowed(s, job, a)
    case Own(fd) =>
      && !Over(s.pc)
      && var a := OwnAction(s, job, fd);
         a.Some? ==> Enabled(s.k, a.value)
  }

  function Step(s: System, job: Job, e: Event): System
    requires CanStep(s, job, e)
  {
    match e
    case Env(a) => s.(k := Apply(s.k, a))
    case Own(fd) =>
      var a := OwnAction(s, job, fd);
      System(if a.Some? then Apply(s.k, a.value) else s.k, After(s, job, fd))
  }

  /** Every event of the sequence can happen when its turn comes. */
  predicate IsRun(s: System, job: Job, es: seq<Event>)
    decreases |es|
  {
    es == [] || (CanStep(s, job, es[0]) && IsRun(Step(s, job, es[0]), job, es[1..]))
  }

  function Run(s: System, job: Job, es: seq<Event>): System
    requires IsRun(s, job, es)
    decreases |es|
  {
    if es == [] then s else Run(Step(s, job, es[0]), job, es[1..])
  }

  /** A live writable description of the file that did not come from the caller's. */
  predicate OtherWriter(k: Kernel, job: Job, d: Ofd) {
    d in k.descs && k.descs[d].writable && k.descs[d].inode == job.inode && Live(k, d) && d != job.orig
  }

  ghost predicate SoleWriter(k: Kernel, job: Job) {
    job.lone ==> forall d :: !OtherWriter(k, job, d)
  }

  /** A call about to start. Any number of processes may hold inherited copies already. */
  ghost predicate Initial(s: System, job: Job) {
    && WellFormed(s.k)
    && s.pc == Start
    && Names(s.k, job.me, job.file, job.orig)
    && s.k.descs[job.orig].inode == job.inode
    && SoleWriter(s.k, job)
  }

  ghost predicate Invariant(s: System, job: Job) {
    && WellFormed(s.k)
    && job.orig in s.k.descs
    && s.k.descs[job.orig].inode == job.inode
    && SoleWriter(s.k, job)
    && match s.pc
       case Start => Names(s.k, job.me, job.file, job.orig)
       case Locked => Names(s.k, job.me, job.file, job.orig) && s.k.descs[job.orig].lock == Exclusive
       case Closed => job.me in s.k.procs && s.k.descs[job.orig].lock == Exclusive
       case Reopened(ro, i) =>
         && s.k.descs[job.orig].lock == Exclusive
         && OnInode(s.k, job.me, ro, i)
         && !Names(s.k, job.me, ro, job.orig)
       case Acquired(ro, i) => Valid(s.k, job.me, ro) && (i == job.inode ==> !Live(s.k, job.orig))
       case Done(i) => i == job.inode ==> !Live(s.k, job.orig)
       case Failed => true
  }

  // ---------------------------------------------------------------- safety

  /** No system call brings a dead description back: copies are only made of live ones. */
  lemma NothingRevives(k: Kernel, a: Action, d: Ofd)
    requires WellFormed(k) && Enabled(k, a) && d in k.descs && Live(Apply(k, a), d)
    ensures Live(k, d)
  {
    var k' := Apply(k, a);
    var p, fd :| p in k'.procs && fd in k'.procs[p] && k'.procs[p][fd].ofd == d;
    match a {
      case Fork(q, c) =>
        var src := if p == c then q else p;
        assert k.procs[src][fd].ofd == d && Has(k.procs[src], d);
      case Dup(q, from, copy) =>
        var src := if p == q && fd == copy then from else fd;
        assert k.procs[p][src].ofd == d && Has(k.procs[p], d);
      case _ =>
        assert k.procs[p][fd].ofd == d && Has(k.procs[p], d);
    }
  }

  lemma ApplyWellFormed(k: Kernel, a: Action)
    requires WellFormed(k) && Enabled(k, a)
    ensures WellFormed(Apply(k, a))
    ensures forall d :: d in k.descs ==> d in Apply(k, a).descs && Apply(k, a).descs[d].inode == k.descs[d].inode
                                         && Apply(k, a).descs[d].writable == k.descs[d].writable
  {
    TablesStayValid(k, a);
  }

  lemma TablesStayValid(k: Kernel, a: Action)
    requires WellFormed(k) && Enabled(k, a)
    ensures var k' := Apply(k, a);
            forall p, fd :: p in k'.procs && fd in k'.procs[p] ==> k'.procs[p][fd].ofd in k'.descs
  {
  }

  /** Opening anything but this file for writing keeps the original description its sole writer. */
  lemma SoleWriterKept(s: System, job: Job, a: Action)
    requires Invariant(s, job) && Enabled(s.k, a)
    requires Allowed(s, job, a) || !(a.Open? || a.Create?) || (a.Open? && !a.writable)
    ensures SoleWriter(Apply(s.k, a), job)
  {
    var k' := Apply(s.k, a);
    forall d | job.lone ensures !OtherWriter(k', job, d) {
      if OtherWriter(k', job, d) && d in s.k.descs {
        NothingRevives(s.k, a, d);
        assert OtherWriter(s.k, job, d);
      }
    }
  }

  /** Within the limits nobody else moves a descriptor the call owns. */
  lemma OwnedStays(s: System, job: Job, a: Action, fd: Fd)
    requires Enabled(s.k, a) && Allowed(s, job, a) && !Over(s.pc) && fd in Owned(s.pc, job)
    requires job.me in s.k.procs && fd in s.k.procs[job.me]
    ensures var k' := Apply(s.k, a);
            job.me in k'.procs && fd in k'.procs[job.me] && k'.procs[job.me][fd] == s.k.procs[job.me][fd]
  {
  }

  lemma OrigLockStays(s: System, job: Job, a: Action)
    requires WellFormed(s.k) && job.orig in s.k.descs && Enabled(s.k, a) && Allowed(s, job, a)
    ensures job.orig in Apply(s.k, a).descs && Apply(s.k, a).descs[job.orig].lock == s.k.descs[job.orig].lock
  {
  }

  lemma EnvKeepsInvariant(s: System, job: Job, a: Action)
    requires Invariant(s, job) && CanStep(s, job, Env(a))
    ensures Invariant(Step(s, job, Env(a)), job)
  {
    ApplyWellFormed(s.k, a);
    SoleWriterKept(s, job, a);
    OrigLockStays(s, job, a);
    if s.pc.Start? || s.pc.Locked? {
      OwnedStays(s, job, a, job.file);
    } else if s.pc.Reopened? || s.pc.Acquired? {
      OwnedStays(s, job, a, s.pc.ro);
    }
    if Live(Apply(s.k, a), job.orig) {
      NothingRevives(s.k, a, job.orig);
    }
  }

  lemma OwnKeepsInvariant(s: System, job: Job, fd: Fd)
    requires Invariant(s, job) && CanStep(s, job, Own(fd))
    ensures Invariant(Step(s, job, Own(fd)), job)
  {
    var a := OwnAction(s, job, fd);
    if a.Some? {
      ApplyWellFormed(s.k, a.value);
      SoleWriterKept(s, job, a.value);
      if Live(Apply(s.k, a.value), job.orig) {
        NothingRevives(s.k, a.value, job.orig);
      }
    }
  }

  lemma {:induction false} RunKeepsInvariant(s: System, job: Job, es: seq<Event>)
    requires Invariant(s, job) && IsRun(s, job, es)
    ensures Invariant(Run(s, job, es), job)
    decreases |es|
  {
    if es != [] {
      match es[0] {
        case Env(a) => EnvKeepsInvariant(s, job, a);
        case Own(fd) => OwnKeepsInvariant(s, job, fd);
      }
      RunKeepsInvariant(Step(s, job, es[0]), job, es[1..]);
    }
  }

  lemma HeldIffLive(k: Kernel, d: Ofd)
    ensures Holders(k, d) == {} <==> !Live(k, d)
  {
    if Live(k, d) {
      var p :| p in k.procs && Has(k.procs[p], d);
      assert p in Holders(k, d);
    } else {
      assert forall p :: p !in Holders(k, d);
    }
  }

  /** Nobody holds the original description, and an `exec` of the file fails exactly when some
      other writer has it open, which nobody has in a lone job. */
  ghost predicate Drained(k: Kernel, job: Job) {
    && Holders(k, job.orig) == {}
    && (TextBusy(k, job.inode) <==> exists d :: OtherWriter(k, job, d))
    && (job.lone ==> !TextBusy(k, job.inode))
  }

  /** Holding the shared lock on the file itself means the original description is gone. */
  lemma AcquiredMeansDrained(s: System, job: Job)
    requires Invariant(s, job) && (s.pc.Acquired? || s.pc.Done?) && s.pc.inode == job.inode
    ensures Drained(s.k, job)
  {
    HeldIffLive(s.k, job.orig);
    if TextBusy(s.k, job.inode) {
      var d :| d in s.k.descs && s.k.descs[d].writable && s.k.descs[d].inode == job.inode && Live(s.k, d);
      assert OtherWriter(s.k, job, d);
    }
  }

  /** Barrier safety. In every interleaving, once the shared lock is held on the file itself, no
      process holds the original description and no `exec` of the file sees `ETXTBSY` on account of
      anything but an independent writer. The run may go on for as long as it likes after the
      return, so no continuation brings either back. */
  lemma BarrierSafe(s: System, job: Job, es: seq<Event>)
    requires Initial(s, job) && IsRun(s, job, es)
    ensures var end := Run(s, job, es);
            (end.pc.Acquired? || end.pc.Done?) && end.pc.inode == job.inode ==> Drained(end.k, job)
  {
    RunKeepsInvariant(s, job, es);
    var end := Run(s, job, es);
    if (end.pc.Acquired? || end.pc.Done?) && end.pc.inode == job.inode {
      AcquiredMeansDrained(end, job);
    }
  }

  predicate AllEnabled(k: Kernel, acts: seq<Action>)
    decreases |acts|
  {
    acts == [] || (Enabled(k, acts[0]) && AllEnabled(Apply(k, acts[0]), acts[1..]))
  }

  function ApplyAll(k: Kernel, acts: seq<Action>): Kernel
    requires AllEnabled(k, acts)
    decreases |acts|
  {
    if acts == [] then k else ApplyAll(Apply(k, acts[0]), acts[1..])
  }

  /** A drained description stays drained under any system calls at all, limits or not. */
  lemma {:induction false} DrainedForever(k: Kernel, acts: seq<Action>, d: Ofd)
    requires WellFormed(k) && AllEnabled(k, acts) && d in k.descs && !Live(k, d)
    ensures d in ApplyAll(k, acts).descs && !Live(ApplyAll(k, acts), d)
    decreases |acts|
  {
    if acts != [] {
      ApplyWellFormed(k, acts[0]);
      if Live(Apply(k, acts[0]), d) {
        NothingRevives(k, acts[0], d);
      }
      DrainedForever(Apply(k, acts[0]), acts[1..], d);
    }
  }

  // ---------------------------------------------------------------- progress

  /** Every descriptor on `d` is close-on-exec, as `File` opens it. */
  ghost predicate CloexecOnly(k: Kernel, d: Ofd) {
    forall p, fd :: Names(k, p, fd, d) ==> k.procs[p][fd].cloexec
  }

  ghost predicate NoOtherExclusive(k: Kernel, job: Job) {
    forall e :: e in k.descs && e != job.orig && k.descs[e].inode == job.inode && Live(k, e)
                ==> k.descs[e].lock != Exclusive
  }

  /** A racing child between `fork` and `execve` only execs or exits, the caller hands out no
      duplicate, and nobody else locks the file exclusively. */
  predicate Quiet(s: System, job: Job, a: Action) {
    && Allowed(s, job, a)
    && (Actor(a).Some? && Actor(a).value in Holders(s.k, job.orig) - {job.me} ==> a.Exec? || a.Exit?)
    && (a.Dup? ==> !Names(s.k, a.pid, a.fd, job.orig))
    && (a.Flock? && a.mode == Exclusive ==> !OnInode(s.k, a.pid, a.fd, job.inode))
  }

  function Actor(a: Action): Option<Pid> {
    match a
    case Rename(_, _) => None
    case Unlink(_) => None
    case _ => Some(a.pid)
  }

  /** What quiet runs keep beyond the invariant: until the caller closes its descriptor that is
      its only one on the original, and from then on it has none. */
  ghost predicate Polite(s: System, job: Job) {
    && Invariant(s, job)
    && CloexecOnly(s.k, job.orig)
    && NoOtherExclusive(s.k, job)
    && (!Over(s.pc) ==>
          && job.me in s.k.procs
          && forall fd :: Names(s.k, job.me, fd, job.orig) ==> fd == job.file && (s.pc == Start || s.pc == Locked))
  }

  predicate IsQuiet(s: System, job: Job, es: seq<Event>)
    requires IsRun(s, job, es)
    decreases |es|
  {
    es == [] || ((es[0].Env? ==> Quiet(s, job, es[0].action)) && IsQuiet(Step(s, job, es[0]), job, es[1..]))
  }

  lemma NoOtherExclusiveKept(s: System, job: Job, a: Action)
    requires Polite(s, job) && Enabled(s.k, a)
    requires a.Flock? && a.mode == Exclusive ==> Names(s.k, a.pid, a.fd, job.orig) || !OnInode(s.k, a.pid, a.fd, job.inode)
    ensures NoOtherExclusive(Apply(s.k, a), job)
  {
    var k' := Apply(s.k, a);
    forall e | e in k'.descs && e != job.orig && k'.descs[e].inode == job.inode && Live(k', e)
      ensures k'.descs[e].lock != Exclusive
    {
      if e in s.k.descs {
        NothingRevives(s.k, a, e);
      }
    }
  }

  /** A quiet step copies no descriptor of the original without close-on-exec, and gives the caller
      none it did not have. */
  lemma QuietCopies(s: System, job: Job, a: Action, p: Pid, fd: Fd)
    requires Polite(s, job) && Enabled(s.k, a) && Quiet(s, job, a) && Names(Apply(s.k, a), p, fd, job.orig)
    ensures Apply(s.k, a).procs[p][fd].cloexec
    ensures p == job.me && !Over(s.pc) ==> Names(s.k, p, fd, job.orig)
  {
    if a.Fork? && a.child == p {
      assert Names(s.k, a.pid, fd, job.orig);
    } else {
      assert Names(s.k, p, fd, job.orig);
    }
  }

  lemma QuietEnvKeepsPolite(s: System, job: Job, a: Action)
    requires Polite(s, job) && CanStep(s, job, Env(a)) && Quiet(s, job, a)
    ensures Polite(Step(s, job, Env(a)), job)
  {
    EnvKeepsInvariant(s, job, a);
    NoOtherExclusiveKept(s, job, a);
    var k' := Apply(s.k, a);
    forall p, fd | Names(k', p, fd, job.orig)
      ensures k'.procs[p][fd].cloexec && (p == job.me && !Over(s.pc) ==> Names(s.k, p, fd, job.orig))
    {
      QuietCopies(s, job, a, p, fd);
    }
  }

  lemma OwnKeepsPolite(s: System, job: Job, fd: Fd)
    requires Polite(s, job) && CanStep(s, job, Own(fd))
    ensures Polite(Step(s, job, Own(fd)), job)
  {
    OwnKeepsInvariant(s, job, fd);
    var a := OwnAction(s, job, fd);
    if a.Some? {
      NoOtherExclusiveKept(s, job, a.value);
    }
    var s' := Step(s, job, Own(fd));
    forall p, f | Names(s'.k, p, f, job.orig)
      ensures s'.k.procs[p][f].cloexec && (p == job.me && !Over(s'.pc) ==> f == job.file && s'.pc == Locked)
    {
      assert Names(s.k, p, f, job.orig);
    }
  }

  lemma QuietKeepsPolite(s: System, job: Job, e: Event)
    requires Polite(s, job) && CanStep(s, job, e) && (e.Env? ==> Quiet(s, job, e.action))
    ensures Polite(Step(s, job, e), job)
  {
    match e {
      case Env(a) => QuietEnvKeepsPolite(s, job, a);
      case Own(fd) => OwnKeepsPolite(s, job, fd);
    }
  }

  lemma {:induction false} QuietRunKeepsPolite(s: System, job: Job, es: seq<Event>)
    requires Polite(s, job) && IsRun(s, job, es) && IsQuiet(s, job, es)
    ensures Polite(Run(s, job, es), job)
    decreases |es|
  {
    if es != [] {
      QuietKeepsPolite(s, job, es[0]);
      QuietRunKeepsPolite(Step(s, job, es[0]), job, es[1..]);
    }
  }

  /** The shared acquire waits exactly while some process still holds the original description. */
  lemma BlockedIffHeld(s: System, job: Job, fd: Fd)
    requires Polite(s, job) && s.pc.Reopened? && s.pc.inode == job.inode
    ensures CanStep(s, job, Own(fd)) <==> Holders(s.k, job.orig) == {}
  {
    HeldIffLive(s.k, job.orig);
    var r := s.k.procs[job.me][s.pc.ro].ofd;
    assert Live(s.k, job.orig) ==> !Grantable(s.k, r, Shared);
  }

  /** Someone holding the original description takes this step. */
  predicate HolderMoves(s: System, job: Job, e: Event) {
    e.Env? && Actor(e.action).Some? && Actor(e.action).value in Holders(s.k, job.orig)
  }

  lemma CallerHoldsNone(s: System, job: Job)
    requires Polite(s, job) && s.pc.Reopened?
    ensures job.me !in Holders(s.k, job.orig)
  {
    if Has(s.k.procs[job.me], job.orig) {
      var fd :| fd in s.k.procs[job.me] && s.k.procs[job.me][fd].ofd == job.orig;
      assert Names(s.k, job.me, fd, job.orig);
    }
  }

  /** A process without a descriptor on `d` neither gains nor hands out one. */
  lemma IdleStep(k: Kernel, a: Action, d: Ofd)
    requires WellFormed(k) && Enabled(k, a) && d in k.descs
    requires Actor(a).Some? ==> Actor(a).value !in Holders(k, d)
    ensures Holders(Apply(k, a), d) == Holders(k, d)
  {
    var k' := Apply(k, a);
    forall p | p in k.procs && p in k'.procs && Actor(a) != Some(p) ensures k'.procs[p] == k.procs[p] {
    }
    if a.Fork? {
      assert k'.procs[a.child] == k.procs[a.pid];
    }
    if Actor(a).Some? && Actor(a).value in k'.procs {
      IdleTable(k, a, d);
    }
  }

  lemma IdleTable(k: Kernel, a: Action, d: Ofd)
    requires WellFormed(k) && Enabled(k, a) && d in k.descs && Actor(a).Some? && Actor(a).value in Apply(k, a).procs
    requires Actor(a).value !in Holders(k, d)
    ensures !Has(Apply(k, a).procs[Actor(a).value], d)
  {
    var p := Actor(a).value;
    assert p in k.procs && !Has(k.procs[p], d);
  }

  /** A holder whose descriptors all close on exec is gone once it execs or exits. */
  lemma HolderLeaves(k: Kernel, a: Action, d: Ofd)
    requires Enabled(k, a) && (a.Exec? || a.Exit?) && CloexecOnly(k, d)
    ensures Holders(Apply(k, a), d) == Holders(k, d) - {a.pid}
  {
    var k' := Apply(k, a);
    if a.Exec? {
      forall fd | fd in k'.procs[a.pid] ensures k'.procs[a.pid][fd].ofd != d {
        assert !Names(k, a.pid, fd, d);
      }
    }
    forall p | p in k'.procs && p != a.pid ensures k'.procs[p] == k.procs[p] {
    }
  }

  /** While the caller waits, each step of a holder removes exactly that holder; no other step
      changes who holds. */
  lemma HoldersFall(s: System, job: Job, e: Event)
    requires Polite(s, job) && s.pc.Reopened? && CanStep(s, job, e) && e.Env? && Quiet(s, job, e.action)
    ensures Holders(Step(s, job, e).k, job.orig)
         == Holders(s.k, job.orig) - (if HolderMoves(s, job, e) then {Actor(e.action).value} else {})
  {
    CallerHoldsNone(s, job);
    if HolderMoves(s, job, e) {
      HolderLeaves(s.k, e.action, job.orig);
    } else {
      IdleStep(s.k, e.action, job.orig);
    }
  }

  function HolderMovesIn(s: System, job: Job, es: seq<Event>): nat
    requires IsRun(s, job, es)
    decreases |es|
  {
    if es == [] then 0
    else (if HolderMoves(s, job, es[0]) then 1 else 0) + HolderMovesIn(Step(s, job, es[0]), job, es[1..])
  }

  /** Barrier progress. While the caller waits, the number of holders falls by one with each holder
      step, and the acquire is enabled exactly when every holder has taken its step. */
  lemma {:induction false} BarrierProgress(s: System, job: Job, es: seq<Event>, fd: Fd)
    requires Polite(s, job) && s.pc.Reopened? && s.pc.inode == job.inode
    requires IsRun(s, job, es) && IsQuiet(s, job, es) && (forall e :: e in es ==> e.Env?)
    ensures Run(s, job, es).pc == s.pc
    ensures |Holders(Run(s, job, es).k, job.orig)| == |Holders(s.k, job.orig)| - HolderMovesIn(s, job, es)
    ensures CanStep(Run(s, job, es), job, Own(fd)) <==> HolderMovesIn(s, job, es) == |Holders(s.k, job.orig)|
    decreases |es|
  {
    if es == [] {
      BlockedIffHeld(s, job, fd);
    } else {
      assert es[0] in es;
      QuietKeepsPolite(s, job, es[0]);
      HoldersFall(s, job, es[0]);
      BarrierProgress(Step(s, job, es[0]), job, es[1..], fd);
    }
  }

  // ---------------------------------------------------------------- the limits are real

  lemma RunCons(s: System, job: Job, e: Event, es: seq<Event>)
    requires CanStep(s, job, e) && IsRun(Step(s, job, e), job, es)
    ensures IsRun(s, job, [e] + es) && Run(s, job, [e] + es) == Run(Step(s, job, e), job, es)
  {
    assert ([e] + es)[1..] == es;
  }

  ghost predicate NoExclusiveOn(k: Kernel, i: Inode) {
    forall e :: e in k.descs && k.descs[e].inode == i && Live(k, e) ==> k.descs[e].lock != Exclusive
  }

  /** Nobody but the caller has a descriptor on the original, and it has one. */
  ghost predicate OnlyCopy(k: Kernel, job: Job) {
    forall q, f :: Names(k, q, f, job.orig) ==> q == job.me && f == job.file
  }

  /** Lock and close leave the caller past its own descriptor and everyone else where they were. */
  lemma LockAndClose(s: System, job: Job, fd: Fd) returns (end: System)
    requires Initial(s, job) && Grantable(s.k, job.orig, Exclusive)
    ensures IsRun(s, job, [Own(fd)] + [Own(fd)]) && end == Run(s, job, [Own(fd)] + [Own(fd)])
    ensures end.pc == Closed && WellFormed(end.k)
    ensures end.k.procs == s.k.procs[job.me := s.k.procs[job.me] - {job.file}]
    ensures end.k.descs == s.k.descs[job.orig := s.k.descs[job.orig].(lock := Exclusive)]
    ensures end.k.files == s.k.files && end.k.names == s.k.names
    ensures forall e :: e in end.k.descs && Live(end.k, e) ==> Live(s.k, e)
  {
    var mid := Step(s, job, Own(fd));
    end := Step(mid, job, Own(fd));
    ApplyWellFormed(s.k, Flock(job.me, job.file, Exclusive));
    ApplyWellFormed(mid.k, Close(job.me, job.file));
    forall e | e in end.k.descs && Live(end.k, e) ensures Live(s.k, e) {
      NothingRevives(mid.k, Close(job.me, job.file), e);
      NothingRevives(s.k, Flock(job.me, job.file, Exclusive), e);
    }
    RunCons(mid, job, Own(fd), []);
    assert [Own(fd)] + [] == [Own(fd)];
    RunCons(s, job, Own(fd), [Own(fd)]);
  }

  lemma NewSharesFreely(k: Kernel, open: Action)
    requires WellFormed(k) && open.Open? && Enabled(k, open) && NoExclusiveOn(k, k.names[open.path])
    ensures Grantable(Apply(k, open), k.next, Shared)
  {
    forall e | e in k.descs && Live(Apply(k, open), e) ensures Live(k, e) {
      NothingRevives(k, open, e);
    }
  }

  /** Opening, locking and closing a descriptor leaves every table as it was. */
  lemma ReopenLeavesTables(k: Kernel, job: Job, ro: Fd)
    requires WellFormed(k) && job.me in k.procs && ro !in k.procs[job.me] && job.path in k.names
    requires NoExclusiveOn(k, k.names[job.path])
    ensures var open, lock, close := Open(job.me, ro, job.path, false), Flock(job.me, ro, Shared), Close(job.me, ro);
            && Enabled(k, open) && Enabled(Apply(k, open), lock) && Enabled(Apply(Apply(k, open), lock), close)
            && var k' := Apply(Apply(Apply(k, open), lock), close);
               && k'.procs == k.procs && k'.names == k.names && k'.files == k.files
               && forall d :: d in k.descs ==> d in k'.descs && k'.descs[d] == k.descs[d]
  {
    var open := Open(job.me, ro, job.path, false);
    NewSharesFreely(k, open);
    var t := k.procs[job.me];
    assert t[ro := Descriptor(k.next, true)] - {ro} == t;
  }

  /** When the path names a file nobody has locked, the rest of the call goes straight through. */
  lemma ReopenUnlocked(s: System, job: Job, ro: Fd, other: Inode) returns (end: System)
    requires WellFormed(s.k) && s.pc == Closed && job.path in s.k.names && s.k.names[job.path] == other
    requires job.me in s.k.procs && ro !in s.k.procs[job.me] && NoExclusiveOn(s.k, other)
    ensures IsRun(s, job, [Own(ro)] + ([Own(ro)] + [Own(ro)]))
    ensures end == Run(s, job, [Own(ro)] + ([Own(ro)] + [Own(ro)])) && end.pc == Done(other)
    ensures end.k.procs == s.k.procs
    ensures forall d :: d in s.k.descs ==> d in end.k.descs && end.k.descs[d] == s.k.descs[d]
  {
    var s1 := Step(s, job, Own(ro));
    ReopenLeavesTables(s.k, job, ro);
    var s2 := Step(s1, job, Own(ro));
    end := Step(s2, job, Own(ro));
    assert [Own(ro)] + [] == [Own(ro)];
    RunCons(s2, job, Own(ro), []);
    RunCons(s1, job, Own(ro), [Own(ro)]);
    RunCons(s, job, Own(ro), [Own(ro)] + [Own(ro)]);
  }

  lemma {:induction false} RunConcat(s: System, job: Job, xs: seq<Event>, ys: seq<Event>)
    requires IsRun(s, job, xs) && IsRun(Run(s, job, xs), job, ys)
    ensures IsRun(s, job, xs + ys) && Run(s, job, xs + ys) == Run(Run(s, job, xs), job, ys)
    decreases |xs|
  {
    if xs == [] {
      assert xs + ys == ys;
    } else {
      RunConcat(Step(s, job, xs[0]), job, xs[1..], ys);
      assert (xs + ys)[1..] == xs[1..] + ys;
    }
  }

  /** From any start where another process holds a copy, a rename over the path lets the call return
      with that copy still held and an `exec` of the file still failing. */
  lemma RenameDefeatsBarrier(s: System, job: Job, holder: Pid, other: Inode, ro: Fd) returns (es: seq<Event>)
    requires Initial(s, job) && s.k.descs[job.orig].writable
    requires holder != job.me && holder in Holders(s.k, job.orig)
    requires Grantable(s.k, job.orig, Exclusive)
    requires other in s.k.files && other != job.inode && NoExclusiveOn(s.k, other)
    requires ro !in s.k.procs[job.me]
    ensures IsRun(s, job, es) && Run(s, job, es).pc == Done(other)
    ensures holder in Holders(Run(s, job, es).k, job.orig) && TextBusy(Run(s, job, es).k, job.inode)
  {
    var closed := LockAndClose(s, job, ro);
    assert NoExclusiveOn(closed.k, other);
    var rename := Env(Rename(job.path, other));
    var renamed := Step(closed, job, rename);
    ApplyWellFormed(closed.k, Rename(job.path, other));
    assert forall e :: Live(renamed.k, e) == Live(closed.k, e);
    var end := ReopenUnlocked(renamed, job, ro, other);
    RunCons(closed, job, rename, [Own(ro)] + ([Own(ro)] + [Own(ro)]));
    var xs, ys := [Own(ro)] + [Own(ro)], [rename] + ([Own(ro)] + ([Own(ro)] + [Own(ro)]));
    RunConcat(s, job, xs, ys);
    es := xs + ys;
    assert end.k.procs[holder] == s.k.procs[holder];
    assert Live(end.k, job.orig);
  }

  lemma OpenKeepsStart(s: System, job: Job, p: Pid, w: Fd)
    requires Initial(s, job) && !job.lone && p != job.me && Grantable(s.k, job.orig, Exclusive)
    requires Enabled(s.k, Open(p, w, job.path, true))
    ensures var s' := Step(s, job, Env(Open(p, w, job.path, true)));
            Initial(s', job) && Grantable(s'.k, job.orig, Exclusive)
  {
    var a := Open(p, w, job.path, true);
    ApplyWellFormed(s.k, a);
    forall e | e in s.k.descs && Live(Apply(s.k, a), e) ensures Live(s.k, e) {
      NothingRevives(s.k, a, e);
    }
  }

  /** With no copies about, the close takes the locked description with it. */
  lemma OriginalIsGone(k: Kernel, closed: Kernel, job: Job)
    requires job.me in k.procs && job.orig in k.descs && Grantable(k, job.orig, Exclusive)
    requires k.descs[job.orig].inode == job.inode && OnlyCopy(k, job)
    requires closed.procs == k.procs[job.me := k.procs[job.me] - {job.file}]
    requires closed.descs == k.descs[job.orig := k.descs[job.orig].(lock := Exclusive)]
    requires forall e :: e in closed.descs && Live(closed, e) ==> Live(k, e)
    ensures NoExclusiveOn(closed, job.inode)
  {
    if Live(closed, job.orig) {
      var q :| q in closed.procs && Has(closed.procs[q], job.orig);
      var f :| f in closed.procs[q] && closed.procs[q][f].ofd == job.orig;
      assert Names(k, q, f, job.orig);
    }
  }

  /** And an independent writer is invisible: if the job is not lone, another process may open the
      file for writing before the call starts, and the call returns with `exec` failing. */
  lemma OtherWriterDefeatsBarrier(s: System, job: Job, p: Pid, w: Fd, ro: Fd) returns (es: seq<Event>)
    requires Initial(s, job) && !job.lone && p != job.me && Grantable(s.k, job.orig, Exclusive)
    requires Enabled(s.k, Open(p, w, job.path, true)) && s.k.names[job.path] == job.inode
    requires OnlyCopy(s.k, job)
    requires ro !in s.k.procs[job.me]
    ensures IsRun(s, job, es) && Run(s, job, es).pc == Done(job.inode)
    ensures TextBusy(Run(s, job, es).k, job.inode)
  {
    var open := Env(Open(p, w, job.path, true));
    var shared := Step(s, job, open);
    OpenKeepsStart(s, job, p, w);
    var closed := LockAndClose(shared, job, ro);
    forall q, f | Names(shared.k, q, f, job.orig) ensures q == job.me && f == job.file {
      assert Names(s.k, q, f, job.orig);
    }
    OriginalIsGone(shared.k, closed.k, job);
    var end := ReopenUnlocked(closed, job, ro, job.inode);
    var xs, ys := [Own(ro)] + [Own(ro)], [Own(ro)] + ([Own(ro)] + [Own(ro)]);
    RunConcat(shared, job, xs, ys);
    RunCons(s, job, open, xs + ys);
    es := [open] + (xs + ys);
    assert end.k.procs[p][w].ofd == s.k.next && Has(end.k.procs[p], s.k.next);
    assert Live(end.k, s.k.next);
  }

  // ---------------------------------------------------------------- the calls themselves

  /** The kernel the calls act on; other processes act on it between any two system calls. */
  class Machine {
    var k: Kernel
    /** The bursts of other processes' actions let in so far. */
    ghost var offered: seq<seq<Action>>

    constructor (k: Kernel)
      ensures this.k == k && offered == []
    {
      this.k, offered := k, [];
    }

    method Syscall(a: Action)
      requires Enabled(k, a)
      modifies this`k
      ensures k == Apply(old(k), a)
    {
      k := Apply(k, a);
    }
  }

  lemma {:induction false} RunAppend(s: System, job: Job, es: seq<Event>, e: Event)
    requires IsRun(s, job, es) && CanStep(Run(s, job, es), job, e)
    ensures IsRun(s, job, es + [e]) && Run(s, job, es + [e]) == Step(Run(s, job, es), job, e)
    decreases |es|
  {
    if es == [] {
      assert [] + [e] == [e];
      assert IsRun(Step(s, job, e), job, []);
    } else {
      RunAppend(Step(s, job, es[0]), job, es[1..], e);
      assert (es + [e])[1..] == es[1..] + [e];
    }
  }

  /** Where the others bring the system when they try these actions in turn: each that can happen
      then, and is within the limits, does. */
  function Burst(s: System, job: Job, acts: seq<Action>): System
    decreases |acts|
  {
    if acts == [] then s
    else Burst(if CanStep(s, job, Env(acts[0])) then Step(s, job, Env(acts[0])) else s, job, acts[1..])
  }

  /** The other processes get a burst in. */
  method Interfere(m: Machine, job: Job, pc: Pc, acts: seq<Action>, ghost s0: System, ghost es0: seq<Event>)
    returns (ghost es: seq<Event>)
    requires IsRun(s0, job, es0) && Run(s0, job, es0) == System(m.k, pc)
    modifies m
    ensures IsRun(s0, job, es) && Run(s0, job, es) == System(m.k, pc)
    ensures System(m.k, pc) == Burst(System(old(m.k), pc), job, acts) && m.offered == old(m.offered) + [acts]
  {
    es := es0;
    for i := 0 to |acts|
      invariant IsRun(s0, job, es) && Run(s0, job, es) == System(m.k, pc) && m.offered == old(m.offered)
      invariant Burst(System(m.k, pc), job, acts[i..]) == Burst(System(old(m.k), pc), job, acts)
    {
      assert acts[i..][1..] == acts[i + 1..];
      if CanStep(System(m.k, pc), job, Env(acts[i])) {
        RunAppend(s0, job, es, Env(acts[i]));
        es := es + [Env(acts[i])];
        m.Syscall(acts[i]);
      }
    }
    m.offered := m.offered + [acts];
  }

  datatype Outcome = Returned(inode: Inode) | ReopenFailed | Waiting

  /** What the other processes try at each point of the call; the two waits take one burst each
      time the lock is found busy. */
  datatype Schedule = Schedule(
    locking: seq<seq<Action>>, locked: seq<Action>, closed: seq<Action>,
    sharing: seq<seq<Action>>, acquired: seq<Action>)

  /** A blocking `flock`: the other processes run until it is granted or the schedule is used up. */
  method BlockingFlock(m: Machine, job: Job, pc: Pc, mode: Lock, fd: Fd, bursts: seq<seq<Action>>,
                       ghost s0: System, ghost es0: seq<Event>) returns (granted: bool, ghost es: seq<Event>)
    requires IsRun(s0, job, es0) && Run(s0, job, es0) == System(m.k, pc)
    requires (pc == Start && fd == job.file && mode == Exclusive) || (pc.Reopened? && fd == pc.ro && mode == Shared)
    modifies m
    ensures IsRun(s0, job, es)
    ensures Run(s0, job, es) == System(m.k, if granted then After(System(m.k, pc), job, fd) else pc)
    ensures !granted ==> !Enabled(m.k, Flock(job.me, fd, mode)) && m.offered == old(m.offered) + bursts
    ensures Enabled(old(m.k), Flock(job.me, fd, mode)) ==> granted && m.k == Apply(old(m.k), Flock(job.me, fd, mode))
  {
    es := es0;
    var i := 0;
    while !Enabled(m.k, Flock(job.me, fd, mode))
      invariant 0 <= i <= |bursts| && m.offered == old(m.offered) + bursts[..i]
      invariant i == 0 ==> m.k == old(m.k)
      invariant Enabled(old(m.k), Flock(job.me, fd, mode)) ==> i == 0
      invariant IsRun(s0, job, es) && Run(s0, job, es) == System(m.k, pc)
      decreases |bursts| - i
    {
      if i == |bursts| {
        granted := false;
        return;
      }
      es := Interfere(m, job, pc, bursts[i], s0, es);
      i := i + 1;
    }
    RunAppend(s0, job, es, Own(fd));
    es := es + [Own(fd)];
    m.Syscall(Flock(job.me, fd, mode));
    granted := true;
  }

  /** The number a new descriptor gets: the lowest one free. */
  method FreeFd(t: Table) returns (fd: Fd)
    ensures fd >= 0 && fd !in t && forall i :: 0 <= i < fd ==> i in t
  {
    fd := 0;
    ghost var above := t.Keys;
    while fd in t
      invariant fd >= 0 && (forall i :: 0 <= i < fd ==> i in t)
      invariant forall i :: i in t && i >= fd ==> i in above
      decreases above
    {
      above := above - {fd};
      fd := fd + 1;
    }
  }

  /** Nobody else is about: no other copy, no lock on the file, and the path still names it. */
  ghost predicate Alone(k: Kernel, job: Job)
    requires job.orig in k.descs
  {
    OnlyCopy(k, job) && Grantable(k, job.orig, Exclusive) && job.path in k.names && k.names[job.path] == job.inode
  }

  predicate NoneBetween(sched: Schedule) {
    sched.locked == [] && sched.closed == [] && sched.acquired == []
  }

  /** The call waits for a lock that cannot be granted. */
  predicate Blocked(s: System, job: Job) {
    || (s.pc == Start && !Enabled(s.k, Flock(job.me, job.file, Exclusive)))
    || (s.pc.Reopened? && !Enabled(s.k, Flock(job.me, s.pc.ro, Shared)))
  }

  /** The kernel after the exclusive lock and the first close. */
  function Released(k: Kernel, job: Job): Kernel
    requires Enabled(k, Flock(job.me, job.file, Exclusive))
  {
    Apply(Apply(k, Flock(job.me, job.file, Exclusive)), Close(job.me, job.file))
  }

  lemma AloneReleased(k: Kernel, job: Job)
    requires Initial(System(k, Start), job) && Alone(k, job)
    ensures Enabled(k, Flock(job.me, job.file, Exclusive))
    ensures var k' := Released(k, job);
            && WellFormed(k') && NoExclusiveOn(k', job.inode)
            && k'.procs == k.procs[job.me := k.procs[job.me] - {job.file}]
            && k'.names == k.names && k'.files == k.files
  {
    var lock, close := Flock(job.me, job.file, Exclusive), Close(job.me, job.file);
    var mid, k' := Apply(k, lock), Released(k, job);
    ApplyWellFormed(k, lock);
    ApplyWellFormed(mid, close);
    forall e | e in k'.descs && Live(k', e) ensures Live(k, e) {
      NothingRevives(mid, close, e);
      NothingRevives(k, lock, e);
    }
    OriginalIsGone(k, k', job);
  }

  /** The first half: take the exclusive lock and close the writable descriptor. */
  method ReleaseWriter(m: Machine, job: Job, sched: Schedule) returns (granted: bool, ghost es: seq<Event>)
    requires Initial(System(m.k, Start), job)
    modifies m
    ensures IsRun(System(old(m.k), Start), job, es)
    ensures Run(System(old(m.k), Start), job, es) == System(m.k, if granted then Closed else Start)
    ensures !granted ==> !Enabled(m.k, Flock(job.me, job.file, Exclusive))
    ensures !granted ==> m.offered == old(m.offered) + sched.locking
    ensures Enabled(old(m.k), Flock(job.me, job.file, Exclusive)) && NoneBetween(sched)
            ==> granted && m.k == Released(old(m.k), job)
  {
    ghost var s0 := System(m.k, Start);
    granted, es := BlockingFlock(m, job, Start, Exclusive, job.file, sched.locking, s0, []);
    if granted {
      es := Interfere(m, job, Locked, sched.locked, s0, es);
      es := OwnStep(m, job, Locked, job.file, s0, es);
      es := Interfere(m, job, Closed, sched.closed, s0, es);
    }
  }

  /** `close_ensure_ro_fd` under any schedule of the other processes. Its execution is a run of the
      protocol, so once it returns, the file it reopened is drained if that is the file it was given.
      It fails only for want of the file and waits only for a lock that stays busy however long the
      others run; with nobody else about it returns, and only the caller's descriptor is gone. */
  method CloseEnsureRoFd(m: Machine, job: Job, sched: Schedule) returns (r: Outcome, ghost es: seq<Event>)
    requires Initial(System(m.k, Start), job)
    modifies m
    ensures IsRun(System(old(m.k), Start), job, es)
    ensures Run(System(old(m.k), Start), job, es).k == m.k
    ensures r.Returned? ==> Run(System(old(m.k), Start), job, es).pc == Done(r.inode)
    ensures r.Returned? && r.inode == job.inode ==> Drained(m.k, job)
    ensures r.ReopenFailed? ==> Run(System(old(m.k), Start), job, es).pc == Failed && job.path !in m.k.names
    ensures r.Waiting? ==> Blocked(Run(System(old(m.k), Start), job, es), job)
    ensures r.Waiting? ==> m.offered == old(m.offered) + sched.locking || EndsIn(m.offered, sched.sharing)
    ensures Alone(old(m.k), job) && NoneBetween(sched)
            ==> && r == Returned(job.inode)
                && m.k.procs == old(m.k.procs)[job.me := old(m.k.procs)[job.me] - {job.file}]
                && m.k.names == old(m.k.names) && m.k.files == old(m.k.files)
  {
    ghost var s0 := System(m.k, Start);
    ghost var alone := Alone(m.k, job) && NoneBetween(sched);
    if alone {
      AloneReleased(m.k, job);
    }
    var granted;
    granted, es := ReleaseWriter(m, job, sched);
    if !granted {
      r := Waiting;
      return;
    }
    r, es := ReopenAndShare(m, job, sched, s0, es);
  }

  predicate EndsIn<T(==)>(xs: seq<T>, ys: seq<T>) { |ys| <= |xs| && xs[|xs| - |ys|..] == ys }

  /** The second half: open the path again, take the shared lock, and close. */
  method ReopenAndShare(m: Machine, job: Job, sched: Schedule, ghost s0: System, ghost es0: seq<Event>)
    returns (r: Outcome, ghost es: seq<Event>)
    requires Initial(s0, job) && IsRun(s0, job, es0) && Run(s0, job, es0) == System(m.k, Closed)
    modifies m
    ensures IsRun(s0, job, es) && Run(s0, job, es).k == m.k
    ensures r.Returned? ==> Run(s0, job, es).pc == Done(r.inode)
    ensures r.Returned? && r.inode == job.inode ==> Drained(m.k, job)
    ensures r.ReopenFailed? ==> Run(s0, job, es).pc == Failed && job.path !in m.k.names
    ensures r.Waiting? ==> Blocked(Run(s0, job, es), job) && EndsIn(m.offered, sched.sharing)
    ensures job.path in old(m.k.names) && NoExclusiveOn(old(m.k), old(m.k.names)[job.path]) && sched.acquired == []
            ==> && r == Returned(old(m.k.names)[job.path])
                && m.k.procs == old(m.k.procs) && m.k.names == old(m.k.names) && m.k.files == old(m.k.files)
  {
    RunKeepsInvariant(s0, job, es0);
    var ro := FreeFd(m.k.procs[job.me]);
    if job.path !in m.k.names {
      es := OwnStep(m, job, Closed, ro, s0, es0);
      r := ReopenFailed;
      return;
    }
    var inode := m.k.names[job.path];
    ghost var free := NoExclusiveOn(m.k, inode);
    if free {
      ReopenLeavesTables(m.k, job, ro);
    }
    es := OwnStep(m, job, Closed, ro, s0, es0);
    r, es := ShareAndClose(m, job, ro, inode, sched, s0, es);
  }

  /** Once the path is open again: the shared lock, and the last close. */
  method ShareAndClose(m: Machine, job: Job, ro: Fd, inode: Inode, sched: Schedule, ghost s0: System, ghost es0: seq<Event>)
    returns (r: Outcome, ghost es: seq<Event>)
    requires Initial(s0, job) && IsRun(s0, job, es0) && Run(s0, job, es0) == System(m.k, Reopened(ro, inode))
    modifies m
    ensures IsRun(s0, job, es) && Run(s0, job, es).k == m.k && !r.ReopenFailed?
    ensures r.Returned? ==> r.inode == inode && Run(s0, job, es).pc == Done(r.inode)
    ensures r.Returned? && r.inode == job.inode ==> Drained(m.k, job)
    ensures r.Waiting? ==> Blocked(Run(s0, job, es), job) && EndsIn(m.offered, sched.sharing)
    ensures Enabled(old(m.k), Flock(job.me, ro, Shared)) && sched.acquired == []
            ==> r.Returned? && m.k == Apply(Apply(old(m.k), Flock(job.me, ro, Shared)), Close(job.me, ro))
  {
    var granted;
    granted, es := BlockingFlock(m, job, Reopened(ro, inode), Shared, ro, sched.sharing, s0, es0);
    if !granted {
      r := Waiting;
      return;
    }
    es := Interfere(m, job, Acquired(ro, inode), sched.acquired, s0, es);
    es := OwnStep(m, job, Acquired(ro, inode), ro, s0, es);
    BarrierSafe(s0, job, es);
    r := Returned(inode);
  }

  /** A step of the barrier that never blocks: one of the closes, or the reopen, which may find no
      file. */
  method OwnStep(m: Machine, job: Job, pc: Pc, fd: Fd, ghost s0: System, ghost es0: seq<Event>)
    returns (ghost es: seq<Event>)
    requires Initial(s0, job) && IsRun(s0, job, es0) && Run(s0, job, es0) == System(m.k, pc)
    requires pc == Locked || pc.Acquired? || (pc == Closed && job.me in m.k.procs && fd !in m.k.procs[job.me])
    modifies m`k
    ensures IsRun(s0, job, es) && Run(s0, job, es) == System(m.k, After(System(old(m.k), pc), job, fd))
    ensures CanStep(System(old(m.k), pc), job, Own(fd)) && m.k == Step(System(old(m.k), pc), job, Own(fd)).k
  {
    RunKeepsInvariant(s0, job, es0);
    RunAppend(s0, job, es0, Own(fd));
    es := es0 + [Own(fd)];
    var a := OwnAction(System(m.k, pc), job, fd);
    if a.Some? {
      m.Syscall(a.value);
    }
  }

  // ---------------------------------------------------------------- its caller

  /** In a lone job neither the barrier nor anyone else changes the file's bytes or mode. */
  lemma {:induction false} RunKeepsFile(s: System, job: Job, es: seq<Event>)
    requires Invariant(s, job) && IsRun(s, job, es)
    ensures job.inode in s.k.files && job.inode in Run(s, job, es).k.files
    ensures job.lone ==> Run(s, job, es).k.files[job.inode] == s.k.files[job.inode]
    decreases |es|
  {
    if es != [] {
      RunKeepsInvariant(s, job, [es[0]]);
      RunCons(s, job, es[0], []);
      assert [es[0]] + [] == [es[0]];
      RunKeepsFile(Step(s, job, es[0]), job, es[1..]);
    }
  }

  lemma CreateStarts(k: Kernel, job: Job)
    requires WellFormed(k) && job.orig == k.next && Enabled(k, Create(job.me, job.file, job.path, job.inode))
    requires job.lone ==> !TextBusy(k, job.inode)
    ensures Initial(System(Apply(k, Create(job.me, job.file, job.path, job.inode)), Start), job)
  {
    var a := Create(job.me, job.file, job.path, job.inode);
    ApplyWellFormed(k, a);
    forall d | d in k.descs && Live(Apply(k, a), d) ensures Live(k, d) {
      NothingRevives(k, a, d);
    }
  }

  /** Writing or changing the mode through the caller's descriptor moves no descriptor. */
  lemma OwnChangeKeepsStart(k: Kernel, job: Job, a: Action)
    requires Initial(System(k, Start), job) && (a.Write? || a.Chmod?) && Enabled(k, a)
    ensures Initial(System(Apply(k, a), Start), job)
  {
    ApplyWellFormed(k, a);
    SoleWriterKept(System(k, Start), job, a);
  }

  ghost predicate NoLockOn(k: Kernel, i: Inode) {
    forall e :: e in k.descs && k.descs[e].inode == i && Live(k, e) ==> k.descs[e].lock == Unlocked
  }

  predicate CanCreate(k: Kernel, path: string, inode: Inode) {
    if path in k.names then k.names[path] == inode && inode in k.files else inode !in k.files
  }

  /** A file just created through the caller's descriptor: nobody else has that descriptor, and a
      file nobody had locked is still unlocked. */
  lemma CreatedAlone(k: Kernel, job: Job)
    requires WellFormed(k) && job.orig == k.next && Enabled(k, Create(job.me, job.file, job.path, job.inode))
    requires NoLockOn(k, job.inode)
    ensures Alone(Apply(k, Create(job.me, job.file, job.path, job.inode)), job)
  {
    var a := Create(job.me, job.file, job.path, job.inode);
    forall d | d in k.descs && Live(Apply(k, a), d) ensures Live(k, d) {
      NothingRevives(k, a, d);
    }
  }

  /** The kernel after an undisturbed create, write and chmod. */
  function Prepared(k: Kernel, job: Job, bytes: seq<bv8>): Kernel
    requires Enabled(k, Create(job.me, job.file, job.path, job.inode))
  {
    var k' := Apply(k, Create(job.me, job.file, job.path, job.inode));
    k'.(files := k'.files[job.inode := File(bytes, true)])
  }

  lemma PreparedAlone(k: Kernel, job: Job, bytes: seq<bv8>)
    requires WellFormed(k) && job.orig == k.next && Enabled(k, Create(job.me, job.file, job.path, job.inode))
    requires NoLockOn(k, job.inode)
    ensures var k' := Prepared(k, job, bytes);
            && Alone(k', job)
            && k'.procs[job.me := k'.procs[job.me] - {job.file}] == k.procs
            && k'.names == k.names[job.path := job.inode]
            && k'.files == k.files[job.inode := File(bytes, true)]
  {
    CreatedAlone(k, job);
    var t := k.procs[job.me];
    assert t[job.file := Descriptor(k.next, true)] - {job.file} == t;
    var k0, k' := Apply(k, Create(job.me, job.file, job.path, job.inode)), Prepared(k, job, bytes);
    assert k'.procs == k0.procs && k'.descs == k0.descs;
    assert forall d :: Live(k', d) == Live(k0, d);
    assert forall q, f :: Names(k', q, f, job.orig) == Names(k0, q, f, job.orig);
  }

  function Changed(f: File, a: Action): File
    requires a.Write? || a.Chmod?
  {
    if a.Write? then f.(bytes := a.bytes) else f.(executable := a.executable)
  }

  /** A write or a chmod through the caller's descriptor, then the others. */
  method Change(m: Machine, job: Job, a: Action, acts: seq<Action>)
    requires Initial(System(m.k, Start), job) && m.k.descs[job.orig].writable
    requires (a.Write? || a.Chmod?) && a.pid == job.me && a.fd == job.file
    modifies m
    ensures Initial(System(m.k, Start), job) && m.k.descs[job.orig].writable
    ensures job.lone ==> m.k.files[job.inode] == Changed(old(m.k).files[job.inode], a)
    ensures acts == [] ==> m.k == old(m.k).(files := old(m.k).files[job.inode := Changed(old(m.k).files[job.inode], a)])
  {
    OwnChangeKeepsStart(m.k, job, a);
    m.Syscall(a);
    Pause(m, job, acts);
  }

  /** Create (or truncate), write and chmod, with the others in between. */
  method Prepare(m: Machine, job: Job, bytes: seq<bv8>, created: seq<Action>, written: seq<Action>, chmodded: seq<Action>)
    requires WellFormed(m.k) && job.orig == m.k.next && Enabled(m.k, Create(job.me, job.file, job.path, job.inode))
    requires job.lone ==> !TextBusy(m.k, job.inode)
    modifies m
    ensures Initial(System(m.k, Start), job)
    ensures job.lone ==> m.k.files[job.inode] == File(bytes, true)
    ensures created == written == chmodded == [] ==> m.k == Prepared(old(m.k), job, bytes)
  {
    CreateStarts(m.k, job);
    m.Syscall(Create(job.me, job.file, job.path, job.inode));
    Pause(m, job, created);
    Change(m, job, Write(job.me, job.file, bytes), written);
    Change(m, job, Chmod(job.me, job.file, true), chmodded);
  }

  /** `write_executable`: create (or truncate), write, chmod, drain; `inode` is the file at the path,
      or the number a new one gets. When it returns through the same inode its own descriptors are
      drained; and if nobody else writes the file, it holds exactly the bytes, is executable, and can
      be executed at once. With nobody else about it returns, and nothing but the file has changed. */
  method WriteExecutable(m: Machine, me: Pid, path: string, bytes: seq<bv8>, inode: Inode, lone: bool,
                         created: seq<Action>, written: seq<Action>, chmodded: seq<Action>, sched: Schedule)
    returns (r: Outcome, job: Job)
    requires WellFormed(m.k) && me in m.k.procs && CanCreate(m.k, path, inode)
    requires lone ==> !TextBusy(m.k, inode)
    modifies m
    ensures job == Job(me, job.file, path, old(m.k.next), inode, lone)
    ensures r.Returned? && r.inode == inode ==> Drained(m.k, job)
    ensures r.Returned? && r.inode == inode && lone
            ==> !TextBusy(m.k, inode) && inode in m.k.files && m.k.files[inode] == File(bytes, true)
    ensures r.ReopenFailed? ==> path !in m.k.names
    ensures r.Waiting? ==> exists pc :: Blocked(System(m.k, pc), job)
    ensures NoLockOn(old(m.k), inode) && created == written == chmodded == [] && NoneBetween(sched)
            ==> && r == Returned(inode)
                && m.k.procs == old(m.k.procs)
                && m.k.names == old(m.k.names)[path := inode]
                && m.k.files == old(m.k.files)[inode := File(bytes, true)]
  {
    var fd := FreeFd(m.k.procs[me]);
    job := Job(me, fd, path, m.k.next, inode, lone);
    if NoLockOn(m.k, inode) {
      PreparedAlone(m.k, job, bytes);
    }
    Prepare(m, job, bytes, created, written, chmodded);
    ghost var s0 := System(m.k, Start);
    ghost var es;
    r, es := CloseEnsureRoFd(m, job, sched);
    RunKeepsFile(s0, job, es);
    assert r.Waiting? ==> Blocked(System(m.k, Run(s0, job, es).pc), job);
  }

  /** The other processes run while the caller sits between two of its own calls. */
  method Pause(m: Machine, job: Job, acts: seq<Action>)
    requires Initial(System(m.k, Start), job)
    modifies m
    ensures Initial(System(m.k, Start), job)
    ensures m.k.descs[job.orig].writable == old(m.k.descs[job.orig].writable)
    ensures job.lone ==> m.k.files[job.inode] == old(m.k.files[job.inode])
    ensures acts == [] ==> m.k == old(m.k)
  {
    ghost var s0 := System(m.k, Start);
    ghost var es := Interfere(m, job, Start, acts, s0, []);
    RunKeepsInvariant(s0, job, es);
    RunKeepsFile(s0, job, es);
    RunKeepsMode(s0, job, es);
  }

  lemma {:induction false} RunKeepsMode(s: System, job: Job, es: seq<Event>)
    requires Invariant(s, job) && IsRun(s, job, es)
    ensures job.orig in Run(s, job, es).k.descs
    ensures Run(s, job, es).k.descs[job.orig].writable == s.k.descs[job.orig].writable
    decreases |es|
  {
    if es != [] {
      RunKeepsInvariant(s, job, [es[0]]);
      RunCons(s, job, es[0], []);
      assert [es[0]] + [] == [es[0]];
      RunKeepsMode(Step(s, job, es[0]), job, es[1..]);
    }
  }
}
