/** The Linux command guardian (_owned_command_linux_guardian.py) over a small kernel: processes fork,
  * exit, are adopted and are reaped, and process numbers are reused. The guardian is a child
  * subreaper and the only waiter for the command it started in a session of its own.
  *
  * Assumed of the command: its processes stay in their process group. */
module Guardians {
  import opened Basics

  type Pid = nat

  /** A table entry, live or a zombie with an exit status. `owned` marks the command's root and what
    * descends from it; `born` counts births, which the kernel does not show and proofs use. */
  datatype Process = Process(parent: Pid, group: Pid, exit: Option<int>, owned: bool, born: nat)

  datatype Kernel = Kernel(guardian: Pid, root: Pid, table: map<Pid, Process>, births: nat)

  predicate Alive(k: Kernel, p: Pid) {
    p in k.table && k.table[p].exit.None?
  }

  predicate Owned(k: Kernel, p: Pid) {
    p in k.table && k.table[p].owned
  }

  /** What other processes do between two system calls of the guardian. */
  datatype KernelEvent =
    | Fork(parent: Pid, child: Pid)
    | JoinGroup(p: Pid, group: Pid)
    | Exit(p: Pid, status: int, heir: Pid)
    | Reap(parent: Pid, child: Pid)

  predicate NumberFree(k: Kernel, pid: Pid) {
    pid !in k.table && forall p :: p in k.table ==> k.table[p].group != pid
  }

  /** The rules of the kernel. A number is given out only while no process and no group has it. A
    * group is joined or founded from inside its session, so never by an outsider if its members are
    * owned. The children of a process that exits go to an older live process: for the command, one of
    * its own ancestors up to the guardian; for an outsider, another outsider. */
  predicate Enabled(k: Kernel, e: KernelEvent) {
    match e
    case Fork(parent, child) => Alive(k, parent) && parent != k.guardian && NumberFree(k, child)
    case JoinGroup(p, group) =>
      && Alive(k, p) && !Owned(k, p) && p != k.guardian
      && (group == p || exists q :: q in k.table && !k.table[q].owned && k.table[q].group == group)
    case Exit(p, status, heir) =>
      && Alive(k, p) && p != k.guardian && k.table[p].parent != p && Alive(k, heir) && heir != p
      && if Owned(k, p) then heir == k.guardian || (Owned(k, heir) && k.table[heir].born < k.table[p].born)
         else heir != k.guardian && !Owned(k, heir)
    case Reap(parent, child) =>
      && parent != k.guardian && Alive(k, parent)
      && child in k.table && k.table[child].parent == parent && k.table[child].exit.Some?
  }

  function Next(k: Kernel, e: KernelEvent): Kernel
    requires Enabled(k, e)
  {
    match e
    case Fork(parent, child) =>
      var p := k.table[parent];
      k.(table := k.table[child := Process(parent, p.group, None, p.owned, k.births)], births := k.births + 1)
    case JoinGroup(p, group) => k.(table := k.table[p := k.table[p].(group := group)])
    case Exit(p, status, heir) =>
      k.(table := map q | q in k.table ::
           if q == p then k.table[q].(exit := Some(status))
           else if k.table[q].parent == p then k.table[q].(parent := heir)
           else k.table[q])
    case Reap(parent, child) => k.(table := k.table - {child})
  }

  function Elapsed(k: Kernel, events: seq<KernelEvent>): Kernel
    decreases |events|
  {
    if events == [] then k
    else Elapsed(if Enabled(k, events[0]) then Next(k, events[0]) else k, events[1..])
  }

  // --- what the kernel keeps -------------------------------------------------------------------

  /** No process of the command is left, not even as a zombie. */
  ghost predicate Gone(k: Kernel) {
    forall p {:trigger Owned(k, p)} :: !Owned(k, p)
  }

  /** A child of the guardian that it has not reaped. */
  predicate Held(k: Kernel, p: Pid) {
    p in k.table && k.table[p].parent == k.guardian
  }

  /** An owned process is in the root's group, and its parent is older and is the guardian or a live
    * owned process. */
  ghost predicate InTree(k: Kernel, p: Pid) {
    Owned(k, p) ==>
      && k.table[p].group == k.root && p != k.guardian
      && (k.table[p].parent == k.guardian
          || (Alive(k, k.table[p].parent) && Owned(k, k.table[p].parent)
              && k.table[k.table[p].parent].born < k.table[p].born))
  }

  /** An outsider's parent is not the guardian and not owned; and while the command lives, an outsider
    * has neither the root's number nor its group. */
  ghost predicate Outside(k: Kernel, p: Pid) {
    p in k.table && !k.table[p].owned ==>
      && (p != k.guardian ==> k.table[p].parent != k.guardian && !Owned(k, k.table[p].parent))
      && (!Gone(k) ==> p != k.root && k.table[p].group != k.root)
  }

  /** Every parent is alive: whoever exits hands its children on. */
  ghost predicate Parented(k: Kernel, p: Pid) {
    p in k.table ==> k.table[p].born < k.births && Alive(k, k.table[p].parent)
  }

  ghost predicate Inv(k: Kernel) {
    && Alive(k, k.guardian) && !Owned(k, k.guardian)
    && (forall p {:trigger InTree(k, p)} :: InTree(k, p))
    && (forall p {:trigger Outside(k, p)} :: Outside(k, p))
    && (forall p {:trigger Parented(k, p)} :: Parented(k, p))
  }

  lemma ForkKeeps(k: Kernel, parent: Pid, child: Pid)
    requires Inv(k) && Enabled(k, Fork(parent, child))
    ensures Inv(Next(k, Fork(parent, child)))
  {
    var n := Next(k, Fork(parent, child));
    assert InTree(k, parent) && Outside(k, parent) && Parented(k, parent);
    if !Gone(n) {
      SomeOwned(n);
      var o :| Owned(n, o);
      var was := if o == child then parent else o;
      assert Owned(k, was) && InTree(k, was);
    }
    forall p
      ensures InTree(n, p) && Outside(n, p) && Parented(n, p)
    {
      assert InTree(k, p) && Outside(k, p) && Parented(k, p);
    }
  }

  lemma SomeOwned(k: Kernel)
    requires !Gone(k)
    ensures exists o :: Owned(k, o)
  {
  }

  lemma JoinGroupKeeps(k: Kernel, p: Pid, group: Pid)
    requires Inv(k) && Enabled(k, JoinGroup(p, group))
    ensures Inv(Next(k, JoinGroup(p, group)))
  {
    var n := Next(k, JoinGroup(p, group));
    assert Outside(k, p);
    if group != p {
      var q :| q in k.table && !k.table[q].owned && k.table[q].group == group;
      assert Outside(k, q);
    }
    assert forall o {:trigger Owned(n, o)} :: Owned(n, o) == Owned(k, o);
    forall o
      ensures InTree(n, o) && Outside(n, o) && Parented(n, o)
    {
      assert InTree(k, o) && Outside(k, o) && Parented(k, o);
    }
  }

  lemma ExitKeeps(k: Kernel, p: Pid, status: int, heir: Pid)
    requires Inv(k) && Enabled(k, Exit(p, status, heir))
    ensures Inv(Next(k, Exit(p, status, heir)))
  {
    var n := Next(k, Exit(p, status, heir));
    assert forall o {:trigger Owned(n, o)} :: Owned(n, o) == Owned(k, o);
    forall o
      ensures InTree(n, o) && Outside(n, o) && Parented(n, o)
    {
      assert InTree(k, o) && Outside(k, o) && Parented(k, o);
    }
  }

  lemma ReapKeeps(k: Kernel, child: Pid)
    requires Inv(k)
    requires child in k.table && child != k.guardian && k.table[child].exit.Some?
    ensures Inv(k.(table := k.table - {child}))
  {
    var n := k.(table := k.table - {child});
    assert forall o {:trigger Owned(n, o)} :: Owned(n, o) ==> Owned(k, o);
    forall o
      ensures InTree(n, o) && Outside(n, o) && Parented(n, o)
    {
      assert InTree(k, o) && Outside(k, o) && Parented(k, o);
    }
  }

  lemma StepKeeps(k: Kernel, e: KernelEvent)
    requires Inv(k) && Enabled(k, e)
    ensures Inv(Next(k, e))
  {
    match e {
      case Fork(parent, child) => ForkKeeps(k, parent, child);
      case JoinGroup(p, group) => JoinGroupKeeps(k, p, group);
      case Exit(p, status, heir) => ExitKeeps(k, p, status, heir);
      case Reap(parent, child) => ReapKeeps(k, child);
    }
  }

  /** A child the guardian holds stays held: nobody else can reap it, and a parent that lives adopts
    * nobody away. Its exit status, once there, stays; and a command that is gone stays gone. */
  ghost predicate HeldOn(k: Kernel, n: Kernel, p: Pid) {
    Held(k, p) && Owned(k, p) ==>
      Held(n, p) && Owned(n, p) && (k.table[p].exit.Some? ==> n.table[p].exit == k.table[p].exit)
  }

  ghost predicate Later(k: Kernel, n: Kernel) {
    && n.guardian == k.guardian && n.root == k.root
    && (forall p {:trigger HeldOn(k, n, p)} :: HeldOn(k, n, p))
    && (Gone(k) ==> Gone(n))
    && (!Owned(k, k.root) ==> !Owned(n, n.root))
  }

  lemma StepIsLater(k: Kernel, e: KernelEvent)
    requires Inv(k) && Enabled(k, e)
    ensures Later(k, Next(k, e))
  {
    var n := Next(k, e);
    if e.Fork? {
      assert InTree(k, e.parent);
    }
    if Gone(k) {
      forall p
        ensures !Owned(n, p)
      {
        assert !Owned(k, p);
        if e.Fork? {
          assert !Owned(k, e.parent);
        }
      }
    }
  }

  lemma LaterIsTransitive(k: Kernel, m: Kernel, n: Kernel)
    requires Later(k, m) && Later(m, n)
    ensures Later(k, n)
  {
    forall p
      ensures HeldOn(k, n, p)
    {
      assert HeldOn(k, m, p) && HeldOn(m, n, p);
    }
  }

  lemma {:induction false} ElapsedKeeps(k: Kernel, events: seq<KernelEvent>)
    requires Inv(k)
    ensures Inv(Elapsed(k, events)) && Later(k, Elapsed(k, events))
    decreases |events|
  {
    if events != [] {
      if Enabled(k, events[0]) {
        var n := Next(k, events[0]);
        StepKeeps(k, events[0]);
        StepIsLater(k, events[0]);
        ElapsedKeeps(n, events[1..]);
        LaterIsTransitive(k, n, Elapsed(n, events[1..]));
      } else {
        ElapsedKeeps(k, events[1..]);
      }
    }
  }

  /** The parent chain of an owned process leads to one that the guardian holds. */
  lemma {:induction false} ChainEndsAtGuardian(k: Kernel, p: Pid) returns (held: Pid)
    requires Inv(k) && Owned(k, p)
    ensures Held(k, held) && Owned(k, held) && k.table[held].group == k.root
    decreases k.table[p].born
  {
    assert InTree(k, p);
    if k.table[p].parent == k.guardian {
      held := p;
    } else {
      held := ChainEndsAtGuardian(k, k.table[p].parent);
    }
  }

  /** ECHILD proves settlement: the guardian has a child in the root's group exactly as long as any
    * process of the command is left. */
  lemma NoChildMeansGone(k: Kernel)
    requires Inv(k)
    ensures Gone(k) <==> forall p :: Held(k, p) && k.table[p].group == k.root ==> p == k.guardian
  {
    if !Gone(k) {
      var p :| Owned(k, p);
      var held := ChainEndsAtGuardian(k, p);
      assert InTree(k, held);
      assert Held(k, held) && k.table[held].group == k.root;
    } else {
      forall p | Held(k, p) && k.table[p].group == k.root
        ensures p == k.guardian
      {
        assert Outside(k, p) && !Owned(k, p);
      }
    }
  }

  /** A held child pins the group: every process in it belongs to the command. */
  lemma HeldChildPinsTheGroup(k: Kernel, held: Pid, p: Pid)
    requires Inv(k) && Held(k, held) && Owned(k, held)
    requires p in k.table && k.table[p].group == k.root
    ensures Owned(k, p)
  {
    assert Outside(k, p);
  }

  // --- undisturbed reaping ---------------------------------------------------------------------

  /** The processes of the command besides its root. */
  ghost function Rest(k: Kernel): set<Pid> {
    set p | p in k.table && k.table[p].owned && p != k.root
  }

  ghost predicate AllExited(k: Kernel) {
    forall p :: p in Rest(k) ==> k.table[p].exit.Some?
  }

  /** Some process of the command is still alive. */
  ghost predicate SomeAlive(k: Kernel) {
    exists p :: Owned(k, p) && Alive(k, p)
  }

  /** Nobody else does anything. */
  ghost predicate Quiet(schedule: seq<seq<KernelEvent>>) {
    forall i :: 0 <= i < |schedule| ==> schedule[i] == []
  }

  /** From `k` on, `reaped` processes other than the root have been reaped and nothing else has changed. */
  ghost predicate Reaped(k: Kernel, n: Kernel, reaped: nat) {
    && n.root == k.root && n.guardian == k.guardian && Rest(n) <= Rest(k) && |Rest(k)| == |Rest(n)| + reaped
    && (forall p :: p in Rest(n) ==> n.table[p] == k.table[p])
    && (forall p :: p in Rest(k) - Rest(n) ==> k.table[p].exit.Some?)
  }

  lemma ReapedOne(k: Kernel, n: Kernel, reaped: nat, pid: Pid)
    requires Reaped(k, n, reaped) && pid in Rest(n) && n.table[pid].exit.Some?
    ensures Reaped(k, n.(table := n.table - {pid}), reaped + 1)
  {
    assert Rest(n.(table := n.table - {pid})) == Rest(n) - {pid};
  }

  lemma ReapedRoot(k: Kernel)
    ensures Reaped(k, k.(table := k.table - {k.root}), 0)
  {
    assert Rest(k.(table := k.table - {k.root})) == Rest(k);
  }

  /** Once the root is reaped, nothing is left exactly when everything else is reaped too. */
  lemma GoneIsReaped(k: Kernel, n: Kernel, reaped: nat)
    requires Reaped(k, n, reaped) && !Owned(n, n.root)
    ensures Gone(n) <==> |Rest(k)| == reaped
    ensures Gone(n) ==> AllExited(k)
    ensures SomeAlive(n) ==> !AllExited(k)
    ensures !SomeAlive(n) ==> AllExited(k)
  {
    assert Gone(n) <==> Rest(n) == {} by {
      if Rest(n) == {} {
        forall p
          ensures !Owned(n, p)
        {
          assert p !in Rest(n);
        }
      } else {
        var p :| p in Rest(n);
        assert Owned(n, p);
      }
    }
    forall p | p in Rest(k)
      ensures k.table[p].exit.Some? || (p in Rest(n) && Owned(n, p) && Alive(n, p))
    {
    }
    if p :| Owned(n, p) && Alive(n, p) {
      assert p in Rest(n);
    }
  }

  // --- the guardian ----------------------------------------------------------------------------

  datatype Observation = NoChild | NoneExited | Exited(pid: Pid, status: int)

  const REAP_ROUNDS: nat := 64

  /** The system calls of one round of `cleanup`, its pause included. */
  const ROUND: nat := 4 * REAP_ROUNDS + 7

  class Invocation {
    var kernel: Kernel
    /** What other processes do before each of the guardian's system calls. */
    var schedule: seq<seq<KernelEvent>>
    var code: Option<int>
    var rootReaped: bool
    var settled: bool
    /** Exit statuses written to the parent's pipe. */
    var reported: seq<int>
    /** How many children have been reaped. */
    ghost var reaped: nat
    /** Every process that was in the group when a signal was sent to it. */
    ghost var signalled: seq<Process>
    /** How often the group was signalled. */
    ghost var signals: nat

    ghost predicate Valid()
      reads this
    {
      && Inv(kernel)
      && (!rootReaped ==> Held(kernel, kernel.root) && Owned(kernel, kernel.root))
      && (!rootReaped && code.Some? ==> kernel.table[kernel.root].exit == code)
      && (rootReaped ==> code.Some? && !Owned(kernel, kernel.root))
      && (settled ==> rootReaped && Gone(kernel))
      && reported == (if code.Some? then [code.value] else [])
      && (forall p :: p in signalled ==> p.owned)
    }

    constructor (kernel: Kernel, schedule: seq<seq<KernelEvent>>)
      requires Inv(kernel) && Held(kernel, kernel.root) && Owned(kernel, kernel.root)
      ensures Valid() && this.kernel == kernel && this.schedule == schedule
      ensures code == None && !rootReaped && !settled && signalled == [] && signals == 0
    {
      this.kernel, this.schedule := kernel, schedule;
      code, rootReaped, settled, reported, reaped, signalled, signals := None, false, false, [], 0, [], 0;
    }

    /** The root's exit can be seen, or has been. */
    ghost predicate RootExited()
      reads this
    {
      code.Some? || (kernel.root in kernel.table && kernel.table[kernel.root].exit.Some?)
    }

    /** Time passes: the other processes take their steps. */
    method Elapse()
      requires Valid()
      modifies `kernel, `schedule
      ensures Valid() && Later(old(kernel), kernel) && |old(schedule)| - 1 <= |schedule| <= |old(schedule)|
      ensures old(schedule) != [] ==> |schedule| < |old(schedule)|
      ensures Quiet(old(schedule)) ==> Quiet(schedule) && kernel == old(kernel)
    {
      if schedule != [] {
        ElapsedKeeps(kernel, schedule[0]);
        assert HeldOn(kernel, Elapsed(kernel, schedule[0]), kernel.root);
        kernel, schedule := Elapsed(kernel, schedule[0]), schedule[1..];
      }
    }

    /** `observe`: notice the root's exit without reaping it, and report it once. */
    method Observe() returns (seen: Option<int>)
      requires Valid()
      modifies `kernel, `schedule, `code, `reported
      ensures Valid() && Later(old(kernel), kernel) && seen == code
      ensures |old(schedule)| - 1 <= |schedule| <= |old(schedule)|
      ensures old(code).Some? ==> code == old(code) && kernel == old(kernel)
      ensures code.None? ==> !Gone(kernel)
      ensures Quiet(old(schedule)) ==> Quiet(schedule) && kernel == old(kernel) && (code.Some? <==> old(RootExited()))
    {
      if code.None? {
        Elapse();
        var exit := kernel.table[kernel.root].exit;
        if exit.Some? {
          code := exit;
          reported := reported + [exit.value];
        }
      } else {
        LaterIsReflexive(kernel);
      }
      seen := code;
    }

    /** `waitid` on the group, leaving the child waitable. */
    method ObserveGroup() returns (seen: Observation)
      requires Valid()
      modifies `kernel, `schedule
      ensures Valid() && Later(old(kernel), kernel) && |old(schedule)| - 1 <= |schedule| <= |old(schedule)|
      ensures seen.NoChild? <==> Gone(kernel)
      ensures seen.NoneExited? ==> SomeAlive(kernel)
      ensures Quiet(old(schedule)) ==> Quiet(schedule) && kernel == old(kernel)
      ensures seen.Exited? ==>
                && Held(kernel, seen.pid) && Owned(kernel, seen.pid) && kernel.table[seen.pid].exit == Some(seen.status)
    {
      Elapse();
      var k := kernel;
      NoChildMeansGone(k);
      var children := set p | p in k.table && k.table[p].parent == k.guardian && k.table[p].group == k.root && p != k.guardian;
      var zombies := set p | p in children && k.table[p].exit.Some?;
      if children == {} {
        forall p | Held(k, p) && k.table[p].group == k.root
          ensures p == k.guardian
        {
          assert p !in children;
        }
        seen := NoChild;
      } else {
        var c :| c in children;
        assert Held(k, c) && k.table[c].group == k.root;
        if zombies == {} {
          assert Outside(k, c) && c !in zombies;
          assert Owned(k, c) && Alive(k, c);
          seen := NoneExited;
        } else {
          var z :| z in zombies;
          assert Outside(k, z);
          seen := Exited(z, k.table[z].exit.value);
        }
      }
    }

    /** `waitpid` for a child already seen to have exited. */
    method ReapChild(pid: Pid)
      requires Valid() && Held(kernel, pid) && Owned(kernel, pid) && kernel.table[pid].exit.Some?
      requires pid == kernel.root && !rootReaped ==> code.Some?
      modifies `kernel, `schedule, `rootReaped, `reaped
      ensures Valid() && |old(schedule)| - 1 <= |schedule| <= |old(schedule)|
      ensures kernel.guardian == old(kernel).guardian && kernel.root == old(kernel).root
      ensures rootReaped == (old(rootReaped) || pid == old(kernel).root)
      ensures !Gone(old(kernel))
      ensures settled ==> old(settled)
      ensures reaped == old(reaped) + 1
      ensures Quiet(old(schedule)) ==>
                Quiet(schedule) && kernel == old(kernel).(table := old(kernel).table - {pid})
    {
      assert InTree(kernel, pid);
      ghost var before := kernel;
      Elapse();
      assert HeldOn(before, kernel, pid) && InTree(kernel, pid);
      ReapKeeps(kernel, pid);
      if pid == kernel.root {
        rootReaped := true;
      }
      kernel, reaped := kernel.(table := kernel.table - {pid}), reaped + 1;
    }

    /** `settled`: true only when nothing of the command is left. It can miss that by one round: it is
      * false with nothing left exactly when it has just reaped its 64th child. */
    method Settled() returns (yes: bool)
      requires Valid()
      modifies `kernel, `schedule, `code, `reported, `rootReaped, `settled, `reaped
      ensures Valid() && yes == settled && |old(schedule)| - 2 - 2 * REAP_ROUNDS <= |schedule| <= |old(schedule)|
      ensures yes ==> Gone(kernel)
      ensures old(settled) ==> yes && kernel == old(kernel) && reaped == old(reaped)
      ensures kernel.guardian == old(kernel).guardian && kernel.root == old(kernel).root
      ensures Gone(old(kernel)) ==> Gone(kernel)
      ensures !yes && Gone(kernel) ==>
                rootReaped && reaped == old(reaped) + REAP_ROUNDS + (if old(rootReaped) then 0 else 1)
      ensures Quiet(old(schedule)) && !old(settled) ==>
                && Quiet(schedule)
                && (yes <==> old(RootExited()) && AllExited(old(kernel)) && |Rest(old(kernel))| < REAP_ROUNDS)
                && (!yes && Gone(kernel) <==>
                      old(RootExited()) && AllExited(old(kernel)) && |Rest(old(kernel))| == REAP_ROUNDS)
    {
      if settled {
        return true;
      }
      ghost var start, quiet := kernel, Quiet(schedule);
      var seen := Observe();
      if seen.None? {
        return false;
      }
      ghost var base := reaped;
      if rootReaped {
        NothingReaped(start);
      } else {
        ReapedRoot(start);
        base := base + 1;
        ReapChild(kernel.root);
      }
      for round := 0 to REAP_ROUNDS
        invariant Valid() && rootReaped && !settled
        invariant |old(schedule)| - 2 - 2 * round <= |schedule| <= |old(schedule)|
        invariant kernel.guardian == old(kernel).guardian && kernel.root == old(kernel).root
        invariant Gone(old(kernel)) ==> Gone(kernel)
        invariant reaped == base + round
        invariant quiet ==> Quiet(schedule) && Reaped(start, kernel, round)
      {
        var child := ObserveGroup();
        if quiet {
          GoneIsReaped(start, kernel, round);
        }
        if child.NoChild? {
          settled := true;
          return true;
        }
        if child.NoneExited? {
          return false;
        }
        if quiet {
          ReapedOne(start, kernel, round, child.pid);
        }
        ReapChild(child.pid);
      }
      if quiet {
        GoneIsReaped(start, kernel, REAP_ROUNDS);
      }
      yes := false;
    }

    /** Everything in the root's group has just been signalled, and nothing else. */
    ghost predicate SignalledNow(before: seq<Process>)
      reads this
    {
      && before <= signalled
      && (forall p :: p in kernel.table && kernel.table[p].group == kernel.root ==>
            kernel.table[p] in signalled[|before|..])
      && (forall q :: q in signalled[|before|..] ==> q in kernel.table.Values && q.group == kernel.root)
    }

    /** `stop`: signal the group unless it is settled. It raises when the rounds of `settled` ran out just
      * as the group became empty: nothing is left then, nothing is sent, and exactly 64 children besides
      * the root were reaped. If nobody else does anything, that happens exactly when the root and all the
      * others have exited and 64 others are left to reap. */
    method Stop() returns (raised: bool)
      requires Valid()
      modifies this
      ensures Valid() && |old(schedule)| - 4 - 2 * REAP_ROUNDS <= |schedule| <= |old(schedule)|
      ensures signals == old(signals) + if raised || settled then 0 else 1
      ensures kernel.guardian == old(kernel).guardian && kernel.root == old(kernel).root
      ensures raised ==> Gone(kernel) && !settled && signalled == old(signalled)
      ensures raised ==> reaped == old(reaped) + REAP_ROUNDS + (if old(rootReaped) then 0 else 1)
      ensures Quiet(old(schedule)) ==>
                (raised <==> !old(settled) && old(RootExited()) && AllExited(old(kernel))
                             && |Rest(old(kernel))| == REAP_ROUNDS)
      ensures settled ==> signalled == old(signalled)
      ensures !raised && !settled ==> SignalledNow(old(signalled))
      ensures old(settled) ==> settled && !raised && kernel == old(kernel)
    {
      var done := Settled();
      if done {
        return false;
      }
      NothingVanishes(kernel);
      var seen := ObserveGroup();
      if seen.NoChild? {
        return true;
      }
      SomeOwned(kernel);
      ghost var p :| Owned(kernel, p);
      ghost var held := ChainEndsAtGuardian(kernel, p);
      ghost var before := kernel;
      Elapse();
      assert HeldOn(before, kernel, held);
      Signal(held);
      raised := false;
    }

    /** `killpg`: reaches every process in the group with the root's number, whoever that is. */
    method Signal(ghost held: Pid)
      requires Valid() && Held(kernel, held) && Owned(kernel, held)
      modifies `signalled, `signals
      ensures Valid() && SignalledNow(old(signalled)) && signals == old(signals) + 1
    {
      ghost var k := kernel;
      ghost var members := set p | p in k.table && k.table[p].group == k.root;
      forall p | p in members
        ensures k.table[p].owned
      {
        HeldChildPinsTheGroup(k, held, p);
      }
      ghost var rest, reachable := members, [];
      while rest != {}
        invariant rest <= members
        invariant forall p :: p in members - rest ==> k.table[p] in reachable
        invariant forall q :: q in reachable ==> q in k.table.Values && q.group == k.root && q.owned
        decreases |rest|
      {
        ghost var p :| p in rest;
        reachable := reachable + [k.table[p]];
        rest := rest - {p};
      }
      assert (signalled + reachable)[|signalled|..] == reachable;
      signalled, signals := signalled + reachable, signals + 1;
    }

    /** `cleanup`, as long as the schedule says what the other processes do: when it returns, nothing
      * is left, and every signal it sent reached the command only. As long as something is left, it signals
      * again and again: there is no run of `ROUND` system calls and pauses without a signal. */
    method Cleanup() returns (raised: bool, finished: bool)
      requires Valid()
      modifies this
      ensures Valid()
      ensures finished ==> Gone(kernel) && settled
      ensures raised ==> Gone(kernel) && !finished
      ensures !finished && !raised ==> schedule == []
      ensures forall p :: p in signalled ==> p.owned
      ensures |old(schedule)| - |schedule| <= ROUND * (signals - old(signals) + 2)
    {
      raised, finished := false, false;
      while true
        invariant Valid() && !raised && !finished
        invariant |schedule| <= |old(schedule)| && signals >= old(signals)
        invariant |old(schedule)| - |schedule| <= ROUND * (signals - old(signals) + if settled then 1 else 0)
        decreases |schedule|
      {
        var done := Settled();
        if done {
          return false, true;
        }
        if schedule == [] {
          return;
        }
        raised := Stop();
        if raised {
          return;
        }
        Elapse();
      }
    }
  }

  /** Only the guardian's own reaping empties the group. */
  lemma NothingVanishes(k: Kernel)
    requires Inv(k)
    ensures forall n: Kernel {:trigger Later(k, n)} :: Later(k, n) && Gone(n) ==> Gone(k)
  {
    if p :| Owned(k, p) {
      var held := ChainEndsAtGuardian(k, p);
      forall n: Kernel {:trigger Later(k, n)} | Later(k, n)
        ensures Owned(n, held)
      {
        assert HeldOn(k, n, held);
      }
    }
  }

  lemma NothingReaped(k: Kernel)
    ensures Reaped(k, k, 0)
  {
  }

  lemma LaterIsReflexive(k: Kernel)
    ensures Later(k, k)
  {
  }

  // --- a kernel at which `stop` raises ---------------------------------------------------------

  function Pids(low: Pid, high: Pid): (pids: set<Pid>)
    requires low <= high
    ensures |pids| == high - low && forall p :: p in pids <==> low <= p < high
    decreases high - low
  {
    if low == high then {} else {low} + Pids(low + 1, high)
  }

  /** The guardian 1, the exited root 2, and 64 exited processes that the guardian has adopted. */
  function CrowdedKernel(): Kernel {
    Kernel(1, 2, map p | p in Pids(1, 67) ::
             Process(1, if p == 1 then 1 else 2, if p == 1 then None else Some(0), p != 1, if p < 3 then p else 3), 4)
  }

  lemma CrowdedKernelFits()
    ensures var k := CrowdedKernel(); Inv(k) && Held(k, 2) && Owned(k, 2) && AllExited(k) && |Rest(k)| == REAP_ROUNDS
  {
    hide Pids;
    var k := CrowdedKernel();
    forall p
      ensures InTree(k, p) && Outside(k, p) && Parented(k, p)
    {
    }
    assert Rest(k) == Pids(3, 67);
  }

  /** `stop` does raise: here, with nobody else doing anything. */
  method StopRaises() returns (raised: bool)
    ensures raised
  {
    CrowdedKernelFits();
    var invocation := new Invocation(CrowdedKernel(), []);
    raised := invocation.Stop();
  }
}
