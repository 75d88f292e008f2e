/** The bounded job scheduler of src/Processor.php.

    A queued command is started at most once per pass of the poll loop, and
    only while fewer than `threads` are running; every pass then polls the
    running processes in start order.  The operating-system processes are
    abstract: a process answers "still running" to a fixed number of polls
    (its duration) and then reports whether it exited successfully. */
module Processor {
  import opened Wrappers

  /** What the operating system will do with a command once started. */
  datatype Behaviour = Behaviour(duration: nat, successful: bool)

  /** A process created from a command, not yet started. */
  datatype Process = Process(command: string, duration: nat, successful: bool)

  /** A started process and the number of polls it will still answer "running". */
  datatype Started = Started(process: Process, left: nat)

  /** The calls a client makes on a processor, in order. */
  datatype Event = Added(command: string) | Ran

  datatype RunResult = Completed(processes: seq<Process>) | QueueEmpty | ProcessFailed(process: Process)

  function Processes(rs: seq<Started>): seq<Process> {
    if rs == [] then [] else [rs[0].process] + Processes(rs[1..])
  }

  lemma {:induction false} ProcessesAppend(a: seq<Started>, b: seq<Started>)
    ensures Processes(a + b) == Processes(a) + Processes(b)
  {
    if a != [] {
      assert (a + b)[0] == a[0];
      assert (a + b)[1..] == a[1..] + b;
      ProcessesAppend(a[1..], b);
      calc {
        Processes(a + b);
        [a[0].process] + Processes(a[1..] + b);
        [a[0].process] + (Processes(a[1..]) + Processes(b));
        ([a[0].process] + Processes(a[1..])) + Processes(b);
      }
    } else {
      assert a + b == b;
    }
  }

  ghost predicate AllSuccessful(ps: seq<Process>) {
    forall p | p in ps :: p.successful
  }

  /** Polls still owed by queued processes (one more each, for the poll that sees it finish). */
  function Work(q: seq<Process>): nat {
    if q == [] then 0 else q[0].duration + 1 + Work(q[1..])
  }

  /** Polls still owed by running processes. */
  function Pending(rs: seq<Started>): nat {
    if rs == [] then 0 else rs[0].left + 1 + Pending(rs[1..])
  }

  lemma {:induction false} PendingAppend(rs: seq<Started>, s: Started)
    ensures Pending(rs + [s]) == Pending(rs) + s.left + 1
  {
    if rs != [] {
      assert (rs + [s])[1..] == rs[1..] + [s];
      PendingAppend(rs[1..], s);
    }
  }

  // ---------------------------------------------------------------------
  // The start step of a pass
  // ---------------------------------------------------------------------

  datatype Start = Start(queued: seq<Process>, running: seq<Started>, started: seq<Process>)

  /** The start step of a pass: the head of the queue is started when a slot is free. */
  function StartNext(q: seq<Process>, rs: seq<Started>, threads: int): (s: Start)
    // the started process, if any, is taken from the front of the queue
    ensures q == s.started + s.queued
    ensures |s.started| == (if q != [] && |rs| < threads then 1 else 0)
    // and joins the back of the running list, with its full duration still to run
    ensures s.started == [] ==> s.running == rs
    ensures s.started != [] ==> s.running == rs + [Started(s.started[0], s.started[0].duration)]
    ensures |rs| <= threads ==> |s.running| <= threads
  {
    if q != [] && |rs| < threads then
      Start(q[1..], rs + [Started(q[0], q[0].duration)], [q[0]])
    else
      Start(q, rs, [])
  }

  /** Starting a process moves its polls from the queue to the running list. */
  lemma StartNextWork(q: seq<Process>, rs: seq<Started>, threads: int)
    ensures var s := StartNext(q, rs, threads);
            Work(s.queued) + Pending(s.running) == Work(q) + Pending(rs)
  {
    if q != [] && |rs| < threads {
      PendingAppend(rs, Started(q[0], q[0].duration));
    }
  }

  /** Starting a process moves it from the queue to the running list. */
  lemma StartConserves(q: seq<Process>, rs: seq<Started>, threads: int)
    ensures var s := StartNext(q, rs, threads);
            multiset(q) + multiset(Processes(rs)) == multiset(s.queued) + multiset(Processes(s.running))
  {
    var s := StartNext(q, rs, threads);
    if s.started != [] {
      var x := Started(s.started[0], s.started[0].duration);
      ProcessesAppend(rs, [x]);
      assert [x][1..] == [];
      assert Processes([x]) == [s.started[0]];
    }
  }

  // ---------------------------------------------------------------------
  // The sweep step of a pass
  // ---------------------------------------------------------------------

  /** What a sweep over the running processes leaves behind: the processes
      still running, those seen finished successfully (in sweep order), and
      the first one seen finished unsuccessfully, if any. */
  datatype Sweep = Sweep(running: seq<Started>, finished: seq<Process>, failed: Option<Process>)

  /** The sweep step of a pass: each running process is polled in start order;
      a process that is still running stays, one poll nearer its end; a
      successful one moves to the finished list; the first failed one stops
      the sweep and stays in the running list, with the unpolled rest. */
  function SweepRunning(rs: seq<Started>): (w: Sweep)
    ensures |w.running| <= |rs|
    decreases |rs|
  {
    if rs == [] then Sweep([], [], None)
    else
      var s := rs[0];
      assert rs == [s] + rs[1..];
      if s.left > 0 then
        var w := SweepRunning(rs[1..]);
        Sweep([Started(s.process, s.left - 1)] + w.running, w.finished, w.failed)
      else if !s.process.successful then
        Sweep(rs, [], Some(s.process))
      else
        var w := SweepRunning(rs[1..]);
        Sweep(w.running, [s.process] + w.finished, w.failed)
  }

  /** Polling one running process. */
  lemma SweepOne(s: Started)
    ensures SweepRunning([s])
         == if s.left > 0 then Sweep([Started(s.process, s.left - 1)], [], None)
            else if !s.process.successful then Sweep([s], [], Some(s.process))
            else Sweep([], [s.process], None)
  {
    assert [s][1..] == [];
  }

  /** Polling a running list is polling its first process, then the rest. */
  lemma SweepCons(s: Started, rest: seq<Started>)
    ensures SweepRunning([s] + rest)
         == if s.left > 0 then
              var w := SweepRunning(rest);
              Sweep([Started(s.process, s.left - 1)] + w.running, w.finished, w.failed)
            else if !s.process.successful then Sweep([s] + rest, [], Some(s.process))
            else
              var w := SweepRunning(rest);
              Sweep(w.running, [s.process] + w.finished, w.failed)
  {
    assert ([s] + rest)[1..] == rest;
  }

  /** A sweep without failure polls every running process once. */
  lemma {:induction false} SweepPending(rs: seq<Started>)
    ensures var w := SweepRunning(rs);
            w.failed.None? ==> Pending(w.running) + |rs| == Pending(rs)
    decreases |rs|
  {
    if rs != [] {
      assert rs == [rs[0]] + rs[1..];
      SweepPending(rs[1..]);
    }
  }

  /** A sweep loses and duplicates no process. */
  lemma {:induction false} SweepConserves(rs: seq<Started>)
    ensures var w := SweepRunning(rs);
            multiset(Processes(w.running)) + multiset(w.finished) == multiset(Processes(rs))
    decreases |rs|
  {
    if rs != [] {
      var s := rs[0];
      assert rs == [s] + rs[1..];
      ProcessesAppend([s], rs[1..]);
      SweepConserves(rs[1..]);
      var w := SweepRunning(rs[1..]);
      if s.left > 0 {
        ProcessesAppend([Started(s.process, s.left - 1)], w.running);
      }
    }
  }

  /** A sweep finishes only successful processes. */
  lemma {:induction false} SweepFinishesSuccessful(rs: seq<Started>)
    ensures AllSuccessful(SweepRunning(rs).finished)
    decreases |rs|
  {
    if rs != [] {
      assert rs == [rs[0]] + rs[1..];
      SweepFinishesSuccessful(rs[1..]);
    }
  }

  /** A failure a sweep reports is an unsuccessful process left running. */
  lemma {:induction false} SweepFailure(rs: seq<Started>)
    ensures var w := SweepRunning(rs);
            w.failed.Some? ==> !w.failed.value.successful && w.failed.value in Processes(w.running)
    decreases |rs|
  {
    if rs != [] {
      var s := rs[0];
      assert rs == [s] + rs[1..];
      ProcessesAppend([s], rs[1..]);
      SweepFailure(rs[1..]);
      var w := SweepRunning(rs[1..]);
      if s.left > 0 {
        ProcessesAppend([Started(s.process, s.left - 1)], w.running);
      }
    }
  }

  /** The first i entries of a running list have been polled, leaving kept
      and finished, and the rest of the sweep is still to come. */
  ghost predicate SweptPrefix(rs: seq<Started>, i: nat, kept: seq<Started>, finished: seq<Process>)
    requires i <= |rs|
  {
    var w := SweepRunning(rs[i..]);
    SweepRunning(rs) == Sweep(kept + w.running, finished + w.finished, w.failed)
  }

  lemma SweepStepRunning(rs: seq<Started>, i: nat, kept: seq<Started>, finished: seq<Process>)
    requires i < |rs| && rs[i].left > 0 && SweptPrefix(rs, i, kept, finished)
    ensures SweptPrefix(rs, i + 1, kept + [Started(rs[i].process, rs[i].left - 1)], finished)
  {
    var rest := rs[i..];
    var w := SweepRunning(rs[i + 1..]);
    var x := Started(rs[i].process, rs[i].left - 1);
    assert SweepRunning(rest) == Sweep([x] + w.running, w.finished, w.failed) by {
      assert rest == [rs[i]] + rs[i + 1..];
      SweepCons(rs[i], rs[i + 1..]);
    }
    assert kept + ([x] + w.running) == (kept + [x]) + w.running;
  }

  lemma SweepStepFinished(rs: seq<Started>, i: nat, kept: seq<Started>, finished: seq<Process>)
    requires i < |rs| && rs[i].left == 0 && rs[i].process.successful && SweptPrefix(rs, i, kept, finished)
    ensures SweptPrefix(rs, i + 1, kept, finished + [rs[i].process])
  {
    var rest := rs[i..];
    var w := SweepRunning(rs[i + 1..]);
    assert SweepRunning(rest) == Sweep(w.running, [rs[i].process] + w.finished, w.failed) by {
      assert rest == [rs[i]] + rs[i + 1..];
      SweepCons(rs[i], rs[i + 1..]);
    }
    assert finished + ([rs[i].process] + w.finished) == (finished + [rs[i].process]) + w.finished;
  }

  lemma SweepStepFailed(rs: seq<Started>, i: nat, kept: seq<Started>, finished: seq<Process>)
    requires i < |rs| && rs[i].left == 0 && !rs[i].process.successful && SweptPrefix(rs, i, kept, finished)
    ensures SweepRunning(rs) == Sweep(kept + rs[i..], finished, Some(rs[i].process))
  {
    var rest := rs[i..];
    var w := SweepRunning(rest);
    assert w == Sweep(rest, [], Some(rs[i].process)) by {
      assert rest == [rs[i]] + rs[i + 1..];
      SweepCons(rs[i], rs[i + 1..]);
    }
    assert finished + w.finished == finished;
    calc {
      SweepRunning(rs);
      Sweep(kept + w.running, finished + w.finished, w.failed);
      Sweep(kept + rest, finished, Some(rs[i].process));
    }
  }

  lemma SweptAll(rs: seq<Started>, kept: seq<Started>, finished: seq<Process>)
    requires SweptPrefix(rs, |rs|, kept, finished)
    ensures SweepRunning(rs) == Sweep(kept, finished, None)
  {
    assert rs[|rs|..] == [];
    assert kept + [] == kept && finished + [] == finished;
  }

  // ---------------------------------------------------------------------
  // The poll loop
  // ---------------------------------------------------------------------

  /** The state the poll loop stops in: remaining queue and running list,
      the completed processes in completion order, and the failure that
      stopped it, if any. */
  datatype Drained = Drained(queued: seq<Process>, running: seq<Started>, completed: seq<Process>, failed: Option<Process>)

  /** The poll loop, from a queue, a running list and what has been
      completed so far.  It stops when nothing is queued or running, or at
      the first process seen finished unsuccessfully. */
  function Drain(q: seq<Process>, rs: seq<Started>, threads: int, completed: seq<Process>): (d: Drained)
    requires threads >= 1
    // a normal stop leaves nothing queued and nothing running
    ensures d.failed.None? ==> d.queued == [] && d.running == []
    decreases Work(q) + Pending(rs)
  {
    if q == [] && rs == [] then
      Drained([], [], completed, None)
    else
      var s := StartNext(q, rs, threads);
      var w := SweepRunning(s.running);
      if w.failed.Some? then
        Drained(s.queued, w.running, completed + w.finished, w.failed)
      else
        StartNextWork(q, rs, threads);
        SweepPending(s.running);
        Drain(s.queued, w.running, threads, completed + w.finished)
  }

  /** One pass of the poll loop, from a state with something queued or running. */
  lemma DrainPass(q: seq<Process>, rs: seq<Started>, threads: int, completed: seq<Process>)
    requires threads >= 1 && (q != [] || rs != [])
    ensures var s := StartNext(q, rs, threads);
            var w := SweepRunning(s.running);
            (Drain(q, rs, threads, completed)
             == if w.failed.Some? then Drained(s.queued, w.running, completed + w.finished, w.failed)
                else Drain(s.queued, w.running, threads, completed + w.finished))
  {
  }

  /** A failure stop names an unsuccessful process, left in the running list. */
  lemma {:induction false} DrainFailure(q: seq<Process>, rs: seq<Started>, threads: int, completed: seq<Process>)
    requires threads >= 1
    ensures var d := Drain(q, rs, threads, completed);
            d.failed.Some? ==> !d.failed.value.successful && d.failed.value in Processes(d.running)
    decreases Work(q) + Pending(rs)
  {
    if !(q == [] && rs == []) {
      var s := StartNext(q, rs, threads);
      var w := SweepRunning(s.running);
      DrainPass(q, rs, threads, completed);
      if w.failed.None? {
        StartNextWork(q, rs, threads);
        SweepPending(s.running);
        DrainFailure(s.queued, w.running, threads, completed + w.finished);
      } else {
        SweepFailure(s.running);
      }
    }
  }

  /** Processes are started in queue order: what is still queued when the
      loop stops is a suffix of the queue it started with. */
  lemma {:induction false} DrainLeavesSuffix(q: seq<Process>, rs: seq<Started>, threads: int, completed: seq<Process>)
    requires threads >= 1
    ensures var d := Drain(q, rs, threads, completed);
            |d.queued| <= |q| && d.queued == q[|q| - |d.queued|..]
    decreases Work(q) + Pending(rs)
  {
    if !(q == [] && rs == []) {
      var s := StartNext(q, rs, threads);
      var w := SweepRunning(s.running);
      DrainPass(q, rs, threads, completed);
      var k := |s.started|;
      assert s.queued == q[k..];
      if w.failed.None? {
        StartNextWork(q, rs, threads);
        SweepPending(s.running);
        DrainLeavesSuffix(s.queued, w.running, threads, completed + w.finished);
        var d := Drain(s.queued, w.running, threads, completed + w.finished);
        var j := |s.queued| - |d.queued|;
        assert q[k..][j..] == q[k + j..];
      }
    }
  }

  /** Completed processes are only ever appended. */
  lemma {:induction false} DrainExtendsCompleted(q: seq<Process>, rs: seq<Started>, threads: int, completed: seq<Process>)
    requires threads >= 1
    ensures completed <= Drain(q, rs, threads, completed).completed
    decreases Work(q) + Pending(rs)
  {
    if !(q == [] && rs == []) {
      var s := StartNext(q, rs, threads);
      var w := SweepRunning(s.running);
      DrainPass(q, rs, threads, completed);
      if w.failed.None? {
        StartNextWork(q, rs, threads);
        SweepPending(s.running);
        DrainExtendsCompleted(s.queued, w.running, threads, completed + w.finished);
      }
    }
  }

  /** Only successful processes are ever completed. */
  lemma {:induction false} DrainCompletesSuccessful(q: seq<Process>, rs: seq<Started>, threads: int, completed: seq<Process>)
    requires threads >= 1 && AllSuccessful(completed)
    ensures AllSuccessful(Drain(q, rs, threads, completed).completed)
    decreases Work(q) + Pending(rs)
  {
    if !(q == [] && rs == []) {
      var s := StartNext(q, rs, threads);
      var w := SweepRunning(s.running);
      DrainPass(q, rs, threads, completed);
      SweepFinishesSuccessful(s.running);
      assert AllSuccessful(completed + w.finished);
      if w.failed.None? {
        StartNextWork(q, rs, threads);
        SweepPending(s.running);
        DrainCompletesSuccessful(s.queued, w.running, threads, completed + w.finished);
      }
    }
  }

  /** No more than `threads` processes are ever running. */
  lemma {:induction false} DrainKeepsCap(q: seq<Process>, rs: seq<Started>, threads: int, completed: seq<Process>)
    requires threads >= 1 && |rs| <= threads
    ensures |Drain(q, rs, threads, completed).running| <= threads
    decreases Work(q) + Pending(rs)
  {
    if !(q == [] && rs == []) {
      var s := StartNext(q, rs, threads);
      var w := SweepRunning(s.running);
      DrainPass(q, rs, threads, completed);
      if w.failed.None? {
        StartNextWork(q, rs, threads);
        SweepPending(s.running);
        DrainKeepsCap(s.queued, w.running, threads, completed + w.finished);
      }
    }
  }

  /** What a pass leaves in the queue, the running list and the completed list
      is what was there before. */
  lemma PassConserves(q: seq<Process>, rs: seq<Started>, threads: int, completed: seq<Process>)
    ensures var s := StartNext(q, rs, threads);
            var w := SweepRunning(s.running);
            (multiset(q) + multiset(Processes(rs)) + multiset(completed)
             == multiset(s.queued) + multiset(Processes(w.running)) + multiset(completed + w.finished))
  {
    var s := StartNext(q, rs, threads);
    var w := SweepRunning(s.running);
    StartConserves(q, rs, threads);
    SweepConserves(s.running);
    calc {
      multiset(q) + multiset(Processes(rs)) + multiset(completed);
      multiset(s.queued) + multiset(Processes(s.running)) + multiset(completed);
      multiset(s.queued) + (multiset(Processes(w.running)) + multiset(w.finished)) + multiset(completed);
      multiset(s.queued) + multiset(Processes(w.running)) + multiset(completed + w.finished);
    }
  }

  /** The poll loop loses and duplicates no process. */
  lemma {:induction false} DrainConserves(q: seq<Process>, rs: seq<Started>, threads: int, completed: seq<Process>)
    requires threads >= 1
    ensures var d := Drain(q, rs, threads, completed);
            (multiset(q) + multiset(Processes(rs)) + multiset(completed)
             == multiset(d.queued) + multiset(Processes(d.running)) + multiset(d.completed))
    decreases Work(q) + Pending(rs)
  {
    if !(q == [] && rs == []) {
      var s := StartNext(q, rs, threads);
      var w := SweepRunning(s.running);
      DrainPass(q, rs, threads, completed);
      PassConserves(q, rs, threads, completed);
      if w.failed.None? {
        StartNextWork(q, rs, threads);
        SweepPending(s.running);
        DrainConserves(s.queued, w.running, threads, completed + w.finished);
      }
    }
  }

  /** A run that ends normally has completed every submitted process exactly
      once, and only successful ones. */
  lemma RunCompletesEachOnce(q: seq<Process>, threads: int)
    requires threads >= 1
    ensures var d := Drain(q, [], threads, []);
            d.failed.None? ==> multiset(d.completed) == multiset(q) && AllSuccessful(d.completed)
  {
    var d := Drain(q, [], threads, []);
    DrainConserves(q, [], threads, []);
    DrainCompletesSuccessful(q, [], threads, []);
    if d.failed.None? {
      assert d.queued == [] && d.running == [];
      assert Processes([]) == [];
      calc {
        multiset(q);
        multiset(q) + multiset(Processes([])) + multiset([]);
        multiset(d.queued) + multiset(Processes(d.running)) + multiset(d.completed);
        multiset(d.completed);
      }
    }
  }

  /** Two splits of one multiset of processes: when every process of the first
      is successful, so is every process of the second. */
  lemma SuccessfulMoved(a: seq<Process>, b: seq<Process>, c: seq<Process>, d: seq<Process>)
    requires multiset(a) + multiset(b) == multiset(c) + multiset(d)
    requires AllSuccessful(a) && AllSuccessful(b)
    ensures AllSuccessful(c) && AllSuccessful(d)
  {
    forall x | x in c ensures x.successful {
      assert x in multiset(c) + multiset(d);
    }
    forall x | x in d ensures x.successful {
      assert x in multiset(c) + multiset(d);
    }
  }

  /** The process a run fails with was queued or running when the run began,
      and it was not successful. */
  lemma DrainFailedQueued(q: seq<Process>, rs: seq<Started>, threads: int)
    requires threads >= 1
    ensures var d := Drain(q, rs, threads, []);
            d.failed.Some? ==> !d.failed.value.successful && (d.failed.value in q || d.failed.value in Processes(rs))
  {
    var d := Drain(q, rs, threads, []);
    DrainFailure(q, rs, threads, []);
    DrainConserves(q, rs, threads, []);
    if d.failed.Some? {
      var x := d.failed.value;
      assert x in multiset(d.queued) + multiset(Processes(d.running)) + multiset(d.completed);
      assert x in multiset(q) + multiset(Processes(rs)) + multiset([]);
    }
  }

  /** A sweep over successful processes reports no failure and keeps only successful ones. */
  lemma {:induction false} SweepSucceeds(rs: seq<Started>)
    requires AllSuccessful(Processes(rs))
    ensures SweepRunning(rs).failed.None? && AllSuccessful(Processes(SweepRunning(rs).running))
    decreases |rs|
  {
    if rs != [] {
      var s := rs[0];
      assert rs == [s] + rs[1..];
      ProcessesAppend([s], rs[1..]);
      assert [s][1..] == [];
      assert s.process in Processes(rs);
      SweepSucceeds(rs[1..]);
      var w := SweepRunning(rs[1..]);
      if s.left > 0 {
        ProcessesAppend([Started(s.process, s.left - 1)], w.running);
      }
    }
  }

  /** A run whose queued and running processes are all successful does not fail. */
  lemma {:induction false} DrainSucceeds(q: seq<Process>, rs: seq<Started>, threads: int, completed: seq<Process>)
    requires threads >= 1 && AllSuccessful(q) && AllSuccessful(Processes(rs))
    ensures Drain(q, rs, threads, completed).failed.None?
    decreases Work(q) + Pending(rs)
  {
    if !(q == [] && rs == []) {
      var s := StartNext(q, rs, threads);
      var w := SweepRunning(s.running);
      DrainPass(q, rs, threads, completed);
      StartConserves(q, rs, threads);
      SuccessfulMoved(q, Processes(rs), s.queued, Processes(s.running));
      SweepSucceeds(s.running);
      StartNextWork(q, rs, threads);
      SweepPending(s.running);
      DrainSucceeds(s.queued, w.running, threads, completed + w.finished);
    }
  }

  /** From an idle processor, a run ends normally exactly when every queued
      process is successful. */
  lemma RunSucceedsIff(q: seq<Process>, threads: int)
    requires threads >= 1
    ensures Drain(q, [], threads, []).failed.None? <==> AllSuccessful(q)
  {
    var d := Drain(q, [], threads, []);
    assert Processes([]) == [];
    RunCompletesEachOnce(q, threads);
    if d.failed.None? {
      forall x | x in q ensures x.successful {
        assert x in multiset(d.completed);
      }
    }
    if AllSuccessful(q) {
      DrainSucceeds(q, [], threads, []);
    }
  }

  // ---------------------------------------------------------------------
  // Small runs, worked out
  // ---------------------------------------------------------------------

  /** A pass with nothing queued only sweeps. */
  lemma SweepOnlyPass(rs: seq<Started>, threads: int, completed: seq<Process>)
    requires threads >= 1 && rs != []
    ensures var w := SweepRunning(rs);
            (Drain([], rs, threads, completed)
             == if w.failed.Some? then Drained([], w.running, completed + w.finished, w.failed)
                else Drain([], w.running, threads, completed + w.finished))
  {
    assert StartNext([], rs, threads) == Start([], rs, []);
    DrainPass([], rs, threads, completed);
  }

  /** Starting the last queued process leads to the same state as finding it
      already running, with nothing queued. */
  lemma StartLast(p: Process, rs: seq<Started>, threads: int, completed: seq<Process>)
    requires threads >= 1 && |rs| < threads
    ensures Drain([p], rs, threads, completed) == Drain([], rs + [Started(p, p.duration)], threads, completed)
  {
    var rs' := rs + [Started(p, p.duration)];
    assert [p][1..] == [];
    assert StartNext([p], rs, threads) == Start([], rs', [p]);
    assert StartNext([], rs', threads) == Start([], rs', []);
    DrainPass([p], rs, threads, completed);
    DrainPass([], rs', threads, completed);
  }

  /** A lone running process is polled until it finishes; it is then either
      completed or reported as the failure. */
  lemma {:induction false} LoneRunning(p: Process, left: nat, threads: int, completed: seq<Process>)
    requires threads >= 1
    ensures Drain([], [Started(p, left)], threads, completed)
         == if p.successful then Drained([], [], completed + [p], None)
            else Drained([], [Started(p, 0)], completed, Some(p))
    decreases left
  {
    SweepOne(Started(p, left));
    SweepOnlyPass([Started(p, left)], threads, completed);
    if left > 0 {
      assert completed + [] == completed;
      LoneRunning(p, left - 1, threads, completed);
    } else if p.successful {
      assert Drain([], [], threads, completed + [p]) == Drained([], [], completed + [p], None);
    } else {
      assert completed + [] == completed;
    }
  }

  /** A run of one command completes it when it succeeds; otherwise it fails
      with it, left running and polled to its end. */
  lemma LoneJob(p: Process, threads: int)
    requires threads >= 1
    ensures Drain([p], [], threads, [])
         == if p.successful then Drained([], [], [p], None) else Drained([], [Started(p, 0)], [], Some(p))
  {
    StartLast(p, [], threads, []);
    assert [] + [Started(p, p.duration)] == [Started(p, p.duration)];
    LoneRunning(p, p.duration, threads, []);
  }

  /** One pass over two running successful processes: each is either polled
      once more or seen finished, in start order. */
  lemma PassTwo(p1: Process, left1: nat, p2: Process, left2: nat, threads: int,
                completed: seq<Process>, kept: seq<Started>, finished: seq<Process>)
    requires threads >= 1 && p1.successful && p2.successful
    requires kept == (if left1 > 0 then [Started(p1, left1 - 1)] else []) + (if left2 > 0 then [Started(p2, left2 - 1)] else [])
    requires finished == (if left1 == 0 then [p1] else []) + (if left2 == 0 then [p2] else [])
    ensures Drain([], [Started(p1, left1), Started(p2, left2)], threads, completed)
         == Drain([], kept, threads, completed + finished)
  {
    var rs := [Started(p1, left1), Started(p2, left2)];
    assert SweepRunning(rs) == Sweep(kept, finished, None) by {
      assert rs == [Started(p1, left1)] + [Started(p2, left2)];
      SweepCons(Started(p1, left1), [Started(p2, left2)]);
      SweepOne(Started(p2, left2));
    }
    SweepOnlyPass(rs, threads, completed);
  }

  /** Two running successful processes complete in the order they finish;
      on a tie the one started first is seen first. */
  lemma {:induction false} TwoRunning(p1: Process, left1: nat, p2: Process, left2: nat, threads: int, completed: seq<Process>)
    requires threads >= 1 && p1.successful && p2.successful
    ensures Drain([], [Started(p1, left1), Started(p2, left2)], threads, completed)
         == Drained([], [], completed + (if left2 < left1 then [p2, p1] else [p1, p2]), None)
    decreases left1
  {
    var rs := [Started(p1, left1), Started(p2, left2)];
    if left1 == 0 && left2 > 0 {
      calc {
        Drain([], rs, threads, completed);
        { PassTwo(p1, left1, p2, left2, threads, completed, [Started(p2, left2 - 1)], [p1]); }
        Drain([], [Started(p2, left2 - 1)], threads, completed + [p1]);
        { LoneRunning(p2, left2 - 1, threads, completed + [p1]); }
        Drained([], [], completed + [p1] + [p2], None);
        { assert completed + [p1] + [p2] == completed + [p1, p2]; }
        Drained([], [], completed + [p1, p2], None);
      }
    } else if left1 == 0 {
      calc {
        Drain([], rs, threads, completed);
        { PassTwo(p1, left1, p2, left2, threads, completed, [], [p1, p2]); }
        Drain([], [], threads, completed + [p1, p2]);
        Drained([], [], completed + [p1, p2], None);
      }
    } else if left2 == 0 {
      calc {
        Drain([], rs, threads, completed);
        { PassTwo(p1, left1, p2, left2, threads, completed, [Started(p1, left1 - 1)], [p2]); }
        Drain([], [Started(p1, left1 - 1)], threads, completed + [p2]);
        { LoneRunning(p1, left1 - 1, threads, completed + [p2]); }
        Drained([], [], completed + [p2] + [p1], None);
        { assert completed + [p2] + [p1] == completed + [p2, p1]; }
        Drained([], [], completed + [p2, p1], None);
      }
    } else {
      calc {
        Drain([], rs, threads, completed);
        { PassTwo(p1, left1, p2, left2, threads, completed, [Started(p1, left1 - 1), Started(p2, left2 - 1)], []);
          assert completed + [] == completed; }
        Drain([], [Started(p1, left1 - 1), Started(p2, left2 - 1)], threads, completed);
        { TwoRunning(p1, left1 - 1, p2, left2 - 1, threads, completed); }
        Drained([], [], completed + (if left2 < left1 then [p2, p1] else [p1, p2]), None);
      }
    }
  }

  /** With at least two threads, a command submitted second but finishing
      sooner completes first: the completed list follows completion, not
      submission.  The second is started one pass after the first. */
  lemma TwoJobsCompleteInFinishingOrder(p1: Process, p2: Process, threads: int)
    requires threads >= 2 && p1.successful && p2.successful
    ensures var d := Drain([p1, p2], [], threads, []);
            d.failed == None && d.completed == (if p2.duration + 1 < p1.duration then [p2, p1] else [p1, p2])
  {
    var q := [p1, p2];
    assert StartNext(q, [], threads) == Start([p2], [Started(p1, p1.duration)], [p1]) by {
      assert q[1..] == [p2];
    }
    SweepOne(Started(p1, p1.duration));
    DrainPass(q, [], threads, []);
    if p1.duration == 0 {
      assert [] + [p1] == [p1];
      assert Drain(q, [], threads, []) == Drain([p2], [], threads, [p1]);
      StartLast(p2, [], threads, [p1]);
      assert [] + [Started(p2, p2.duration)] == [Started(p2, p2.duration)];
      LoneRunning(p2, p2.duration, threads, [p1]);
    } else {
      var a := p1.duration - 1;
      var none: seq<Process> := [];
      assert none + none == none;
      assert Drain(q, [], threads, []) == Drain([p2], [Started(p1, a)], threads, []);
      StartLast(p2, [Started(p1, a)], threads, []);
      assert [Started(p1, a)] + [Started(p2, p2.duration)] == [Started(p1, a), Started(p2, p2.duration)];
      TwoRunning(p1, a, p2, p2.duration, threads, []);
    }
  }

  // ---------------------------------------------------------------------
  // The processor object
  // ---------------------------------------------------------------------

  class Processor {
    var queued: seq<Process>
    var running: seq<Started>
    var threads: int
    /** Seconds the run may take, handed to the runtime; 0 means unlimited. */
    var timeLimit: int
    /** The process factory: how the system will run each command. */
    const behaviour: string -> Behaviour
    /** Every call made on this processor, for the orchestration's specification. */
    ghost var log: seq<Event>

    constructor (behaviour: string -> Behaviour, threads: int := 1, timeLimit: int := 0)
      ensures this.behaviour == behaviour && this.threads == threads && this.timeLimit == timeLimit
      ensures queued == [] && running == [] && log == []
    {
      this.behaviour := behaviour;
      this.threads := threads;
      this.timeLimit := timeLimit;
      queued := [];
      running := [];
      log := [];
    }

    /** The process of a shell command line: it runs exactly that command. */
    function CreateProcessFromCommand(command: string): (p: Process)
      ensures p.command == command
    {
      Process(command, behaviour(command).duration, behaviour(command).successful)
    }

    /** Queue one command behind those already queued. */
    method AddCommand(command: string)
      modifies this`queued, this`log
      ensures queued == old(queued) + [CreateProcessFromCommand(command)]
      ensures log == old(log) + [Added(command)]
    {
      queued := queued + [CreateProcessFromCommand(command)];
      log := log + [Added(command)];
    }

    method SetThreads(threads: int)
      modifies this`threads
      ensures this.threads == threads
    {
      this.threads := threads;
    }

    /** The processes waiting to be started, in submission order. */
    function GetQueued(): (q: seq<Process>)
      reads this`queued
      ensures q == queued
    {
      queued
    }

    /** The start step of one pass of the poll loop. */
    method StartNextQueued() returns (started: seq<Process>)
      modifies this`queued, this`running
      ensures var s := StartNext(old(queued), old(running), threads);
              queued == s.queued && running == s.running && started == s.started
    {
      started := [];
      if queued != [] && |running| < threads {
        var process := queued[0];
        queued := queued[1..];
        running := running + [Started(process, process.duration)];
        started := [process];
      }
    }

    /** The sweep step of one pass: poll every running process, in start order. */
    method PollRunning() returns (finished: seq<Process>, failed: Option<Process>)
      modifies this`running
      ensures var w := SweepRunning(old(running));
              running == w.running && finished == w.finished && failed == w.failed
    {
      var snapshot := running;
      var kept: seq<Started> := [];
      finished := [];
      var i := 0;
      assert snapshot[0..] == snapshot;
      while i < |snapshot|
        invariant 0 <= i <= |snapshot|
        invariant SweptPrefix(snapshot, i, kept, finished)
      {
        var entry := snapshot[i];
        if entry.left > 0 {
          // still running: it is polled once more next pass
          SweepStepRunning(snapshot, i, kept, finished);
          kept := kept + [Started(entry.process, entry.left - 1)];
        } else if !entry.process.successful {
          SweepStepFailed(snapshot, i, kept, finished);
          running := kept + snapshot[i..];
          return finished, Some(entry.process);
        } else {
          SweepStepFinished(snapshot, i, kept, finished);
          finished := finished + [entry.process];
        }
        i := i + 1;
      }
      SweptAll(snapshot, kept, finished);
      running := kept;
      failed := None;
    }

    /** Run everything queued.  An empty queue is refused before anything
        starts; otherwise the poll loop runs until all is done or a process
        fails, and the state it stops in is that of Drain. */
    method Run() returns (r: RunResult)
      requires queued != [] ==> threads >= 1
      modifies this`queued, this`running, this`log
      ensures log == old(log) + [Ran]
      ensures old(queued) == [] ==> r == QueueEmpty && queued == old(queued) && running == old(running)
      ensures old(queued) != [] ==>
                var d := Drain(old(queued), old(running), threads, []);
                && queued == d.queued && running == d.running
                && r == (if d.failed.Some? then ProcessFailed(d.failed.value) else Completed(d.completed))
      // started within the cap, the running list stays within it after every start step and sweep
      ensures |old(running)| <= threads ==> |running| <= threads
    {
      log := log + [Ran];
      if queued == [] {
        return QueueEmpty;
      }
      var completed: seq<Process> := [];
      ghost var target := Drain(queued, running, threads, completed);
      while queued != [] || running != []
        invariant Drain(queued, running, threads, completed) == target
        invariant |old(running)| <= threads ==> |running| <= threads
        modifies this`queued, this`running
        decreases Work(queued) + Pending(running)
      {
        ghost var s := StartNext(queued, running, threads);
        ghost var w := SweepRunning(s.running);
        DrainPass(queued, running, threads, completed);
        StartNextWork(queued, running, threads);
        SweepPending(s.running);
        assert s.running != [];
        var _ := StartNextQueued();
        assert |old(running)| <= threads ==> |running| <= threads;
        var finished, failed := PollRunning();
        completed := completed + finished;
        assert queued == s.queued && running == w.running && failed == w.failed;
        if failed.Some? {
          return ProcessFailed(failed.value);
        }
      }
      assert Drain(queued, running, threads, completed) == Drained([], [], completed, None);
      return Completed(completed);
    }
  }
}
