/**
 * A model of ConstrainedExecutorImpl: an executor that runs at most one task
 * per key. `MayExecute` submits a task only when nothing is registered for its
 * key ("run if idle"); `MustExecute` cancels whatever is registered and always
 * submits the new task ("cancel and replace"). Every submitted task is wrapped;
 * the wrapper takes its key's single permit before running the task body and,
 * when the body is done, removes its registry entry (unless it was cancelled)
 * and gives the permit back.
 *
 * Threads are not modelled as such: submission appends the wrapper to
 * `submitted`, and the worker thread's progress through the wrapper is the
 * wrapper's `phase`, advanced by the explicit steps `CancelableStarting` and
 * `CancelableStopping` (or both at once by `Run`).
 */
module ConstrainedExecutor {

  type Key = string

  /** Where the worker thread that runs a wrapper stands. */
  datatype Phase =
    | Queued       // handed to the background executor, not holding the permit yet
    | Running      // holds its key's permit; the task body runs
    | Finished     // cancelableStopping has run
    | Interrupted  // interrupted while waiting for the permit: neither body nor stopping ran

  /** What one attempt to take the permit does. */
  datatype StartOutcome =
    | Acquired            // the permit was free and is now held
    | Blocked             // the permit is held by another wrapper: the thread keeps waiting
    | InterruptedWaiting  // the thread was interrupted: InterruptedException, swallowed by run

  /** What one call of the wrapper's run does. */
  datatype RunOutcome =
    | Completed               // body returned normally, stopping ran
    | BodyThrew               // body threw, stopping ran anyway, the exception leaves run
    | Waiting                 // the permit is taken: the thread is still blocked in acquire
    | InterruptedBeforeStart  // interrupted in acquire: no body, no stopping

  /** The caller's cancelable task. Only its cancel flag is observable here. */
  class Runnable {
    var canceled: bool

    constructor ()
      ensures !canceled
    {
      canceled := false;
    }
  }

  /** A counting semaphore; the executor only ever creates them with one permit. */
  class Semaphore {
    var permits: nat

    constructor (permits: nat)
      ensures this.permits == permits
    {
      this.permits := permits;
    }
  }

  /** CancelableRunnableWrapper: the caller's task, its key, and its own cancel flag. */
  class Wrapper {
    const key: Key
    const runnable: Runnable
    var canceled: bool
    var phase: Phase

    constructor (key: Key, runnable: Runnable)
      ensures this.key == key && this.runnable == runnable
      ensures !canceled && phase == Queued
    {
      this.key := key;
      this.runnable := runnable;
      canceled := false;
      phase := Queued;
    }

    method IsCanceled() returns (c: bool)
      ensures c == canceled
    {
      c := canceled;
    }

    /** Cancels the wrapped task, then sets the wrapper's own flag; it does not wait for the task. */
    method Cancel()
      modifies this, runnable
      ensures canceled && runnable.canceled
      ensures phase == old(phase)
    {
      runnable.canceled := true;
      canceled := true;
    }
  }

  class Executor {
    /** Key -> the wrapper currently registered for it (currentlyRunningCanncelableRunnables). */
    var registry: map<Key, Wrapper>
    /** Key -> its permit, created on first use and never removed (currentlyRunningSemamphores). */
    var semaphores: map<Key, Semaphore>
    /** Every wrapper handed to the background executor, in submission order. */
    var submitted: seq<Wrapper>

    /**
     * The executor's invariant.
     * - A registry entry is a submitted wrapper of that key that is neither cancelled nor finished.
     * - Conversely every submitted wrapper that is neither cancelled nor finished is the one
     *   registered for its key.
     * - A key holds at most one permit; distinct keys have distinct semaphores.
     * - A running wrapper holds its key's permit, and at most one wrapper per key runs.
     */
    ghost predicate Valid()
      reads this, submitted, semaphores.Values
    {
      RegistryValid() && PermitsValid()
    }

    /** Registry entries and live (neither cancelled nor finished) wrappers correspond one to one. */
    ghost predicate RegistryValid()
      reads this, submitted
    {
      && (forall k | k in registry ::
            registry[k] in submitted && registry[k].key == k &&
            !registry[k].canceled && registry[k].phase != Finished)
      && (forall w | w in submitted && !w.canceled && w.phase != Finished ::
            w.key in registry && registry[w.key] == w)
    }

    /**
     * RegistryValid for every key but `key`, and no live wrapper of `key`: the
     * state in which a fresh wrapper for `key` may be registered.
     */
    ghost predicate LiveElsewhere(key: Key)
      reads this, submitted
    {
      && (forall k | k in registry && k != key ::
            registry[k] in submitted && registry[k].key == k &&
            !registry[k].canceled && registry[k].phase != Finished)
      && (forall w | w in submitted && !w.canceled && w.phase != Finished ::
            w.key != key && w.key in registry && registry[w.key] == w)
    }

    /** One permit per key, held by the only wrapper of that key that is running, if any. */
    ghost predicate PermitsValid()
      reads this, submitted, semaphores.Values
    {
      && (forall k | k in semaphores :: semaphores[k].permits <= 1)
      && (forall k, k' | k in semaphores && k' in semaphores && k != k' :: semaphores[k] != semaphores[k'])
      && (forall w | w in submitted && w.phase == Running ::
            w.key in semaphores && semaphores[w.key].permits == 0)
      && (forall w, w' | w in submitted && w' in submitted && w.phase == Running && w'.phase == Running && w.key == w'.key ::
            w == w')
    }

    /** No permit has been taken for `key`: either none exists yet or it is free. */
    ghost predicate PermitFree(key: Key)
      reads this, semaphores.Values
    {
      key !in semaphores || semaphores[key].permits > 0
    }

    /** The objects MustExecute may change: the displaced wrapper and its task. */
    ghost function Displaced(key: Key): set<object>
      reads this
    {
      if key in registry then {registry[key] as object, registry[key].runnable} else {}
    }

    /** The semaphore of `key`, as a frame. */
    ghost function SemaphoreOf(key: Key): set<object>
      reads this
    {
      if key in semaphores then {semaphores[key] as object} else {}
    }

    constructor ()
      ensures Valid()
      ensures registry == map[] && semaphores == map[] && submitted == []
    {
      registry := map[];
      semaphores := map[];
      submitted := [];
    }

    /** A snapshot of the keys with a task submitted and not yet cleaned up. */
    method GetStatistics() returns (keys: set<Key>)
      requires Valid()
      ensures keys == registry.Keys
      ensures forall k :: k in keys <==>
                exists w :: w in submitted && w.key == k && !w.canceled && w.phase != Finished
    {
      keys := registry.Keys;
      forall k | k in keys
        ensures exists w :: w in submitted && w.key == k && !w.canceled && w.phase != Finished
      {
        var w := registry[k];
        assert w in submitted && w.key == k && !w.canceled && w.phase != Finished;
      }
    }

    /** Run if idle: registers and submits a fresh wrapper only when `key` has none. */
    method MayExecute(key: Key, command: Runnable) returns (executed: bool)
      requires Valid()
      modifies this
      ensures Valid()
      ensures executed == (key !in old(registry))
      ensures semaphores == old(semaphores)
      ensures !executed ==> registry == old(registry) && submitted == old(submitted)
      ensures executed ==>
                |submitted| == |old(submitted)| + 1 && submitted[..|old(submitted)|] == old(submitted) &&
                var w := submitted[|old(submitted)|];
                fresh(w) && w.key == key && w.runnable == command && !w.canceled && w.phase == Queued &&
                registry == old(registry)[key := w]
    {
      if key in registry {
        return false;
      }
      var w := Register(key, command);
      executed := true;
    }

    /**
     * Cancel and replace: cancels the wrapper registered for `key`, if any (without
     * waiting for it), then registers and submits a fresh wrapper. The result says
     * whether a wrapper was displaced.
     */
    method MustExecute(key: Key, command: Runnable) returns (replaced: bool)
      requires Valid()
      modifies this, Displaced(key)
      ensures Valid()
      ensures replaced == (key in old(registry))
      ensures replaced ==>
                var displaced := old(registry)[key];
                displaced.canceled && displaced.runnable.canceled && displaced.phase == old(displaced.phase)
      ensures semaphores == old(semaphores)
      ensures |submitted| == |old(submitted)| + 1 && submitted[..|old(submitted)|] == old(submitted)
      ensures var w := submitted[|old(submitted)|];
              fresh(w) && w.key == key && w.runnable == command && !w.canceled && w.phase == Queued &&
              registry == old(registry)[key := w]
    {
      replaced := key in registry;
      if replaced {
        var displaced := registry[key];
        displaced.Cancel();
      }
      var w := Register(key, command);
    }

    /**
     * Puts a fresh wrapper for `key` into the registry and hands it to the
     * background executor; no live wrapper of `key` may exist at that point.
     */
    method Register(key: Key, command: Runnable) returns (w: Wrapper)
      requires PermitsValid() && LiveElsewhere(key)
      modifies this
      ensures Valid()
      ensures fresh(w) && w.key == key && w.runnable == command && !w.canceled && w.phase == Queued
      ensures registry == old(registry)[key := w] && submitted == old(submitted) + [w]
      ensures semaphores == old(semaphores)
    {
      w := new Wrapper(key, command);
      registry := registry[key := w];
      submitted := submitted + [w];
    }

    /** The permit of `key`: created with one permit on first use, the same object ever after. */
    method GetSemaphore(key: Key) returns (s: Semaphore)
      requires Valid()
      modifies this
      ensures Valid()
      ensures registry == old(registry) && submitted == old(submitted)
      ensures key in semaphores && s == semaphores[key]
      ensures key in old(semaphores) ==> s == old(semaphores)[key] && semaphores == old(semaphores)
      ensures key !in old(semaphores) ==>
                fresh(s) && s.permits == 1 && semaphores == old(semaphores)[key := s]
    {
      if key in semaphores {
        s := semaphores[key];
      } else {
        s := new Semaphore(1);
        semaphores := semaphores[key := s];
      }
    }

    /**
     * The wrapper's first step: get the key's semaphore and try to acquire it.
     * An interrupted thread gets InterruptedException even when the permit is free;
     * a thread that finds the permit taken stays where it is (Blocked).
     */
    method CancelableStarting(w: Wrapper, interrupted: bool) returns (outcome: StartOutcome)
      requires Valid() && w in submitted && w.phase == Queued
      modifies this, w, SemaphoreOf(w.key)
      ensures Valid()
      ensures registry == old(registry) && submitted == old(submitted) && w.canceled == old(w.canceled)
      ensures w.key in semaphores && old(semaphores).Keys + {w.key} == semaphores.Keys
      ensures forall k | k in old(semaphores) :: semaphores[k] == old(semaphores)[k]
      ensures w.key !in old(semaphores) ==> fresh(semaphores[w.key])
      ensures outcome == if interrupted then InterruptedWaiting
                         else if old(PermitFree(w.key)) then Acquired
                         else Blocked
      ensures outcome == Acquired ==> w.phase == Running && semaphores[w.key].permits == 0
      ensures outcome == Blocked ==> w.phase == Queued && semaphores[w.key].permits == 0
      ensures outcome == InterruptedWaiting ==> w.phase == Interrupted && PermitFree(w.key) == old(PermitFree(w.key))
    {
      var s := GetSemaphore(w.key);
      outcome := Acquire(w, s, interrupted);
    }

    /** Semaphore.acquire on the thread that runs `w`, with `s` the permit of its key. */
    method Acquire(w: Wrapper, s: Semaphore, interrupted: bool) returns (outcome: StartOutcome)
      requires Valid() && w in submitted && w.phase == Queued
      requires w.key in semaphores && s == semaphores[w.key]
      modifies w, s
      ensures Valid()
      ensures w.canceled == old(w.canceled)
      ensures outcome == if interrupted then InterruptedWaiting
                         else if old(s.permits) > 0 then Acquired
                         else Blocked
      ensures outcome == Acquired ==> w.phase == Running && s.permits == 0
      ensures outcome == Blocked ==> w.phase == Queued && s.permits == 0
      ensures outcome == InterruptedWaiting ==> w.phase == Interrupted && s.permits == old(s.permits)
    {
      if interrupted {
        w.phase := Interrupted;
        outcome := InterruptedWaiting;
      } else if s.permits > 0 {
        s.permits := s.permits - 1;
        w.phase := Running;
        outcome := Acquired;
      } else {
        outcome := Blocked;
      }
    }

    /**
     * The wrapper's last step, run after the body however it ended: a wrapper that
     * was not cancelled removes the entry for its key (which is its own); a cancelled
     * one, superseded by MustExecute, leaves its successor registered. The permit is
     * released in both cases.
     */
    method CancelableStopping(w: Wrapper)
      requires Valid() && w in submitted && w.phase == Running
      modifies this, w, SemaphoreOf(w.key)
      ensures Valid()
      ensures submitted == old(submitted) && semaphores == old(semaphores)
      ensures w.phase == Finished && w.canceled == old(w.canceled)
      ensures !w.canceled ==>
                w.key in old(registry) && old(registry)[w.key] == w && registry == old(registry) - {w.key}
      ensures w.canceled ==> registry == old(registry)
      ensures w.key in semaphores && semaphores[w.key].permits == 1
    {
      if !w.canceled {
        registry := registry - {w.key};
      }
      var s := semaphores[w.key];
      s.permits := s.permits + 1;
      w.phase := Finished;
    }

    /**
     * The wrapper's run: acquire the permit, run the body, and in a finally block
     * call CancelableStopping. The body's effect is not modelled; whether it throws
     * changes only the outcome, not what stopping does.
     */
    method Run(w: Wrapper, interrupted: bool, bodyThrows: bool) returns (outcome: RunOutcome)
      requires Valid() && w in submitted && w.phase == Queued
      modifies this, w, SemaphoreOf(w.key)
      ensures Valid()
      ensures submitted == old(submitted) && w.canceled == old(w.canceled)
      ensures outcome == if interrupted then InterruptedBeforeStart
                         else if !old(PermitFree(w.key)) then Waiting
                         else if bodyThrows then BodyThrew
                         else Completed
      ensures w.key in semaphores && old(semaphores).Keys + {w.key} == semaphores.Keys
      ensures forall k | k in old(semaphores) :: semaphores[k] == old(semaphores)[k]
      ensures w.key !in old(semaphores) ==> fresh(semaphores[w.key])
      ensures outcome == InterruptedBeforeStart ==>
                w.phase == Interrupted && registry == old(registry) && PermitFree(w.key) == old(PermitFree(w.key))
      ensures outcome == Waiting ==> w.phase == Queued && registry == old(registry) && !PermitFree(w.key)
      ensures outcome in {Completed, BodyThrew} ==>
                && w.phase == Finished
                && w.key in semaphores && semaphores[w.key].permits == 1
                && registry == if w.canceled then old(registry) else old(registry) - {w.key}
    {
      var started := CancelableStarting(w, interrupted);
      if started == InterruptedWaiting {
        return InterruptedBeforeStart;
      }
      if started == Blocked {
        return Waiting;
      }
      CancelableStopping(w);
      outcome := if bodyThrows then BodyThrew else Completed;
    }
  }

  /**
   * The first half of the preemption scenario: a task is running for key k when
   * a second MayExecute is refused and MustExecute replaces the running task.
   */
  method PreemptRunning(k: Key) returns (e: Executor, first: Wrapper, second: Wrapper)
    ensures e.Valid() && fresh(e) && fresh(first) && fresh(second)
    ensures k in e.semaphores && fresh(e.semaphores[k])
    ensures e.submitted == [first, second] && e.registry == map[k := second]
    ensures first.key == k && second.key == k
    ensures first.canceled && first.phase == Running
    ensures !second.canceled && second.phase == Queued && !e.PermitFree(k)
  {
    e := new Executor();
    var t1 := new Runnable();
    var t2 := new Runnable();
    var ok := e.MayExecute(k, t1);
    first := e.submitted[0];
    var s1 := e.CancelableStarting(first, false);
    assert s1 == Acquired;
    var again := e.MayExecute(k, t2);
    assert !again;
    var replaced := e.MustExecute(k, t2);
    assert replaced;
    second := e.submitted[1];
  }

  /**
   * The rest of the scenario: the successor cannot start while the displaced task
   * holds the permit; the displaced task's stopping leaves the successor
   * registered; the successor then runs and its own stopping clears the key.
   */
  method Preemption(k: Key) returns (e: Executor, first: Wrapper, second: Wrapper)
    ensures e.Valid()
    ensures first.canceled && first.phase == Finished
    ensures !second.canceled && second.phase == Finished
    ensures e.registry == map[] && e.submitted == [first, second]
  {
    e, first, second := PreemptRunning(k);
    var s2 := e.CancelableStarting(second, false);
    assert s2 == Blocked;
    e.CancelableStopping(first);
    assert e.registry == map[k := second];
    s2 := e.CancelableStarting(second, false);
    assert s2 == Acquired;
    e.CancelableStopping(second);
  }
}
