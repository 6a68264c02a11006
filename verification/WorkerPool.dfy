/**
 * The concurrent worker pool: workers share a counter and an output array across awaits. Any worker may
 * be the next to run, so a run is any sequence of worker turns.
 */
module WorkerPool {
  import opened Arithmetic
  import opened Options
  import opened Sequences

  /** Between two awaits a worker is about to look at the counter, waiting on the call for item `i`, or
    * has left its loop. */
  datatype Worker = READY | WAITING(i: nat) | DONE

  /** `called` is the history of the items `fn` was called on. */
  datatype Pool<R> = Pool(next: nat, workers: seq<Worker>, out: seq<Option<R>>, called: seq<nat>)

  /** `Math.min(n, items.length)` workers: none when `n` is not positive. */
  function WorkerCount(n: int, length: nat): nat {
    if n <= 0 then 0 else if n < length then n else length
  }

  function Start<R>(n: int, length: nat): Pool<R> {
    Pool(0, seq(WorkerCount(n, length), _ => READY), seq(length, _ => None), [])
  }

  predicate CanRun<R>(s: Pool<R>, w: nat) {
    w < |s.workers| && s.workers[w] != DONE && (s.workers[w].WAITING? ==> s.workers[w].i < |s.out|)
  }

  /** One turn of worker `w`: it takes the next item if there is one, or its call comes back. */
  function Turn<T, R>(items: seq<T>, fn: T -> R, s: Pool<R>, w: nat): (t: Pool<R>)
    requires CanRun(s, w) && |s.out| == |items|
    ensures |t.out| == |items|
  {
    match s.workers[w]
    case READY =>
      if s.next < |items| then
        s.(next := s.next + 1, workers := s.workers[w := WAITING(s.next)], called := s.called + [s.next])
      else s.(workers := s.workers[w := DONE])
    case WAITING(i) => s.(workers := s.workers[w := READY], out := s.out[i := Some(fn(items[i]))])
  }

  // ── What every schedule keeps ───────────────────────────────────────────────────────────────

  /** Items called on whose answer is not in yet. */
  ghost function InFlight<R>(s: Pool<R>): set<nat> {
    set i: nat | i < |s.out| && i < s.next && s.out[i].None?
  }

  ghost predicate Awaited<R>(s: Pool<R>, i: nat) {
    exists w :: 0 <= w < |s.workers| && s.workers[w] == WAITING(i)
  }

  ghost predicate Sound<T, R>(items: seq<T>, fn: T -> R, s: Pool<R>) {
    && |s.out| == |items| && s.next <= |items|
    && s.called == seq(s.next, i requires 0 <= i < s.next => i)
    && (forall i :: 0 <= i < |items| && s.out[i].Some? ==> i < s.next && s.out[i].value == fn(items[i]))
    && (forall i :: 0 <= i < s.next && s.out[i].None? ==> Awaited(s, i))
    && (forall w :: 0 <= w < |s.workers| && s.workers[w].WAITING? ==>
          s.workers[w].i < s.next && s.out[s.workers[w].i].None?)
    && (forall v, w :: 0 <= v < w < |s.workers| && s.workers[v].WAITING? ==> s.workers[v] != s.workers[w])
    && (forall w :: 0 <= w < |s.workers| && s.workers[w] == DONE ==> s.next == |items|)
  }

  lemma StartSound<T, R>(items: seq<T>, fn: T -> R, n: int)
    ensures Sound(items, fn, Start(n, |items|))
  {
  }

  lemma TurnKeepsSound<T, R>(items: seq<T>, fn: T -> R, s: Pool<R>, w: nat)
    requires Sound(items, fn, s) && CanRun(s, w)
    ensures Sound(items, fn, Turn(items, fn, s, w))
  {
    var t := Turn(items, fn, s, w);
    assert t.workers[w] != s.workers[w];
    forall i | 0 <= i < t.next && t.out[i].None?
      ensures Awaited(t, i)
    {
      if i < s.next {
        var v :| 0 <= v < |s.workers| && s.workers[v] == WAITING(i);
        assert t.workers[v] == WAITING(i);
      }
    }
  }

  /** At most `min(n, length)` calls are in flight at once. */
  lemma AtMostNInFlight<T, R>(items: seq<T>, fn: T -> R, s: Pool<R>)
    requires Sound(items, fn, s)
    ensures |InFlight(s)| <= |s.workers|
  {
    var waiting := set w: nat | w < |s.workers| && s.workers[w].WAITING?;
    var indices := Interval(0, |s.workers|);
    SubsetSize(waiting, indices);
    InFlightWorkers(s, InFlight(s), waiting);
  }

  lemma {:induction false} InFlightWorkers<R>(s: Pool<R>, flying: set<nat>, waiting: set<nat>)
    requires forall i :: i in flying ==> exists w :: w in waiting && w < |s.workers| && s.workers[w] == WAITING(i)
    ensures |flying| <= |waiting|
    decreases |flying|
  {
    if flying != {} {
      var i :| i in flying;
      var w :| w in waiting && w < |s.workers| && s.workers[w] == WAITING(i);
      forall k | k in flying - {i}
        ensures exists v :: v in waiting - {w} && v < |s.workers| && s.workers[v] == WAITING(k)
      {
        var v :| v in waiting && v < |s.workers| && s.workers[v] == WAITING(k);
        assert v in waiting - {w};
      }
      InFlightWorkers(s, flying - {i}, waiting - {w});
    }
  }

  // ── Every run ends, after the same number of turns ──────────────────────────────────────────

  function TurnsLeftOf(w: Worker): nat {
    match w case READY => 1 case WAITING(_) => 2 case DONE => 0
  }

  function WorkersLeft(ws: seq<Worker>): nat {
    if ws == [] then 0 else WorkersLeft(ws[..|ws| - 1]) + TurnsLeftOf(ws[|ws| - 1])
  }

  function TurnsLeft<R>(s: Pool<R>): nat
    requires s.next <= |s.out|
  {
    2 * (|s.out| - s.next) + WorkersLeft(s.workers)
  }

  lemma {:induction false} WorkersLeftUpdate(ws: seq<Worker>, w: nat, to: Worker)
    requires w < |ws|
    ensures WorkersLeft(ws[w := to]) == WorkersLeft(ws) - TurnsLeftOf(ws[w]) + TurnsLeftOf(to)
  {
    var last := |ws| - 1;
    if w < last {
      WorkersLeftUpdate(ws[..last], w, to);
      assert ws[w := to][..last] == ws[..last][w := to];
    } else {
      assert ws[w := to][..last] == ws[..last];
    }
  }

  lemma TurnTakesOne<T, R>(items: seq<T>, fn: T -> R, s: Pool<R>, w: nat)
    requires Sound(items, fn, s) && CanRun(s, w)
    ensures Turn(items, fn, s, w).next <= |items|
    ensures TurnsLeft(Turn(items, fn, s, w)) == TurnsLeft(s) - 1
  {
    WorkersLeftUpdate(s.workers, w, Turn(items, fn, s, w).workers[w]);
  }

  lemma {:induction false} AllReady(ws: seq<Worker>)
    requires forall w :: 0 <= w < |ws| ==> ws[w] == READY
    ensures WorkersLeft(ws) == |ws|
  {
    if ws != [] {
      AllReady(ws[..|ws| - 1]);
    }
  }

  lemma {:induction false} AllDone(ws: seq<Worker>)
    requires forall w :: 0 <= w < |ws| ==> ws[w] == DONE
    ensures WorkersLeft(ws) == 0
  {
    if ws != [] {
      AllDone(ws[..|ws| - 1]);
    }
  }

  ghost predicate Ended<R>(s: Pool<R>) { forall w :: 0 <= w < |s.workers| ==> s.workers[w] == DONE }

  /** A schedule: which worker runs at each turn. */
  ghost predicate Schedule<T, R>(items: seq<T>, fn: T -> R, s: Pool<R>, turns: seq<nat>)
    requires |s.out| == |items|
    decreases |turns|
  {
    turns == [] || (CanRun(s, turns[0]) && Schedule(items, fn, Turn(items, fn, s, turns[0]), turns[1..]))
  }

  ghost function After<T, R>(items: seq<T>, fn: T -> R, s: Pool<R>, turns: seq<nat>): (t: Pool<R>)
    requires |s.out| == |items| && Schedule(items, fn, s, turns)
    ensures |t.out| == |items|
    decreases |turns|
  {
    if turns == [] then s else After(items, fn, Turn(items, fn, s, turns[0]), turns[1..])
  }

  lemma {:induction false} ScheduleKeepsSound<T, R>(items: seq<T>, fn: T -> R, s: Pool<R>, turns: seq<nat>)
    requires Sound(items, fn, s) && Schedule(items, fn, s, turns)
    ensures Sound(items, fn, After(items, fn, s, turns))
    ensures |After(items, fn, s, turns).workers| == |s.workers|
    ensures TurnsLeft(After(items, fn, s, turns)) == TurnsLeft(s) - |turns|
    decreases |turns|
  {
    if turns != [] {
      TurnKeepsSound(items, fn, s, turns[0]);
      TurnTakesOne(items, fn, s, turns[0]);
      ScheduleKeepsSound(items, fn, Turn(items, fn, s, turns[0]), turns[1..]);
    }
  }

  /** The smaller of the two, and nothing below nothing. */
  function Limit(n: int, length: nat): nat { Max(0, Min(n, length)) }

  /** Whatever the schedule: the items are called in order, each once; no more than the allowed number
    * of calls are in flight; and no schedule is longer than two turns an item and one a worker. */
  lemma EverySchedule<T, R>(items: seq<T>, fn: T -> R, n: int, turns: seq<nat>)
    requires Schedule(items, fn, Start(n, |items|), turns)
    ensures var t := After(items, fn, Start(n, |items|), turns);
      && t.next <= |items| && t.called == seq(t.next, i requires 0 <= i < t.next => i)
      && |InFlight(t)| <= Limit(n, |items|)
    ensures |turns| <= 2 * |items| + Limit(n, |items|)
  {
    hide Schedule, After, Sound, InFlight, WorkersLeft;
    var s := Start<R>(n, |items|);
    StartSound(items, fn, n);
    ScheduleKeepsSound(items, fn, s, turns);
    CalledInOrder(items, fn, After(items, fn, s, turns));
    AtMostNInFlight(items, fn, After(items, fn, s, turns));
    AllReady(s.workers);
  }

  lemma CalledInOrder<T, R>(items: seq<T>, fn: T -> R, s: Pool<R>)
    requires Sound(items, fn, s)
    ensures s.next <= |items| && s.called == seq(s.next, i requires 0 <= i < s.next => i)
  {
  }

  function Mapped<T, R>(items: seq<T>, fn: T -> R): seq<Option<R>> {
    seq(|items|, i requires 0 <= i < |items| => Some(fn(items[i])))
  }

  lemma EndedIsFull<T, R>(items: seq<T>, fn: T -> R, t: Pool<R>)
    requires Sound(items, fn, t) && Ended(t) && t.workers != []
    ensures t.next == |items| && t.out == Mapped(items, fn)
  {
    assert t.workers[0] == DONE;
    assert forall i :: 0 <= i < t.next ==> !Awaited(t, i);
    assert forall i :: 0 <= i < |items| ==> t.out[i] == Some(fn(items[i]));
  }

  /** At the end every answer is in its item's place, if there was a worker or nothing to do. With no
    * worker nothing is ever called and every place stays empty. */
  lemma AtTheEnd<T, R>(items: seq<T>, fn: T -> R, n: int, turns: seq<nat>)
    requires Schedule(items, fn, Start(n, |items|), turns) && Ended(After(items, fn, Start(n, |items|), turns))
    ensures After(items, fn, Start(n, |items|), turns).out == Mapped(items, fn) <==> n >= 1 || items == []
    ensures |turns| == if n >= 1 then 2 * |items| + Limit(n, |items|) else 0
  {
    hide Schedule, Sound, Ended;
    var s := Start<R>(n, |items|);
    StartSound(items, fn, n);
    ScheduleKeepsSound(items, fn, s, turns);
    var t := After(items, fn, s, turns);
    AllReady(s.workers);
    EndedLeft(t);
    if t.workers != [] {
      EndedIsFull(items, fn, t);
    } else {
      NobodyRuns(items, fn, s, turns);
      if items != [] {
        assert t.out[0] != Mapped(items, fn)[0];
      } else {
        assert t.out == Mapped(items, fn);
      }
    }
  }

  lemma EndedLeft<R>(t: Pool<R>)
    requires Ended(t)
    ensures WorkersLeft(t.workers) == 0
  {
    AllDone(t.workers);
  }

  lemma NobodyRuns<T, R>(items: seq<T>, fn: T -> R, s: Pool<R>, turns: seq<nat>)
    requires |s.out| == |items| && s.workers == [] && Schedule(items, fn, s, turns)
    ensures turns == [] && After(items, fn, s, turns) == s
  {
  }

  /** The workers so far each with an item, the others still to look. */
  ghost function Taking<R>(n: int, length: nat, m: nat): Pool<R>
    requires m <= Limit(n, length)
  {
    Pool(m, seq(Limit(n, length), w requires 0 <= w < Limit(n, length) => if w < m then WAITING(w) else READY),
      seq(length, _ => None), seq(m, i requires 0 <= i < m => i))
  }

  /** The limit is reached: a schedule in which that many calls are in flight at once. */
  lemma {:induction false} LimitIsReached<T, R>(items: seq<T>, fn: T -> R, n: int, m: nat) returns (turns: seq<nat>)
    requires m <= Limit(n, |items|)
    ensures Schedule(items, fn, Start(n, |items|), turns)
    ensures After(items, fn, Start(n, |items|), turns) == Taking(n, |items|, m)
    ensures |InFlight(After(items, fn, Start(n, |items|), turns))| == m
  {
    hide Schedule, After;
    if m == 0 {
      turns := [];
      NoTurnYet(items, fn, Start(n, |items|));
      assert Start<R>(n, |items|) == Taking(n, |items|, 0);
    } else {
      var before := LimitIsReached(items, fn, n, m - 1);
      OneMoreTurn(items, fn, Start(n, |items|), before, m - 1);
      turns := before + [m - 1];
      assert Turn(items, fn, Taking(n, |items|, m - 1), m - 1) == Taking(n, |items|, m);
    }
    AllInFlight<R>(n, |items|, m);
  }

  lemma AllInFlight<R>(n: int, length: nat, m: nat)
    requires m <= Limit(n, length)
    ensures |InFlight(Taking<R>(n, length, m))| == m
  {
    var t := Taking<R>(n, length, m);
    forall i | 0 <= i < m
      ensures i in InFlight(t)
    {
      assert t.workers[i] == WAITING(i);
    }
    assert InFlight(t) == Interval(0, m);
  }

  // ── The pool itself ─────────────────────────────────────────────────────────────────────────

  /** Runs the workers in whatever order `pick` says, until every one has left its loop. */
  method Run<T, R>(items: seq<T>, n: int, fn: T -> R) returns (out: array<Option<R>>, ghost turns: seq<nat>)
    ensures fresh(out)
    ensures Schedule(items, fn, Start(n, |items|), turns)
    ensures out[..] == After(items, fn, Start(n, |items|), turns).out
    ensures Ended(After(items, fn, Start(n, |items|), turns))
    ensures out[..] == Mapped(items, fn) <==> n >= 1 || items == []
  {
    hide Sound, Schedule, After, TurnsLeft, Mapped;
    out := new Option<R>[|items|](_ => None);
    var next := 0;
    var workers: seq<Worker> := seq(WorkerCount(n, |items|), _ => READY);
    turns := [];
    ghost var s := Start<R>(n, |items|);
    StartSound(items, fn, n);
    NoTurnYet(items, fn, s);
    assert out[..] == s.out;
    while exists w :: 0 <= w < |workers| && workers[w] != DONE
      invariant fresh(out) && Sound(items, fn, s) && s.next <= |items| == |s.out|
      invariant s.next == next && s.workers == workers && s.out == out[..]
      invariant Schedule(items, fn, Start(n, |items|), turns) && s == After(items, fn, Start(n, |items|), turns)
      decreases TurnsLeft(s)
    {
      var w :| 0 <= w < |workers| && workers[w] != DONE;
      Runnable(items, fn, s, w);
      TurnKeepsSound(items, fn, s, w);
      TurnTakesOne(items, fn, s, w);
      OneMoreTurn(items, fn, Start(n, |items|), turns, w);
      match workers[w] {
        case READY =>
          if next < |items| {
            workers := workers[w := WAITING(next)];
            next := next + 1;
          } else {
            workers := workers[w := DONE];
          }
        case WAITING(i) =>
          out[i] := Some(fn(items[i]));
          workers := workers[w := READY];
      }
      s := Turn(items, fn, s, w);
      turns := turns + [w];
    }
    AtTheEnd(items, fn, n, turns);
  }

  lemma Runnable<T, R>(items: seq<T>, fn: T -> R, s: Pool<R>, w: nat)
    requires Sound(items, fn, s) && w < |s.workers| && s.workers[w] != DONE
    ensures CanRun(s, w)
  {
  }

  lemma NoTurnYet<T, R>(items: seq<T>, fn: T -> R, s: Pool<R>)
    requires |s.out| == |items|
    ensures Schedule(items, fn, s, []) && After(items, fn, s, []) == s
  {
  }

  lemma {:induction false} OneMoreTurn<T, R>(items: seq<T>, fn: T -> R, s: Pool<R>, turns: seq<nat>, w: nat)
    requires |s.out| == |items| && Schedule(items, fn, s, turns) && CanRun(After(items, fn, s, turns), w)
    ensures Schedule(items, fn, s, turns + [w])
    ensures After(items, fn, s, turns + [w]) == Turn(items, fn, After(items, fn, s, turns), w)
    decreases |turns|
  {
    if turns != [] {
      OneMoreTurn(items, fn, Turn(items, fn, s, turns[0]), turns[1..], w);
      assert (turns + [w])[1..] == turns[1..] + [w];
    } else {
      assert (turns + [w])[1..] == [];
    }
  }
}
