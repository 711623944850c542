/** Every run of processes without loops ends, and it ends only when no token is left. */
module SyncProgress {
  import opened Options
  import opened SyncMachine
  import opened SyncInvariant
  import opened SyncSteps
  import opened SyncTheorems

  function Weight(prog: seq<Op>): nat {
    if prog == [] then 0 else (if prog[0].Release? then 2 else 1) + Weight(prog[1..])
  }

  function Life(st: Status): nat {
    match st
    case Queued(_, _) => 2
    case Running => 1
    case _ => 0
  }

  function WorkLeft(procs: seq<Proc>): nat {
    if procs == [] then 0 else Weight(procs[0].prog) + WorkLeft(procs[1..])
  }

  function Lives(procs: seq<Proc>): nat {
    if procs == [] then 0 else Life(procs[0].status) + Lives(procs[1..])
  }

  lemma {:induction false} WorkChanges(procs: seq<Proc>, procs': seq<Proc>, p: nat)
    requires |procs| == |procs'| && p < |procs|
    requires forall q | 0 <= q < |procs| && q != p :: procs'[q].prog == procs[q].prog
    ensures WorkLeft(procs') + Weight(procs[p].prog) == WorkLeft(procs) + Weight(procs'[p].prog)
  {
    if p > 0 {
      WorkChanges(procs[1..], procs'[1..], p - 1);
    } else {
      SameWork(procs[1..], procs'[1..]);
    }
  }

  lemma {:induction false} SameWork(procs: seq<Proc>, procs': seq<Proc>)
    requires |procs| == |procs'|
    requires forall q | 0 <= q < |procs| :: procs'[q].prog == procs[q].prog
    ensures WorkLeft(procs') == WorkLeft(procs)
  {
    if procs != [] {
      SameWork(procs[1..], procs'[1..]);
    }
  }

  lemma {:induction false} LivesChange(procs: seq<Proc>, p: nat, x: Proc)
    requires p < |procs|
    ensures Lives(procs[p := x]) + Life(procs[p].status) == Lives(procs) + Life(x.status)
  {
    if p > 0 {
      assert procs[p := x][1..] == procs[1..][p - 1 := x];
      LivesChange(procs[1..], p - 1, x);
    } else {
      assert procs[0 := x][1..] == procs[1..];
    }
  }

  lemma {:induction false} LivesBound(procs: seq<Proc>)
    ensures Lives(procs) <= 2 * |procs|
  {
    if procs != [] {
      LivesBound(procs[1..]);
    }
  }

  /** Bounds the steps to come: operations left first, then queued tokens. */
  function Measure(procs: seq<Proc>): nat {
    WorkLeft(procs) * (2 * |procs| + 1) + Lives(procs)
  }

  lemma Lexicographic(a: nat, b: nat, k: nat, x: nat, y: nat)
    requires a < b && x < k
    ensures a * k + x < b * k + y
  {
    assert b * k == a * k + k + (b - a - 1) * k;
    assert (b - a - 1) * k >= 0;
  }

  lemma LessWork(procs: seq<Proc>, procs': seq<Proc>)
    requires |procs| == |procs'| && WorkLeft(procs') < WorkLeft(procs)
    ensures Measure(procs') < Measure(procs)
  {
    LivesBound(procs');
    Lexicographic(WorkLeft(procs'), WorkLeft(procs), 2 * |procs| + 1, Lives(procs'), Lives(procs));
  }

  lemma SameWorkFewerLives(procs: seq<Proc>, p: nat, x: Proc)
    requires p < |procs| && x.prog == procs[p].prog && Life(x.status) < Life(procs[p].status)
    ensures Measure(procs[p := x]) < Measure(procs)
  {
    WorkChanges(procs, procs[p := x], p);
    LivesChange(procs, p, x);
  }

  /** Process `p` is registered or has failed, and nothing else changes. */
  ghost predicate Halts(procs: seq<Proc>, p: nat, procs': seq<Proc>)
    requires p < |procs|
  {
    && |procs'| == |procs|
    && procs' == procs[p := Proc(procs[p].prog, procs'[p].status)]
    && Life(procs'[p].status) == 0
  }

  /** An operation that is not refused leaves less to do. */
  lemma DoOpWorks(s: State, p: nat)
    requires At(s, p)
    ensures var s' := DoOp(s, p);
      && |s'.procs| == |s.procs|
      && (forall q | 0 <= q < |s.procs| && q != p :: s'.procs[q].prog == s.procs[q].prog)
      && (Weight(s'.procs[p].prog) < Weight(s.procs[p].prog)
          || Halts(s.procs, p, s'.procs))
  {
    hide Core, Guard, Change, Note;
    HeadTyped(s, p);
    var op, rest := s.procs[p].prog[0], s.procs[p].prog[1..];
    var s' := DoOp(s, p);
    if Guarded(op) && !Guard(s.objs[op.o], op) {
      assert Halts(s.procs, p, s'.procs);
    } else if op.Release? {
      ReleaseWorks(s, p, op.cell, rest);
    } else {
      assert s'.procs[p].prog == rest;
    }
  }

  lemma ReleaseWorks(s: State, p: nat, c: nat, rest: seq<Op>)
    requires WF(s) && p < |s.procs| && c < |s.cells| && s.procs[p].prog == [Release(c)] + rest
    ensures var s' := ReleaseHandle(s, p, c, rest);
      && |s'.procs| == |s.procs|
      && (forall q | 0 <= q < |s.procs| && q != p :: s'.procs[q].prog == s.procs[q].prog)
      && (Weight(s'.procs[p].prog) < Weight(s.procs[p].prog)
          || Halts(s.procs, p, s'.procs))
  {
    assert s.procs[p].prog[1..] == rest;
    assert CellOk(s.objs, s.cells[c]);
    if s.cells[c].Some? {
      assert ([ReleaseUp(s.cells[c].value)] + rest)[1..] == rest;
    }
  }

  lemma StepUsesMeasure(s: State, p: nat, s': State)
    requires Inv(s) && Step(s, p, s')
    ensures Measure(s'.procs) < Measure(s.procs)
  {
    hide Measure, DoOp, Balanced;
    if s.running.None? {
      SameWorkFewerLives(s.procs, p, s.procs[p].(status := Running));
    } else if s.procs[p].prog == [] {
      SameWorkFewerLives(s.procs, p, s.procs[p].(status := Ended));
    } else {
      DoOpWorks(s, p);
      if Weight(s'.procs[p].prog) < Weight(s.procs[p].prog) {
        WorkChanges(s.procs, s'.procs, p);
        LessWork(s.procs, s'.procs);
      } else {
        assert ProcOk(s, p, None);
        SameWorkFewerLives(s.procs, p, s'.procs[p]);
      }
    }
  }

  /** No run is longer than its start allows. */
  lemma {:induction false} RunsEnd(run: seq<State>)
    requires Run(run) && Inv(run[0])
    ensures |run| - 1 + Measure(run[|run| - 1].procs) <= Measure(run[0].procs)
  {
    hide Measure, Inv;
    if |run| > 1 {
      var n := |run| - 1;
      forall i | 0 <= i < n - 1 ensures Leads(run[..n][i], run[..n][i + 1]) {
        assert Leads(run[i], run[i + 1]);
      }
      RunsEnd(run[..n]);
      RunKeeps(run, n - 1);
      assert Leads(run[n - 1], run[n - 1 + 1]);
      var p: nat :| Step(run[n - 1], p, run[n]);
      StepUsesMeasure(run[n - 1], p, run[n]);
    }
  }

  lemma {:induction false} EarliestQueued(procs: seq<Proc>, n: nat) returns (p: nat)
    requires n <= |procs| && exists q :: 0 <= q < n && procs[q].status.Queued?
    ensures p < n && procs[p].status.Queued?
    ensures forall q | 0 <= q < n && procs[q].status.Queued? :: procs[p].status.time <= procs[q].status.time
  {
    if exists q :: 0 <= q < n - 1 && procs[q].status.Queued? {
      p := EarliestQueued(procs, n - 1);
      if procs[n - 1].status.Queued? && procs[n - 1].status.time < procs[p].status.time {
        p := n - 1;
      }
    } else {
      p := n - 1;
    }
  }

  /** A state from which no step leads has no token left. */
  lemma OnlyQuiescentStops(s: State)
    requires Inv(s) && !Quiescent(s)
    ensures exists s' :: Leads(s, s')
  {
    hide Core;
    var p: nat;
    var s': State;
    if s.running.None? {
      p := EarliestQueued(s.procs, |s.procs|);
      s' := Pop(s, p);
    } else {
      p := s.running.value;
      s' := if s.procs[p].prog == [] then Yield(s, p, Ended) else DoOp(s, p);
    }
    assert Step(s, p, s');
    assert Leads(s, s');
  }
}
