/**
 What counts as typed. The last value typed into a field is read off the list of actions alone, and is what an
 editor keeps as typed: so no statement about typed values depends on where the editor files them.
 */
module TypedLaw {
  import opened Options
  import opened Drafts
  import opened ServerModel
  import opened EditorProtocol
  import opened RowSystem

  /** What editor `i` was last told about field `k`, when it was `before` and then `a` happened. */
  function TypedAfter(before: Option<Value>, a: Action, started: bool, i: nat, k: Key): Option<Value> {
    match a
    case Type(e, key, v) => if e == i && key == k then Some(v) else before
    case ClickReload(e) => if e == i then None else before
    case ChangeLines(e, DeleteOp(id)) =>
      if e == i && started && TargetOf(k) == LineTarget(id) then None else before
    case _ => before
  }

  /**
   The value of the last `Type` of field `k` in editor `i` among the first `n` actions, if neither a reload of the
   editor nor a removal of the field's line followed it. A removal counts if it started, as `started` tells.
   */
  function LastTyped(acts: seq<Action>, n: nat, started: set<nat>, i: nat, k: Key): Option<Value>
    requires n <= |acts|
  {
    if n == 0 then None
    else TypedAfter(LastTyped(acts, n - 1, started, i, k), acts[n - 1], n - 1 in started, i, k)
  }

  /** A line change starts unless the row shows a conflict or is saving. */
  predicate StartsLineChange(q: Row, a: Action)
    requires Enabled(q, a)
  {
    a.ChangeLines? && q.editors[a.i].seenStatus != Conflict && !q.editors[a.i].saving
  }

  predicate StartsAt(r: Row, acts: seq<Action>, n: nat)
    requires Valid(r, acts) && n < |acts|
  {
    StateStep(r, acts, n);
    StartsLineChange(StateAt(r, acts, n), acts[n])
  }

  /** The positions in the run at which a line change starts. */
  function Started(r: Row, acts: seq<Action>): set<nat>
    requires Valid(r, acts)
  {
    set n: nat | n < |acts| && StartsAt(r, acts, n)
  }

  function TypedOf(q: Row, i: nat, k: Key): Option<Value> {
    if i < |q.editors| && k in q.editors[i].typed then Some(q.editors[i].typed[k]) else None
  }

  lemma LineChangeTypes(q: Row, e: nat, op: Op, i: nat, k: Key)
    requires Enabled(q, ChangeLines(e, op))
    ensures TypedOf(Next(q, ChangeLines(e, op)), i, k)
         == TypedAfter(TypedOf(q, i, k), ChangeLines(e, op), StartsLineChange(q, ChangeLines(e, op)), i, k)
  {
  }

  lemma FinishTypes(l: Local, j: nat)
    requires j < |l.ed.flights|
    ensures Finish(l, j).ed.typed == l.ed.typed
  {
  }

  lemma ClosingTypes(l: Local, f: Flight)
    ensures CloseFlush(l).ed.typed == l.ed.typed && CloseStructural(l).ed.typed == l.ed.typed
    ensures f.Flush? && f.next < |f.patches| ==> Acknowledge(l, f).ed.typed == l.ed.typed
  {
  }

  lemma SucceedTypes(l: Local, j: nat, version: nat)
    requires j < |l.ed.flights|
    requires l.ed.flights[j].Flush? ==> l.ed.flights[j].next < |l.ed.flights[j].patches|
    ensures Succeed(l, j, version).ed.typed == l.ed.typed
  {
    var f := l.ed.flights[j];
    ClosingTypes(l, f);
    if f.Structural? {
      FinishTypes(CloseStructural(l), j);
    } else if f.next + 1 == |f.patches| {
      ClosingTypes(Acknowledge(l, f), f);
      FinishTypes(CloseFlush(Acknowledge(l, f)), j);
    }
  }

  lemma FailTypes(l: Local, j: nat, failure: Failure)
    requires j < |l.ed.flights|
    ensures Fail(l, j, failure).ed.typed == l.ed.typed
  {
  }

  lemma ReplyTypes(q: Row, a: Action, i: nat, k: Key)
    requires Enabled(q, a) && (a.Answer? || a.Lose?)
    ensures TypedOf(Next(q, a), i, k) == TypedOf(q, i, k)
  {
    var l := At(q, a.i);
    if a.Lose? { FailTypes(l, a.j, OtherFailure); }
    else {
      match l.ed.flights[a.j].wire
      case Applied(v) => SucceedTypes(l, a.j, v);
      case Refused(failure) => FailTypes(l, a.j, failure);
    }
  }

  lemma TimerTypes(q: Row, a: Action, i: nat, k: Key)
    requires Enabled(q, a) && (a.SaveTimer? || a.RetryTimer? || a.ClickRetry? || a.Process?)
    ensures TypedOf(Next(q, a), i, k) == TypedOf(q, i, k)
  {
  }

  lemma StepTypes(q: Row, a: Action, i: nat, k: Key)
    requires Enabled(q, a)
    ensures TypedOf(Next(q, a), i, k) == TypedAfter(TypedOf(q, i, k), a, StartsLineChange(q, a), i, k)
  {
    if a.Answer? || a.Lose? { ReplyTypes(q, a, i, k); }
    else if a.SaveTimer? || a.RetryTimer? || a.ClickRetry? || a.Process? { TimerTypes(q, a, i, k); }
    else if a.ChangeLines? { LineChangeTypes(q, a.i, a.op, i, k); }
  }

  lemma {:induction false} TypedAt(r: Row, acts: seq<Action>, n: nat, i: nat, k: Key)
    requires Init(r) && Valid(r, acts) && n <= |acts|
    ensures TypedOf(StateAt(r, acts, n), i, k) == LastTyped(acts, n, Started(r, acts), i, k)
  {
    if n > 0 {
      TypedAt(r, acts, n - 1, i, k);
      StateStep(r, acts, n - 1);
      StepTypes(StateAt(r, acts, n - 1), acts[n - 1], i, k);
    }
  }

  /** For every field, typed or not: what editor `i` keeps as typed is what was typed into that field last. */
  lemma TypedIsLastTyped(r: Row, acts: seq<Action>, i: nat, k: Key)
    requires Init(r) && Valid(r, acts)
    ensures TypedOf(Run(r, acts), i, k) == LastTyped(acts, |acts|, Started(r, acts), i, k)
  {
    TypedAt(r, acts, |acts|, i, k);
    StateEnd(r, acts);
  }
}
