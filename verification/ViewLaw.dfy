/**
 What this tab shows, as laws over whole runs: the cached entry is the latest response, and what an editor knows of
 its status and its entry is what they were when it last rendered.
 */
module ViewLaw {
  import opened Options
  import opened ServerModel
  import opened EditorProtocol
  import opened RowSystem
  import opened Invariants

  // ---------------------------------------------------------------- the cached entry

  /** The entry a response brings: that of an accepted request at the version it made, or that of a GET. */
  function ResponseOf(r: Row, a: Action): Option<Snapshot>
    requires Enabled(r, a)
  {
    match a
    case Answer(i, j) =>
      var w := r.editors[i].flights[j].wire;
      if w.Applied? then Some(Snapshot(w.version, r.history[w.version])) else None
    case FetchArrive(j) => Some(r.fetches[j])
    case _ => None
  }

  /** The last response to arrive among the first `n` actions, or what was cached before. */
  function LatestResponse(r: Row, acts: seq<Action>, n: nat): Snapshot
    requires Valid(r, acts) && n <= |acts|
  {
    if n == 0 then r.cache
    else
      StateStep(r, acts, n - 1);
      var response := ResponseOf(StateAt(r, acts, n - 1), acts[n - 1]);
      if response.Some? then response.value else LatestResponse(r, acts, n - 1)
  }

  lemma StepCaches(r: Row, a: Action)
    requires Enabled(r, a)
    ensures Next(r, a).cache == match ResponseOf(r, a) { case Some(s) => s case None => r.cache }
  {
  }

  lemma {:induction false} CacheAt(r: Row, acts: seq<Action>, n: nat)
    requires Valid(r, acts) && n <= |acts|
    ensures StateAt(r, acts, n).cache == LatestResponse(r, acts, n)
  {
    if n > 0 {
      CacheAt(r, acts, n - 1);
      StateStep(r, acts, n - 1);
      StepCaches(StateAt(r, acts, n - 1), acts[n - 1]);
    }
  }

  // ---------------------------------------------------------------- what an editor sees

  datatype Sight = Sight(mounted: bool, status: SaveStatus, entry: Snapshot)

  function SightOf(ed: Editor): Sight {
    Sight(ed.mounted, ed.seenStatus, ed.seen)
  }

  function SightAfter(r: Row, a: Action, i: nat, s: Option<Sight>): Option<Sight>
    requires Enabled(r, a)
  {
    if a.Mount? then if i == |r.editors| then Some(Sight(true, Idle, r.cache)) else s
    else if s.None? then None
    else if a == Unmount(i) then Some(s.value.(mounted := false))
    else if a == RenderRow(i) && i < |r.editors| then Some(Sight(s.value.mounted, r.editors[i].status, r.cache))
    else if a == ClickReload(i) then Some(s.value.(status := Idle))
    else s
  }

  /** What editor `i` sees after `n` actions: mounted, its status and the cached entry as it last rendered them. */
  function LatestSight(r: Row, acts: seq<Action>, n: nat, i: nat): Option<Sight>
    requires Valid(r, acts) && n <= |acts|
  {
    if n == 0 then None
    else
      StateStep(r, acts, n - 1);
      SightAfter(StateAt(r, acts, n - 1), acts[n - 1], i, LatestSight(r, acts, n - 1, i))
  }

  function SightIn(r: Row, i: nat): Option<Sight> {
    if i < |r.editors| then Some(SightOf(r.editors[i])) else None
  }

  lemma SucceedSees(l: Local, j: nat, v: nat)
    requires j < |l.ed.flights|
    requires l.ed.flights[j].Flush? ==> l.ed.flights[j].next < |l.ed.flights[j].patches|
    ensures SightOf(Succeed(l, j, v).ed) == SightOf(l.ed)
  {
    var f := l.ed.flights[j];
    if f.Structural? { assert SameData(CloseStructural(l).ed, Succeed(l, j, v).ed); }
    else if f.next + 1 == |f.patches| { assert SameData(CloseFlush(Acknowledge(l, f)).ed, Succeed(l, j, v).ed); }
  }

  lemma FailSees(l: Local, j: nat, failure: Failure)
    requires j < |l.ed.flights|
    ensures SightOf(Fail(l, j, failure).ed) == SightOf(l.ed)
  {
    assert SameData(CloseFailed(l, l.ed.flights[j], failure).ed, Fail(l, j, failure).ed);
  }

  lemma ReplySees(r: Row, a: Action, i: nat)
    requires Enabled(r, a) && (a.Answer? || a.Lose?)
    ensures SightIn(Next(r, a), i) == SightIn(r, i)
  {
    var l := At(r, a.i);
    if a.Lose? { FailSees(l, a.j, OtherFailure); }
    else {
      match l.ed.flights[a.j].wire
      case Applied(v) => SucceedSees(l, a.j, v);
      case Refused(failure) => FailSees(l, a.j, failure);
    }
  }

  lemma TimerSees(r: Row, a: Action, i: nat)
    requires Enabled(r, a) && IsTimerAction(a)
    ensures SightIn(Next(r, a), i) == SightIn(r, i)
  {
    TimerActionCommits(r, a);
    assert SameData(BeforeCommit(r, a).ed, Commit(BeforeCommit(r, a)).ed);
  }

  lemma OtherSees(r: Row, a: Action, i: nat)
    requires Enabled(r, a) && !(a.Answer? || a.Lose? || IsTimerAction(a))
    ensures SightIn(Next(r, a), i) == SightAfter(r, a, i, SightIn(r, i))
  {
  }

  lemma StepSees(r: Row, a: Action, i: nat)
    requires Enabled(r, a)
    ensures SightIn(Next(r, a), i) == SightAfter(r, a, i, SightIn(r, i))
  {
    if a.Answer? || a.Lose? { ReplySees(r, a, i); }
    else if IsTimerAction(a) { TimerSees(r, a, i); }
    else { OtherSees(r, a, i); }
  }

  lemma {:induction false} SightAt(r: Row, acts: seq<Action>, n: nat, i: nat)
    requires Init(r) && Valid(r, acts) && n <= |acts|
    ensures SightIn(StateAt(r, acts, n), i) == LatestSight(r, acts, n, i)
  {
    if n > 0 {
      SightAt(r, acts, n - 1, i);
      StateStep(r, acts, n - 1);
      StepSees(StateAt(r, acts, n - 1), acts[n - 1], i);
    }
  }

  /** In every run: the cache is the latest response, and every editor sees what it was last shown. */
  lemma ShowsLatestResponse(r: Row, acts: seq<Action>, i: nat)
    requires Init(r) && Valid(r, acts)
    ensures Run(r, acts).cache == LatestResponse(r, acts, |acts|)
    ensures SightIn(Run(r, acts), i) == LatestSight(r, acts, |acts|, i)
  {
    CacheAt(r, acts, |acts|);
    SightAt(r, acts, |acts|, i);
    StateEnd(r, acts);
  }
}
