/**
 What a row shows, what the store is told, and when a row retries by itself, as laws over whole runs: read off
 what happened to its requests, and not how the editor keeps its books.
 */
module StatusLaw {
  import opened Options
  import opened Sequences
  import opened EditorProtocol
  import opened RowSystem
  import opened Invariants
  import opened WakeUp
  import opened TypedLaw

  /** What a row shows: its status, and whether that is the failure of a flush the server found malformed. */
  datatype Said = Said(status: SaveStatus, malformed: bool)

  const NOTHING_SAID := Said(Idle, false)

  // ---------------------------------------------------------------- what happens to requests

  predicate Concerns(a: Action, i: nat) {
    !a.Mount? && !a.ForeignWrite? && !a.FetchRead? && !a.FetchArrive? && a.i == i
  }

  predicate IsReply(a: Action) {
    a.Answer? || a.Lose?
  }

  function FlightOf(r: Row, a: Action): Flight
    requires Enabled(r, a) && IsReply(a)
  {
    r.editors[a.i].flights[a.j]
  }

  /** How the request of the reply failed; a lost answer is a failure whatever the server did. */
  function FailureOf(r: Row, a: Action): Option<Failure>
    requires Enabled(r, a) && IsReply(a)
  {
    if a.Lose? then Some(OtherFailure)
    else if FlightOf(r, a).wire.Refused? then Some(FlightOf(r, a).wire.failure) else None
  }

  /** The reply is the last of its chain of requests: a failure ends the chain. */
  predicate EndsChain(r: Row, a: Action)
    requires Enabled(r, a)
  {
    IsReply(a) && var f := FlightOf(r, a);
    FailureOf(r, a).Some? || f.Structural? || f.next + 1 == |f.patches|
  }

  /** A chain of requests of editor `i` starts: there is one more than before, apart from the one that ended. */
  predicate StartsChain(r: Row, a: Action, i: nat)
    requires Enabled(r, a)
  {
    && Concerns(a, i) && i < |Next(r, a).editors|
    && |Next(r, a).editors[i].flights| + (if EndsChain(r, a) then 1 else 0) > |r.editors[i].flights|
  }

  /** How a chain of requests that is not followed by another at once leaves its row. */
  function EndOfChain(r: Row, a: Action): Said
    requires Enabled(r, a) && EndsChain(r, a) && a.i < |Next(r, a).editors|
  {
    match FailureOf(r, a)
    case Some(ConflictReply) => Said(Conflict, false)
    case Some(failure) => Said(Error, FlightOf(r, a).Flush? && failure == BadRequest)
    case None =>
      Said(if FlightOf(r, a).Flush? && Next(r, a).editors[a.i].draft != map[] then Dirty else Saved, false)
  }

  /** What an action makes row `i` say, if anything. */
  function News(r: Row, a: Action, i: nat): Option<Said>
    requires Enabled(r, a)
  {
    if !Concerns(a, i) then None
    else if StartsChain(r, a, i) then Some(Said(Saving, false))
    else if a.Type? then if r.editors[i].seenStatus == Conflict then None else Some(Said(Dirty, false))
    else if a.ClickReload? then Some(NOTHING_SAID)
    else if EndsChain(r, a) && i < |Next(r, a).editors| then Some(EndOfChain(r, a))
    else None
  }

  // ---------------------------------------------------------------- one turn of an editor

  function Says(ed: Editor): Said {
    Said(ed.status, ed.rejected)
  }

  /** `q` differs from `l` in nothing that is said or recorded. */
  predicate Quiet(l: Local, q: Local) {
    Says(q.ed) == Says(l.ed) && q.record == l.record
  }

  predicate Announces(q: Local, s: Said) {
    Says(q.ed) == s && q.record == if s.status == Idle || s.status == Saved then None else Some(s.status)
  }

  /** A flush may start, apart from one that is under way. */
  predicate HasReason(ed: Editor) {
    ed.seenStatus != Conflict && HasWork(ed.draft, ed.seen.content.lines)
  }

  lemma CommitSays(l: Local)
    ensures var q := Commit(l);
            if HasReason(l.ed) && !l.ed.saving
            then |q.ed.flights| == |l.ed.flights| + 1 && Announces(q, Said(Saving, false))
            else q.ed.flights == l.ed.flights && Quiet(l, q)
  {
  }

  lemma FinishSays(l: Local, j: nat)
    requires j < |l.ed.flights|
    ensures var q := Finish(l, j);
            if HasReason(l.ed) && l.ed.pending
            then |q.ed.flights| == |l.ed.flights| && Announces(q, Said(Saving, false))
            else |q.ed.flights| + 1 == |l.ed.flights| && Quiet(l, q)
  {
    CommitSays(l.(ed := l.ed.(saving := false, flights := Without(l.ed.flights, j), pending := false)));
  }

  lemma CloseSays(l: Local)
    ensures Announces(CloseFlush(l), Said(if l.ed.draft != map[] then Dirty else Saved, false))
    ensures CloseFlush(l).ed.draft == l.ed.draft && HasReason(CloseFlush(l).ed) == HasReason(l.ed)
    ensures Announces(CloseStructural(l), Said(Saved, false))
    ensures HasReason(CloseStructural(l).ed) == HasReason(l.ed)
  {
  }

  lemma CloseFailedSays(l: Local, f: Flight, failure: Failure)
    ensures Announces(CloseFailed(l, f, failure), Said(if failure == ConflictReply then Conflict else Error,
                                                        f.Flush? && failure == BadRequest))
    ensures HasReason(CloseFailed(l, f, failure).ed) == HasReason(l.ed)
  {
  }

  lemma FailSays(l: Local, j: nat, failure: Failure)
    requires j < |l.ed.flights|
    ensures var q := Fail(l, j, failure);
            if HasReason(l.ed) && l.ed.pending
            then |q.ed.flights| == |l.ed.flights| && Announces(q, Said(Saving, false))
            else |q.ed.flights| + 1 == |l.ed.flights|
                 && Announces(q, Said(if failure == ConflictReply then Conflict else Error,
                                      l.ed.flights[j].Flush? && failure == BadRequest))
  {
    CloseFailedSays(l, l.ed.flights[j], failure);
    FinishSays(CloseFailed(l, l.ed.flights[j], failure), j);
  }

  lemma LineChangedSays(l: Local, j: nat, v: nat)
    requires j < |l.ed.flights| && l.ed.flights[j].Structural?
    ensures var q := Succeed(l, j, v);
            if HasReason(l.ed) && l.ed.pending
            then |q.ed.flights| == |l.ed.flights| && Announces(q, Said(Saving, false))
            else |q.ed.flights| + 1 == |l.ed.flights| && Announces(q, Said(Saved, false))
  {
    CloseSays(l);
    FinishSays(CloseStructural(l), j);
  }

  lemma FlushedSays(l: Local, j: nat, v: nat)
    requires j < |l.ed.flights|
    requires var f := l.ed.flights[j]; f.Flush? && f.next + 1 == |f.patches|
    ensures var q := Succeed(l, j, v);
            if HasReason(q.ed) && l.ed.pending
            then |q.ed.flights| == |l.ed.flights| && Announces(q, Said(Saving, false))
            else |q.ed.flights| + 1 == |l.ed.flights|
                 && Announces(q, Said(if q.ed.draft != map[] then Dirty else Saved, false))
  {
    var l1 := Acknowledge(l, l.ed.flights[j]);
    CloseSays(l1);
    FinishSays(CloseFlush(l1), j);
    assert SameData(CloseFlush(l1).ed, Finish(CloseFlush(l1), j).ed);
  }

  lemma PatchedSays(l: Local, j: nat, v: nat)
    requires j < |l.ed.flights|
    requires var f := l.ed.flights[j]; f.Flush? && f.next + 1 < |f.patches|
    ensures |Succeed(l, j, v).ed.flights| == |l.ed.flights| && Quiet(l, Succeed(l, j, v))
  {
  }

  // ---------------------------------------------------------------- one step of the row

  function SaidBy(r: Row, i: nat): Said {
    if i < |r.editors| then Says(r.editors[i]) else NOTHING_SAID
  }

  /** The step makes row `i` say its news, if there are any, and the store hear them; otherwise nothing changes. */
  predicate Heard(r: Row, a: Action, i: nat)
    requires Enabled(r, a)
  {
    match News(r, a, i)
    case None => SaidBy(Next(r, a), i) == SaidBy(r, i) && (Concerns(a, i) ==> Next(r, a).record == r.record)
    case Some(s) => i < |Next(r, a).editors| && Announces(At(Next(r, a), i), s)
  }

  lemma FailureLands(r: Row, a: Action)
    requires Enabled(r, a) && IsReply(a) && FailureOf(r, a).Some?
    ensures a.i < |Next(r, a).editors| && At(Next(r, a), a.i) == Fail(At(r, a.i), a.j, FailureOf(r, a).value)
  {
  }

  lemma SuccessLands(r: Row, a: Action)
    requires Enabled(r, a) && IsReply(a) && FailureOf(r, a).None?
    ensures FlightOf(r, a).wire.Applied? && (FlightOf(r, a).Flush? ==> FlightOf(r, a).next < |FlightOf(r, a).patches|)
    ensures a.i < |Next(r, a).editors|
            && At(Next(r, a), a.i) == Succeed(At(r, a.i), a.j, FlightOf(r, a).wire.version)
  {
  }

  lemma FailureSays(r: Row, a: Action)
    requires Enabled(r, a) && IsReply(a) && FailureOf(r, a).Some?
    ensures Heard(r, a, a.i)
  {
    FailureLands(r, a);
    FailSays(At(r, a.i), a.j, FailureOf(r, a).value);
  }

  lemma SuccessSays(r: Row, a: Action)
    requires Enabled(r, a) && IsReply(a) && FailureOf(r, a).None?
    ensures Heard(r, a, a.i)
  {
    SuccessLands(r, a);
    var l := At(r, a.i);
    var f := FlightOf(r, a);
    if f.Structural? { LineChangedSays(l, a.j, f.wire.version); }
    else if f.next + 1 == |f.patches| { FlushedSays(l, a.j, f.wire.version); }
    else { PatchedSays(l, a.j, f.wire.version); }
  }

  lemma TimerSays(r: Row, a: Action)
    requires Enabled(r, a) && IsTimerAction(a)
    ensures Heard(r, a, a.i)
  {
    TimerActionCommits(r, a);
    CommitSays(BeforeCommit(r, a));
  }

  lemma InputSays(r: Row, a: Action)
    requires Enabled(r, a) && (a.Type? || a.ClickReload? || a.ChangeLines?)
    ensures Heard(r, a, a.i)
  {
  }

  lemma OtherSays(r: Row, a: Action)
    requires Enabled(r, a) && (a.RenderRow? || a.Unmount? || a.Process?)
    ensures Heard(r, a, a.i)
  {
  }

  lemma OthersSilent(r: Row, a: Action, i: nat)
    requires Enabled(r, a) && !Concerns(a, i)
    ensures SaidBy(Next(r, a), i) == SaidBy(r, i)
    ensures (forall e :: !Concerns(a, e)) ==> Next(r, a).record == r.record
  {
    if a.Mount? || a.ForeignWrite? || a.FetchRead? || a.FetchArrive? { } else { assert Concerns(a, a.i); }
  }

  lemma StepSays(r: Row, a: Action, i: nat)
    requires Enabled(r, a)
    ensures Heard(r, a, i)
  {
    if !Concerns(a, i) { OthersSilent(r, a, i); }
    else if IsReply(a) { if FailureOf(r, a).Some? { FailureSays(r, a); } else { SuccessSays(r, a); } }
    else if IsTimerAction(a) { TimerSays(r, a); }
    else if a.Type? || a.ClickReload? || a.ChangeLines? { InputSays(r, a); }
    else { OtherSays(r, a); }
  }

  /** When a chain of requests starts: a timer or the user asks for it, or it was asked for while another ran. */
  lemma ChainStartsIff(r: Row, a: Action, i: nat)
    requires Enabled(r, a)
    ensures StartsChain(r, a, i) <==>
              && Concerns(a, i) && i < |Next(r, a).editors|
              && if IsTimerAction(a) then HasReason(r.editors[i]) && !r.editors[i].saving
                 else if a.ChangeLines? then StartsLineChange(r, a)
                 else EndsChain(r, a) && HasReason(Next(r, a).editors[i]) && r.editors[i].pending
  {
    if Concerns(a, i) {
      if IsReply(a) { if FailureOf(r, a).Some? { FailureStartsIff(r, a); } else { SuccessStartsIff(r, a); } }
      else if IsTimerAction(a) { TimerStartsIff(r, a); }
      else if a.Type? || a.ClickReload? || a.ChangeLines? { InputStartsIff(r, a); }
      else { OtherSays(r, a); }
    }
  }

  lemma TimerStartsIff(r: Row, a: Action)
    requires Enabled(r, a) && IsTimerAction(a)
    ensures StartsChain(r, a, a.i) <==> HasReason(r.editors[a.i]) && !r.editors[a.i].saving
  {
    TimerActionCommits(r, a);
    CommitSays(BeforeCommit(r, a));
  }

  lemma InputStartsIff(r: Row, a: Action)
    requires Enabled(r, a) && (a.Type? || a.ClickReload? || a.ChangeLines?)
    ensures StartsChain(r, a, a.i) <==> StartsLineChange(r, a)
  {
  }

  predicate FollowsUp(r: Row, a: Action)
    requires Enabled(r, a) && IsReply(a)
  {
    a.i < |Next(r, a).editors| && EndsChain(r, a) && HasReason(Next(r, a).editors[a.i]) && r.editors[a.i].pending
  }

  lemma FailKeepsReason(l: Local, j: nat, failure: Failure)
    requires j < |l.ed.flights|
    ensures HasReason(Fail(l, j, failure).ed) == HasReason(l.ed)
  {
    var closed := CloseFailed(l, l.ed.flights[j], failure);
    CloseFailedSays(l, l.ed.flights[j], failure);
    assert SameData(closed.ed, Fail(l, j, failure).ed);
  }

  lemma FailureStartsIff(r: Row, a: Action)
    requires Enabled(r, a) && IsReply(a) && FailureOf(r, a).Some?
    ensures StartsChain(r, a, a.i) <==> FollowsUp(r, a)
  {
    FailureLands(r, a);
    FailSays(At(r, a.i), a.j, FailureOf(r, a).value);
    FailKeepsReason(At(r, a.i), a.j, FailureOf(r, a).value);
  }

  lemma SuccessStartsIff(r: Row, a: Action)
    requires Enabled(r, a) && IsReply(a) && FailureOf(r, a).None?
    ensures StartsChain(r, a, a.i) <==> FollowsUp(r, a)
  {
    SuccessLands(r, a);
    var l := At(r, a.i);
    var f := FlightOf(r, a);
    if f.Structural? {
      LineChangedSays(l, a.j, f.wire.version);
      assert SameData(CloseStructural(l).ed, Next(r, a).editors[a.i]);
    }
    else if f.next + 1 == |f.patches| { FlushedSays(l, a.j, f.wire.version); }
    else { PatchedSays(l, a.j, f.wire.version); }
  }

  // ---------------------------------------------------------------- whole runs: status and record

  function NewsAt(r: Row, acts: seq<Action>, n: nat, i: nat): Option<Said>
    requires Valid(r, acts) && n < |acts|
  {
    StateStep(r, acts, n);
    News(StateAt(r, acts, n), acts[n], i)
  }

  /** The last news of row `i` among the first `n` actions of the run. */
  function LatestNews(r: Row, acts: seq<Action>, n: nat, i: nat): Said
    requires Valid(r, acts) && n <= |acts|
  {
    if n == 0 then NOTHING_SAID
    else if NewsAt(r, acts, n - 1, i).Some? then NewsAt(r, acts, n - 1, i).value
    else LatestNews(r, acts, n - 1, i)
  }

  lemma {:induction false} StatusAt(r: Row, acts: seq<Action>, n: nat, i: nat)
    requires Init(r) && Valid(r, acts) && n <= |acts|
    ensures SaidBy(StateAt(r, acts, n), i) == LatestNews(r, acts, n, i)
  {
    if n > 0 {
      StatusAt(r, acts, n - 1, i);
      StateStep(r, acts, n - 1);
      StepSays(StateAt(r, acts, n - 1), acts[n - 1], i);
    }
  }

  /** In every state of every run a row shows its last news. */
  lemma ShowsLatestNews(r: Row, acts: seq<Action>, i: nat)
    requires Init(r) && Valid(r, acts) && i < |Run(r, acts).editors|
    ensures Says(Run(r, acts).editors[i]) == LatestNews(r, acts, |acts|, i)
  {
    StatusAt(r, acts, |acts|, i);
    StateEnd(r, acts);
  }

  /** The action is a reply that failed with something other than a 409, and makes row `i` say an error. */
  predicate CausesError(r: Row, a: Action, i: nat, malformed: bool) {
    && Enabled(r, a) && Concerns(a, i) && IsReply(a)
    && FailureOf(r, a).Some? && FailureOf(r, a).value != ConflictReply
    && (malformed <==> FlightOf(r, a).Flush? && FailureOf(r, a).value == BadRequest)
  }

  lemma ErrorNews(r: Row, a: Action, i: nat)
    requires Enabled(r, a) && News(r, a, i).Some? && News(r, a, i).value.status == Error
    ensures CausesError(r, a, i, News(r, a, i).value.malformed)
  {
  }

  lemma ErrorNewsAt(r: Row, acts: seq<Action>, m: nat, i: nat)
    requires Valid(r, acts) && m < |acts| && NewsAt(r, acts, m, i).Some?
    ensures NewsAt(r, acts, m, i).value.status == Error ==>
              CausesError(StateAt(r, acts, m), acts[m], i, NewsAt(r, acts, m, i).value.malformed)
  {
    StateStep(r, acts, m);
    if NewsAt(r, acts, m, i).value.status == Error { ErrorNews(StateAt(r, acts, m), acts[m], i); }
  }

  /** Row `i` has no news from the actions at `m` up to `n`. */
  predicate Silent(r: Row, acts: seq<Action>, m: nat, n: nat, i: nat)
    requires Valid(r, acts) && m <= n <= |acts|
    decreases n
  {
    m == n || (NewsAt(r, acts, n - 1, i) == None && Silent(r, acts, m, n - 1, i))
  }

  lemma {:induction false} LatestNewsIsNews(r: Row, acts: seq<Action>, n: nat, i: nat) returns (m: nat)
    requires Valid(r, acts) && n <= |acts| && LatestNews(r, acts, n, i) != NOTHING_SAID
    ensures m < n && NewsAt(r, acts, m, i) == Some(LatestNews(r, acts, n, i)) && Silent(r, acts, m + 1, n, i)
  {
    if NewsAt(r, acts, n - 1, i).Some? { m := n - 1; } else { m := LatestNewsIsNews(r, acts, n - 1, i); }
  }

  /**
   A row shows an error only if a request of it failed with something other than a 409, and nothing was said since;
   it counts as malformed exactly if that was a flush refused with a 400.
   */
  lemma ErrorHasACause(r: Row, acts: seq<Action>, i: nat) returns (m: nat)
    requires Init(r) && Valid(r, acts) && i < |Run(r, acts).editors| && Run(r, acts).editors[i].status == Error
    ensures m < |acts| && CausesError(StateAt(r, acts, m), acts[m], i, Run(r, acts).editors[i].rejected)
    ensures Silent(r, acts, m + 1, |acts|, i)
  {
    ShowsLatestNews(r, acts, i);
    m := LatestNewsIsNews(r, acts, |acts|, i);
    ErrorNewsAt(r, acts, m, i);
  }

  /** The news of the row the action is about. */
  function NewsOfAny(r: Row, acts: seq<Action>, n: nat): Option<Said>
    requires Valid(r, acts) && n < |acts|
  {
    var a := acts[n];
    if a.Mount? || a.ForeignWrite? || a.FetchRead? || a.FetchArrive? then None else NewsAt(r, acts, n, a.i)
  }

  /** The last news of any editor of the entry. */
  function LatestOfAny(r: Row, acts: seq<Action>, n: nat): Said
    requires Valid(r, acts) && n <= |acts|
  {
    if n == 0 then NOTHING_SAID
    else if NewsOfAny(r, acts, n - 1).Some? then NewsOfAny(r, acts, n - 1).value
    else LatestOfAny(r, acts, n - 1)
  }

  lemma StepRecords(r: Row, a: Action)
    requires Enabled(r, a)
    ensures if a.Mount? || a.ForeignWrite? || a.FetchRead? || a.FetchArrive? then Next(r, a).record == r.record
            else Heard(r, a, a.i)
  {
    if !(a.Mount? || a.ForeignWrite? || a.FetchRead? || a.FetchArrive?) { StepSays(r, a, a.i); }
  }

  lemma {:induction false} RecordAt(r: Row, acts: seq<Action>, n: nat)
    requires Init(r) && Valid(r, acts) && n <= |acts|
    ensures var status := LatestOfAny(r, acts, n).status;
            StateAt(r, acts, n).record == if status == Idle || status == Saved then None else Some(status)
  {
    if n > 0 {
      RecordAt(r, acts, n - 1);
      StateStep(r, acts, n - 1);
      StepRecords(StateAt(r, acts, n - 1), acts[n - 1]);
    }
  }

  /** The store holds the last news of any editor of the entry, and no record if these were idle or saved. */
  lemma RecordsLatestNews(r: Row, acts: seq<Action>)
    requires Init(r) && Valid(r, acts)
    ensures var status := LatestOfAny(r, acts, |acts|).status;
            Run(r, acts).record == if status == Idle || status == Saved then None else Some(status)
  {
    RecordAt(r, acts, |acts|);
    StateEnd(r, acts);
  }

  // ---------------------------------------------------------------- whole runs: retries

  /** A flush fails with what may be tried again: neither a 409 nor a 400. */
  predicate LosesFlush(r: Row, a: Action)
    requires Enabled(r, a)
  {
    IsReply(a) && FlightOf(r, a).Flush? && FailureOf(r, a) == Some(OtherFailure)
  }

  function CountAfter(r: Row, a: Action, i: nat, count: nat): nat
    requires Enabled(r, a)
  {
    if !Concerns(a, i) then count
    else if a.ClickRetry? || a.ClickReload? then 0
    else if EndsChain(r, a) && FailureOf(r, a).None? then 0
    else if LosesFlush(r, a) then count + 1
    else count
  }

  /** The lost flushes of row `i` since it last had a chain of requests accepted, or was retried or reloaded by hand. */
  function LostSince(r: Row, acts: seq<Action>, n: nat, i: nat): nat
    requires Valid(r, acts) && n <= |acts|
  {
    if n == 0 then 0
    else
      StateStep(r, acts, n - 1);
      CountAfter(StateAt(r, acts, n - 1), acts[n - 1], i, LostSince(r, acts, n - 1, i))
  }

  /** The timers of a row: the debounce, the retry timer its ref points at, and those the ref has lost. */
  datatype Timers = Timers(save: bool, retry: bool, stray: nat)

  /** What happens to the timers of row `i`, which has lost `count` flushes so far. */
  function TimersAfter(r: Row, a: Action, i: nat, count: nat, t: Timers): Timers
    requires Enabled(r, a)
  {
    if !Concerns(a, i) then t
    else if a.Type? then t.(save := true)
    else if a.SaveTimer? then t.(save := false)
    else if a.RetryTimer? then
      if !a.stray then t.(retry := false) else if t.stray > 0 then t.(stray := t.stray - 1) else t
    else if a.ClickRetry? then t.(retry := false)
    else if a.ClickReload? then t.(save := false, retry := false)
    else if a.ChangeLines? then if a.op.DeleteOp? && StartsLineChange(r, a) then t.(save := false) else t
    else if LosesFlush(r, a) && count < 3 then if t.retry then t.(stray := t.stray + 1) else t.(retry := true)
    else t
  }

  function TimersBy(r: Row, acts: seq<Action>, n: nat, i: nat): Timers
    requires Valid(r, acts) && n <= |acts|
  {
    if n == 0 then Timers(false, false, 0)
    else
      StateStep(r, acts, n - 1);
      TimersAfter(StateAt(r, acts, n - 1), acts[n - 1], i, LostSince(r, acts, n - 1, i), TimersBy(r, acts, n - 1, i))
  }

  function CountOf(r: Row, i: nat): nat {
    if i < |r.editors| then r.editors[i].retryCount else 0
  }

  function TimersIn(ed: Editor): Timers {
    Timers(ed.saveTimer, ed.retryTimer, ed.strayTimers)
  }

  function TimersOf(r: Row, i: nat): Timers {
    if i < |r.editors| then TimersIn(r.editors[i]) else Timers(false, false, 0)
  }

  predicate CountsRight(r: Row, a: Action, i: nat)
    requires Enabled(r, a)
  {
    && CountOf(Next(r, a), i) == CountAfter(r, a, i, CountOf(r, i))
    && TimersOf(Next(r, a), i) == TimersAfter(r, a, i, CountOf(r, i), TimersOf(r, i))
  }

  lemma SuccessCounts(r: Row, a: Action)
    requires Enabled(r, a) && IsReply(a) && FailureOf(r, a).None?
    ensures CountsRight(r, a, a.i)
  {
    SuccessLands(r, a);
    var l := At(r, a.i);
    var f := FlightOf(r, a);
    if f.Structural? { assert SameData(CloseStructural(l).ed, Next(r, a).editors[a.i]); }
    else if f.next + 1 == |f.patches| {
      assert SameData(CloseFlush(Acknowledge(l, f)).ed, Next(r, a).editors[a.i]);
    }
  }

  lemma CloseFailedCounts(l: Local, f: Flight, failure: Failure)
    ensures var lost := f.Flush? && failure == OtherFailure;
            var t, q := TimersIn(l.ed), CloseFailed(l, f, failure).ed;
            && q.retryCount == (if lost then l.ed.retryCount + 1 else l.ed.retryCount)
            && TimersIn(q) == if !lost || l.ed.retryCount >= 3 then t
                              else if t.retry then t.(stray := t.stray + 1) else t.(retry := true)
  {
  }

  lemma FailCounts(l: Local, j: nat, failure: Failure)
    requires j < |l.ed.flights|
    ensures var closed := CloseFailed(l, l.ed.flights[j], failure).ed;
            var q := Fail(l, j, failure).ed;
            q.retryCount == closed.retryCount && TimersIn(q) == TimersIn(closed)
  {
    assert SameData(CloseFailed(l, l.ed.flights[j], failure).ed, Fail(l, j, failure).ed);
  }

  lemma FailureCounts(r: Row, a: Action)
    requires Enabled(r, a) && IsReply(a) && FailureOf(r, a).Some?
    ensures CountsRight(r, a, a.i)
  {
    FailureLands(r, a);
    var failure := FailureOf(r, a).value;
    CloseFailedCounts(At(r, a.i), FlightOf(r, a), failure);
    FailCounts(At(r, a.i), a.j, failure);
  }

  lemma TimerCounts(r: Row, a: Action)
    requires Enabled(r, a) && IsTimerAction(a)
    ensures CountsRight(r, a, a.i)
  {
    TimerActionCommits(r, a);
    assert SameData(BeforeCommit(r, a).ed, Next(r, a).editors[a.i]);
  }

  lemma InputCounts(r: Row, a: Action)
    requires Enabled(r, a) && (a.Type? || a.ClickReload? || a.ChangeLines?)
    ensures CountsRight(r, a, a.i)
  {
  }

  lemma OtherCounts(r: Row, a: Action)
    requires Enabled(r, a) && (a.RenderRow? || a.Unmount? || a.Process?)
    ensures CountsRight(r, a, a.i)
  {
  }

  lemma OthersCount(r: Row, a: Action, i: nat)
    requires Enabled(r, a) && !Concerns(a, i)
    ensures CountsRight(r, a, i)
  {
  }

  lemma StepCounts(r: Row, a: Action, i: nat)
    requires Enabled(r, a)
    ensures CountsRight(r, a, i)
  {
    if !Concerns(a, i) { OthersCount(r, a, i); }
    else if IsReply(a) { if FailureOf(r, a).Some? { FailureCounts(r, a); } else { SuccessCounts(r, a); } }
    else if IsTimerAction(a) { TimerCounts(r, a); }
    else if a.Type? || a.ClickReload? || a.ChangeLines? { InputCounts(r, a); }
    else { OtherCounts(r, a); }
  }

  lemma {:induction false} CountsAt(r: Row, acts: seq<Action>, n: nat, i: nat)
    requires Init(r) && Valid(r, acts) && n <= |acts|
    ensures CountOf(StateAt(r, acts, n), i) == LostSince(r, acts, n, i)
    ensures TimersOf(StateAt(r, acts, n), i) == TimersBy(r, acts, n, i)
  {
    if n > 0 {
      CountsAt(r, acts, n - 1, i);
      StateStep(r, acts, n - 1);
      StepCounts(StateAt(r, acts, n - 1), acts[n - 1], i);
    }
  }

  /**
   In every state of every run the retry count of a row is the number of flushes it lost since the last success,
   manual retry or reload, and its timers are those that what happened to it has armed and not used up: a lost
   flush arms one as long as there were less than three, and neither a 409, a 400 nor a failed line change does.
   */
  lemma RetriesByTheCount(r: Row, acts: seq<Action>, i: nat)
    requires Init(r) && Valid(r, acts) && i < |Run(r, acts).editors|
    ensures Run(r, acts).editors[i].retryCount == LostSince(r, acts, |acts|, i)
    ensures TimersIn(Run(r, acts).editors[i]) == TimersBy(r, acts, |acts|, i)
  {
    CountsAt(r, acts, |acts|, i);
    StateEnd(r, acts);
  }

  // ---------------------------------------------------------------- whole runs: a flush asked for meanwhile

  function AskedAfter(r: Row, a: Action, i: nat, asked: bool): bool
    requires Enabled(r, a)
  {
    if !Concerns(a, i) then asked
    else if EndsChain(r, a) || a.ClickReload? then false
    else asked || (IsTimerAction(a) && r.editors[i].saving && HasReason(r.editors[i]))
  }

  /** A timer or the user asked for a flush while the chain of requests was running that still is, or ran last. */
  function AskedMeanwhile(r: Row, acts: seq<Action>, n: nat, i: nat): bool
    requires Valid(r, acts) && n <= |acts|
  {
    if n == 0 then false
    else
      StateStep(r, acts, n - 1);
      AskedAfter(StateAt(r, acts, n - 1), acts[n - 1], i, AskedMeanwhile(r, acts, n - 1, i))
  }

  predicate PendingOf(r: Row, i: nat) {
    i < |r.editors| && r.editors[i].pending
  }

  lemma CommitPends(l: Local)
    ensures Commit(l).ed.pending == (l.ed.pending || (l.ed.saving && HasReason(l.ed)))
  {
  }

  lemma FinishPends(l: Local, j: nat)
    requires j < |l.ed.flights|
    ensures !Finish(l, j).ed.pending
  {
    CommitPends(l.(ed := l.ed.(saving := false, flights := Without(l.ed.flights, j), pending := false)));
  }

  lemma ReplyPends(r: Row, a: Action)
    requires Enabled(r, a) && IsReply(a)
    ensures PendingOf(Next(r, a), a.i) == AskedAfter(r, a, a.i, PendingOf(r, a.i))
  {
    var l := At(r, a.i);
    var f := FlightOf(r, a);
    if FailureOf(r, a).Some? {
      FailureLands(r, a);
      FinishPends(CloseFailed(l, f, FailureOf(r, a).value), a.j);
    } else {
      SuccessLands(r, a);
      if f.Structural? { FinishPends(CloseStructural(l), a.j); }
      else if f.next + 1 == |f.patches| { FinishPends(CloseFlush(Acknowledge(l, f)), a.j); }
    }
  }

  lemma TimerPends(r: Row, a: Action)
    requires Enabled(r, a) && IsTimerAction(a)
    ensures PendingOf(Next(r, a), a.i) == AskedAfter(r, a, a.i, PendingOf(r, a.i))
  {
    TimerActionCommits(r, a);
    CommitPends(BeforeCommit(r, a));
  }

  lemma StepPends(r: Row, a: Action, i: nat)
    requires Enabled(r, a)
    ensures PendingOf(Next(r, a), i) == AskedAfter(r, a, i, PendingOf(r, i))
  {
    if Concerns(a, i) && IsReply(a) { ReplyPends(r, a); }
    else if Concerns(a, i) && IsTimerAction(a) { TimerPends(r, a); }
    else { OtherPends(r, a, i); }
  }

  lemma OtherPends(r: Row, a: Action, i: nat)
    requires Enabled(r, a) && !(Concerns(a, i) && (IsReply(a) || IsTimerAction(a)))
    ensures PendingOf(Next(r, a), i) == AskedAfter(r, a, i, PendingOf(r, i))
  {
  }

  lemma {:induction false} PendingIsAsked(r: Row, acts: seq<Action>, n: nat, i: nat)
    requires Init(r) && Valid(r, acts) && n <= |acts|
    ensures PendingOf(StateAt(r, acts, n), i) == AskedMeanwhile(r, acts, n, i)
  {
    if n > 0 {
      PendingIsAsked(r, acts, n - 1, i);
      StateStep(r, acts, n - 1);
      StepPends(StateAt(r, acts, n - 1), acts[n - 1], i);
    }
  }

  /** The end of a chain is followed by another exactly if one was asked for meanwhile, and there is a reason. */
  lemma FollowUpIff(r: Row, acts: seq<Action>, n: nat, i: nat)
    requires Init(r) && Valid(r, acts) && n < |acts| && IsReply(acts[n]) && acts[n].i == i
    ensures var q := StateAt(r, acts, n);
            && Enabled(q, acts[n]) && i < |Next(q, acts[n]).editors|
            && (StartsChain(q, acts[n], i) <==>
                  EndsChain(q, acts[n]) && HasReason(Next(q, acts[n]).editors[i]) && AskedMeanwhile(r, acts, n, i))
  {
    StateStep(r, acts, n);
    var q := StateAt(r, acts, n);
    if FailureOf(q, acts[n]).Some? { FailureLands(q, acts[n]); } else { SuccessLands(q, acts[n]); }
    ChainStartsIff(q, acts[n], i);
    PendingIsAsked(r, acts, n, i);
  }

  /** But for requests under way and retry timers it has lost sight of, a reloaded editor is a new one. */
  lemma ReloadStartsOver(r: Row, i: nat)
    requires Enabled(r, ClickReload(i))
    ensures var q := Next(r, ClickReload(i));
            && q.editors[i] == NewEditor(r.editors[i].seen).(flights := r.editors[i].flights,
                                                              strayTimers := r.editors[i].strayTimers)
            && q == r.(editors := r.editors[i := q.editors[i]], record := None)
  {
  }
}
