/**
 One payroll entry as a labelled transition system: the server's history of it, this tab's cached copy,
 the responses of GET requests under way, every editor this tab created for it, and its store record.
 */
module RowSystem {
  import opened Options
  import opened Sequences
  import opened Drafts
  import opened ServerModel
  import opened EditorProtocol

  datatype Row = Row(
    history: seq<Content>,
    writers: seq<Writer>,
    cache: Snapshot,
    fetches: seq<Snapshot>,
    editors: seq<Editor>,
    record: Option<SaveStatus>)

  datatype Verdict = Apply(newId: LineId) | Refuse(failure: Failure)

  datatype Action =
    | Mount
    | Unmount(i: nat)
    | RenderRow(i: nat)
    | Type(i: nat, key: Key, value: Value)
    | SaveTimer(i: nat)
    | RetryTimer(i: nat, stray: bool)
    | ClickRetry(i: nat)
    | ClickReload(i: nat)
    | ChangeLines(i: nat, op: Op)
    | Process(i: nat, j: nat, verdict: Verdict)   // the server handles request j of editor i
    | Answer(i: nat, j: nat)                      // the response reaches the tab
    | Lose(i: nat, j: nat)                        // the tab sees a network error or its own timeout
    | ForeignWrite(content: Content)
    | FetchRead                                   // the server answers some GET of the entry
    | FetchArrive(j: nat)

  function Version(r: Row): int {
    |r.history| - 1
  }

  function OpOf(f: Flight): Op
    requires f.Flush? ==> f.next < |f.patches|
  {
    match f
    case Flush(ps, next, _, _, _, _, _) => PatchOp(ps[next])
    case Structural(op, _, _) => op
  }

  predicate HasFlight(r: Row, i: nat, j: nat) {
    && i < |r.editors| && j < |r.editors[i].flights|
    && var f := r.editors[i].flights[j]; (f.Flush? ==> f.next < |f.patches|)
  }

  /** No version of the entry ever had a line of this identity: the server draws a new UUID. */
  predicate NeverUsed(history: seq<Content>, id: LineId) {
    forall v :: 0 <= v < |history| ==>
      id !in history[v].lines && forall k :: k in history[v].fields && k.LineKey? ==> k.line != id
  }

  predicate CanProcess(r: Row, f: Flight, verdict: Verdict)
    requires f.Flush? ==> f.next < |f.patches|
  {
    && f.wire == InTransit && r.history != []
    && match verdict
       case Apply(newId) =>
         && f.version == Version(r) && Admissible(r.history[Version(r)], OpOf(f), newId)
         && !Collides(r.history[Version(r)], OpOf(f))
         && (OpOf(f).AddOp? ==> NeverUsed(r.history, newId))
       // a 409 is the answer to an old version, to a unit that another line has, and to one that is gone
       case Refuse(ConflictReply) => f.version != Version(r) || NamesUnit(OpOf(f))
       case Refuse(_) => true
  }

  predicate Enabled(r: Row, a: Action) {
    match a
    case Mount => forall i :: 0 <= i < |r.editors| ==> !r.editors[i].mounted
    case Unmount(i) => i < |r.editors| && r.editors[i].mounted
    case RenderRow(i) => i < |r.editors| && r.editors[i].mounted
    case Type(i, k, _) => i < |r.editors| && r.editors[i].mounted && Listed(k, r.editors[i].seen.content.lines)
    case SaveTimer(i) => i < |r.editors| && r.editors[i].saveTimer
    case RetryTimer(i, stray) =>
      i < |r.editors| && (if stray then r.editors[i].strayTimers > 0 else r.editors[i].retryTimer)
    case ClickRetry(i) => i < |r.editors|
    case ClickReload(i) => i < |r.editors| && r.editors[i].mounted && r.editors[i].seenStatus == Conflict
    case ChangeLines(i, op) => i < |r.editors| && r.editors[i].mounted && !op.PatchOp?
    case Process(i, j, verdict) => HasFlight(r, i, j) && CanProcess(r, r.editors[i].flights[j], verdict)
    case Answer(i, j) =>
      && HasFlight(r, i, j)
      && var w := r.editors[i].flights[j].wire; w != InTransit && (w.Applied? ==> w.version < |r.history|)
    case Lose(i, j) => HasFlight(r, i, j)
    case ForeignWrite(c) => Distinct(c.lines)
    case FetchRead => r.history != []
    case FetchArrive(j) => j < |r.fetches|
  }

  function At(r: Row, i: nat): Local
    requires i < |r.editors|
  {
    Local(r.editors[i], r.record)
  }

  function Put(r: Row, i: nat, l: Local): Row
    requires i < |r.editors|
  {
    r.(editors := r.editors[i := l.ed], record := l.record)
  }

  function SetWire(ed: Editor, j: nat, w: Transit): Editor
    requires j < |ed.flights|
  {
    ed.(flights := ed.flights[j := ed.flights[j].(wire := w)])
  }

  function ProcessRequest(r: Row, i: nat, j: nat, verdict: Verdict): Row
    requires Enabled(r, Process(i, j, verdict))
  {
    var ed := r.editors[i];
    match verdict
    case Refuse(failure) => r.(editors := r.editors[i := SetWire(ed, j, Refused(failure))])
    case Apply(newId) =>
      r.(history := r.history + [Effect(r.history[Version(r)], OpOf(ed.flights[j]), newId)],
         writers := r.writers + [ByEditor(i)],
         editors := r.editors[i := SetWire(ed, j, Applied(|r.history|))])
  }

  /** The mutation's success handler merges the response into the cache, then the editor continues. */
  function AnswerRequest(r: Row, i: nat, j: nat): Row
    requires Enabled(r, Answer(i, j))
  {
    match r.editors[i].flights[j].wire
    case Applied(v) => Put(r.(cache := Snapshot(v, r.history[v])), i, Succeed(At(r, i), j, v))
    case Refused(failure) => Put(r, i, Fail(At(r, i), j, failure))
  }

  function Next(r: Row, a: Action): Row
    requires Enabled(r, a)
  {
    match a
    case Mount => r.(editors := r.editors + [NewEditor(r.cache)])
    case Unmount(i) => r.(editors := r.editors[i := r.editors[i].(mounted := false)])
    case RenderRow(i) => Put(r, i, Render(At(r, i), r.cache))
    case Type(i, k, v) => Put(r, i, Edit(At(r, i), k, v))
    case SaveTimer(i) => Put(r, i, SaveTimerFires(At(r, i)))
    case RetryTimer(i, stray) => Put(r, i, RetryTimerFires(At(r, i), stray))
    case ClickRetry(i) => Put(r, i, RetryNow(At(r, i)))
    case ClickReload(i) => Put(r, i, Reload(At(r, i)))
    case ChangeLines(i, op) => Put(r, i, StartStructural(At(r, i), op))
    case Process(i, j, verdict) => ProcessRequest(r, i, j, verdict)
    case Answer(i, j) => AnswerRequest(r, i, j)
    case Lose(i, j) => Put(r, i, Fail(At(r, i), j, OtherFailure))
    case ForeignWrite(c) => r.(history := r.history + [c], writers := r.writers + [Foreign])
    case FetchRead => r.(fetches := r.fetches + [Snapshot(Version(r), r.history[Version(r)])])
    case FetchArrive(j) => r.(cache := r.fetches[j], fetches := Without(r.fetches, j))
  }

  predicate Init(r: Row) {
    && r.history != [] && |r.writers| == |r.history|
    && (forall v :: 0 <= v < |r.history| ==> Distinct(r.history[v].lines))
    && IsSnapshot(r.history, r.cache)
    && r.fetches == [] && r.editors == [] && r.record == None
  }

  /** Every action of the run is possible when its turn comes. */
  predicate Valid(r: Row, acts: seq<Action>)
    decreases |acts|
  {
    acts == [] || (Enabled(r, acts[0]) && Valid(Next(r, acts[0]), acts[1..]))
  }

  function Run(r: Row, acts: seq<Action>): Row
    requires Valid(r, acts)
    decreases |acts|
  {
    if acts == [] then r else Run(Next(r, acts[0]), acts[1..])
  }

  /** The state after the first `n` actions of the run. */
  function StateAt(r: Row, acts: seq<Action>, n: nat): Row
    requires Valid(r, acts) && n <= |acts|
    decreases n
  {
    if n == 0 then r else StateAt(Next(r, acts[0]), acts[1..], n - 1)
  }

  lemma {:induction false} StateStep(r: Row, acts: seq<Action>, n: nat)
    requires Valid(r, acts) && n < |acts|
    ensures Enabled(StateAt(r, acts, n), acts[n])
    ensures StateAt(r, acts, n + 1) == Next(StateAt(r, acts, n), acts[n])
    decreases n
  {
    if n > 0 { StateStep(Next(r, acts[0]), acts[1..], n - 1); }
  }

  lemma {:induction false} StateEnd(r: Row, acts: seq<Action>)
    requires Valid(r, acts)
    ensures StateAt(r, acts, |acts|) == Run(r, acts)
    decreases |acts|
  {
    if acts != [] { StateEnd(Next(r, acts[0]), acts[1..]); }
  }

  /** A state some run leads to. */
  ghost predicate Reachable(q: Row) {
    exists r, acts :: Init(r) && Valid(r, acts) && Run(r, acts) == q
  }
}
