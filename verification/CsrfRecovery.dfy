/**
 Recovery from a rejected CSRF token in the request client: any number of concurrent calls share one refresh,
 and each is sent again at most once. The server compares the cookie and the header a request left with.
 */
module CsrfRecovery {
  import opened Options
  import opened Sequences

  type Token = nat

  datatype Code = Success | Mismatch | OtherError

  datatype Reply = Reply(code: Code, token: Option<Token>, setCookie: Option<Token>)

  datatype Outcome = Returned | ApiError(code: Code) | NetworkError

  datatype Phase =
    | OnWire(cookie: Option<Token>, header: Option<Token>)
    | Replied(reply: Reply)
    | Waiting
    | Woken(ok: bool)
    | Done(outcome: Outcome)

  /**
   One `apiRequest` call. `sends`, `applied`, `compared` and `replies` are not program state: how often its request
   was sent, how often a handler ran for it, whether the request sent last got as far as the comparison of its
   tokens, and the codes of the replies that arrived.
   */
  datatype Call = Call(safe: bool, retry: bool, phase: Phase, sends: nat, applied: nat, compared: bool,
                       replies: seq<Code>)

  /** A request for the token: on its way, or answered, if all is well with the token of the cookie it carried. */
  datatype Refresh = Asked(cookie: Option<Token>) | Told(token: Option<Token>, setCookie: Option<Token>)

  /** The module state of the client, the browser's cookie, and everything on its way. */
  datatype System = System(token: Option<Token>, pending: bool, calls: seq<Call>, refreshes: seq<Refresh>,
                           cookie: Option<Token>)

  datatype Action =
    | Start(safe: bool)
    | Serve(i: nat, minted: Token, code: Code, rotated: Option<Token>)
    | Reject(i: nat)                    // answered before the comparison: the session store is down, say
    | Arrive(i: nat)
    | Drop(i: nat)
    | ServeRefresh(k: nat, minted: Token)
    | RejectRefresh(k: nat)             // answered without a token, for the same reason
    | ArriveRefresh(k: nat)
    | DropRefresh(k: nat)
    | Resume(i: nat)
    | SetCookie(token: Token)           // another tab's response

  function OrElse(a: Option<Token>, b: Option<Token>): Option<Token> {
    if a.Some? then a else b
  }

  /** The server's double-submit comparison; safe methods are exempt. */
  predicate Passes(safe: bool, cookie: Option<Token>, header: Option<Token>) {
    safe || (cookie.Some? && header == cookie)
  }

  /** The reply to a request: a mismatch before any handler, or the handler's, which may rotate the token. */
  function ReplyTo(safe: bool, cookie: Option<Token>, header: Option<Token>, minted: Token, code: Code,
                   rotated: Option<Token>): Reply {
    var issued := if cookie.None? then Some(minted) else None;
    if !Passes(safe, cookie, header) then Reply(Mismatch, None, issued)
    else Reply(code, OrElse(rotated, if safe then OrElse(cookie, issued) else None), OrElse(rotated, issued))
  }

  predicate Enabled(s: System, a: Action) {
    match a
    case Start(_) => true
    case Serve(i, _, code, _) => i < |s.calls| && s.calls[i].phase.OnWire? && code != Mismatch
    case Reject(i) => i < |s.calls| && s.calls[i].phase.OnWire?
    case Arrive(i) => i < |s.calls| && s.calls[i].phase.Replied?
    case Drop(i) => i < |s.calls| && (s.calls[i].phase.OnWire? || s.calls[i].phase.Replied?)
    case ServeRefresh(k, _) => k < |s.refreshes| && s.refreshes[k].Asked?
    case RejectRefresh(k) => k < |s.refreshes| && s.refreshes[k].Asked?
    case ArriveRefresh(k) => k < |s.refreshes| && s.refreshes[k].Told?
    case DropRefresh(k) => k < |s.refreshes|
    case Resume(i) => i < |s.calls| && s.calls[i].phase.Woken?
    case SetCookie(_) => true
  }

  function Header(s: System, safe: bool): Option<Token> {
    if safe then None else s.token
  }

  function StartCall(s: System, safe: bool): System {
    s.(calls := s.calls + [Call(safe, false, OnWire(s.cookie, Header(s, safe)), 1, 0, false, [])])
  }

  function Answer(c: Call, minted: Token, code: Code, rotated: Option<Token>): Call
    requires c.phase.OnWire?
  {
    var reply := ReplyTo(c.safe, c.phase.cookie, c.phase.header, minted, code, rotated);
    c.(phase := Replied(reply), compared := true,
       applied := if reply.code == Mismatch then c.applied else c.applied + 1)
  }

  /** An error answer that carries neither token nor cookie. */
  const EARLY_ERROR := Reply(OtherError, None, None)

  /** Joins the refresh under way, or starts one. */
  function JoinRefresh(s: System): System {
    if s.pending then s else s.(pending := true, refreshes := s.refreshes + [Asked(s.cookie)])
  }

  /** The continuation of `apiRequest` after a reply. */
  function Receive(s: System, i: nat): System
    requires i < |s.calls| && s.calls[i].phase.Replied?
  {
    var c := s.calls[i];
    var reply := c.phase.reply;
    var s1 := s.(token := OrElse(reply.token, s.token), cookie := OrElse(reply.setCookie, s.cookie));
    var c1 := c.(replies := c.replies + [reply.code]);
    if reply.code == Mismatch && !c.retry then JoinRefresh(s1.(calls := s.calls[i := c1.(phase := Waiting)]))
    else
      var outcome := if reply.code == Success then Returned else ApiError(reply.code);
      s1.(calls := s.calls[i := c1.(phase := Done(outcome))])
  }

  function WakeCall(c: Call, ok: bool): Call {
    if c.phase.Waiting? then c.(phase := Woken(ok)) else c
  }

  function Wake(calls: seq<Call>, ok: bool): (woken: seq<Call>)
    ensures |woken| == |calls| && forall i :: 0 <= i < |calls| ==> woken[i] == WakeCall(calls[i], ok)
  {
    seq(|calls|, i requires 0 <= i < |calls| => WakeCall(calls[i], ok))
  }

  function Settle(s: System, k: nat, ok: bool): System
    requires k < |s.refreshes|
  {
    s.(pending := false, refreshes := Without(s.refreshes, k), calls := Wake(s.calls, ok))
  }

  function ReceiveRefresh(s: System, k: nat): System
    requires k < |s.refreshes| && s.refreshes[k].Told?
  {
    var r := s.refreshes[k];
    Settle(s.(token := OrElse(r.token, s.token), cookie := OrElse(r.setCookie, s.cookie)), k, true)
  }

  /** A call whose refresh settled is sent once more, or fails with the refresh. */
  function ResumeCall(s: System, i: nat): System
    requires i < |s.calls| && s.calls[i].phase.Woken?
  {
    var c := s.calls[i];
    s.(calls := s.calls[i := if c.phase.ok then c.(retry := true, sends := c.sends + 1, compared := false,
                                                                phase := OnWire(s.cookie, Header(s, c.safe)))
                             else c.(phase := Done(NetworkError))])
  }

  function Next(s: System, a: Action): System
    requires Enabled(s, a)
  {
    match a
    case Start(safe) => StartCall(s, safe)
    case Serve(i, minted, code, rotated) => s.(calls := s.calls[i := Answer(s.calls[i], minted, code, rotated)])
    case Reject(i) => s.(calls := s.calls[i := s.calls[i].(phase := Replied(EARLY_ERROR))])
    case Arrive(i) => Receive(s, i)
    case Drop(i) => s.(calls := s.calls[i := s.calls[i].(phase := Done(NetworkError))])
    case ServeRefresh(k, minted) =>
      var cookie := s.refreshes[k].cookie;
      s.(refreshes := s.refreshes[k := if cookie.Some? then Told(cookie, None) else Told(Some(minted), Some(minted))])
    case RejectRefresh(k) => s.(refreshes := s.refreshes[k := Told(None, None)])
    case ArriveRefresh(k) => ReceiveRefresh(s, k)
    case DropRefresh(k) => Settle(s, k, false)
    case Resume(i) => ResumeCall(s, i)
    case SetCookie(t) => s.(cookie := Some(t))
  }

  predicate Valid(s: System, acts: seq<Action>)
    decreases |acts|
  {
    acts == [] || (Enabled(s, acts[0]) && Valid(Next(s, acts[0]), acts[1..]))
  }

  function Run(s: System, acts: seq<Action>): System
    requires Valid(s, acts)
    decreases |acts|
  {
    if acts == [] then s else Run(Next(s, acts[0]), acts[1..])
  }

  /** A page that has just loaded; the browser may hold a cookie from before. */
  predicate Init(s: System) {
    s.token == None && !s.pending && s.calls == [] && s.refreshes == []
  }

  // ---------------------------------------------------------------- what holds in every state

  /** How a finished call ends for its caller, by the replies that arrived and nothing else. */
  function OutcomeOf(replies: seq<Code>): Outcome {
    if replies == [] || replies == [Mismatch] then NetworkError
    else if replies[|replies| - 1] == Success then Returned
    else ApiError(replies[|replies| - 1])
  }

  /** What is known of one call. */
  predicate CallOk(c: Call) {
    && c.sends == (if c.retry then 2 else 1) && (c.retry ==> !c.safe)
    && match c.phase
       case OnWire(_, _) => c.applied == 0 && c.replies == if c.retry then [Mismatch] else []
       case Replied(reply) =>
         && c.replies == (if c.retry then [Mismatch] else [])
         && c.applied <= 1 && (reply.code == Success ==> c.applied == 1)
         && (reply.code == Mismatch ==> !c.safe && c.applied == 0)
       case Waiting => !c.retry && !c.safe && c.applied == 0 && c.replies == [Mismatch]
       case Woken(_) => !c.retry && !c.safe && c.applied == 0 && c.replies == [Mismatch]
       case Done(outcome) =>
         && c.applied <= 1 && |c.replies| <= c.sends && outcome == OutcomeOf(c.replies)
         && (c.retry ==> c.replies != [] && c.replies[0] == Mismatch)
         && (forall k :: 0 <= k < |c.replies| - 1 ==> c.replies[k] == Mismatch)
         && (outcome == Returned ==> c.applied == 1)
         && (outcome == ApiError(Mismatch) ==> c.replies == [Mismatch, Mismatch] && c.applied == 0)
  }

  predicate Ok(s: System) {
    && |s.refreshes| <= 1 && s.pending == (|s.refreshes| == 1)
    && forall i :: 0 <= i < |s.calls| ==> CallOk(s.calls[i]) && (s.calls[i].phase.Waiting? ==> s.pending)
  }

  lemma ReceiveKeeps(s: System, i: nat)
    requires Ok(s) && i < |s.calls| && s.calls[i].phase.Replied?
    ensures Ok(Receive(s, i))
  {
    var c := s.calls[i];
    assert CallOk(c);
    assert CallOk(Receive(s, i).calls[i]) by { ReceivedCallOk(s, i); }
  }

  lemma ReceivedCallOk(s: System, i: nat)
    requires i < |s.calls| && s.calls[i].phase.Replied? && CallOk(s.calls[i])
    ensures CallOk(Receive(s, i).calls[i])
  {
    var c := s.calls[i];
    var code := c.phase.reply.code;
    var replies := c.replies + [code];
    assert replies == if c.retry then [Mismatch, code] else [code];
    OutcomeOfLast(replies, code);
  }

  lemma OutcomeOfLast(replies: seq<Code>, code: Code)
    requires replies == [code] || replies == [Mismatch, code]
    ensures OutcomeOf(replies) == if replies == [Mismatch] then NetworkError
                                  else if code == Success then Returned else ApiError(code)
  {
  }

  lemma SettleKeeps(s: System, k: nat, ok: bool)
    requires Ok(s) && k < |s.refreshes|
    ensures Ok(Settle(s, k, ok))
  {
  }

  lemma CallStepKeeps(s: System, a: Action)
    requires Ok(s) && Enabled(s, a) && (a.Serve? || a.Reject? || a.Drop? || a.Resume?)
    ensures Ok(Next(s, a))
  {
    assert CallOk(s.calls[a.i]);
  }

  lemma NextKeeps(s: System, a: Action)
    requires Ok(s) && Enabled(s, a)
    ensures Ok(Next(s, a))
  {
    if a.Serve? || a.Reject? || a.Drop? || a.Resume? { CallStepKeeps(s, a); }
    else if a.Arrive? { ReceiveKeeps(s, a.i); }
    else if a.ArriveRefresh? {
      var r := s.refreshes[a.k];
      SettleKeeps(s.(token := OrElse(r.token, s.token), cookie := OrElse(r.setCookie, s.cookie)), a.k, true);
    }
    else if a.DropRefresh? { SettleKeeps(s, a.k, false); }
  }

  /** At most one refresh is under way, and every call keeps its contract, in every state of every run. */
  lemma {:induction false} RunKeeps(s: System, acts: seq<Action>)
    requires Ok(s) && Valid(s, acts)
    ensures Ok(Run(s, acts))
    decreases |acts|
  {
    if acts != [] {
      NextKeeps(s, acts[0]);
      RunKeeps(Next(s, acts[0]), acts[1..]);
    }
  }

  /**
   For any number of concurrent calls: one refresh at most; a request leaves twice at most, the second time
   only after a mismatch; its handler runs at most once, and not at all if the call ends in a mismatch. A finished
   call returns exactly if the last reply that arrived was a success; it throws the code of the last reply exactly
   if that was an error, and no mismatch that was to be retried; otherwise it ends in a network error.
   */
  lemma RecoveryContract(s: System, acts: seq<Action>, i: nat)
    requires Init(s) && Valid(s, acts) && i < |Run(s, acts).calls|
    ensures |Run(s, acts).refreshes| <= 1
    ensures var c := Run(s, acts).calls[i];
            && c.sends <= 2 && (c.sends == 2 ==> !c.safe && c.replies != [] && c.replies[0] == Mismatch)
            && c.applied <= 1
            && (c.phase == Done(ApiError(Mismatch)) ==> c.applied == 0)
            && (c.phase == Done(Returned) ==> c.applied == 1)
    ensures var c := Run(s, acts).calls[i];
            c.phase.Done? ==>
              && (c.phase.outcome == Returned <==> c.replies != [] && c.replies[|c.replies| - 1] == Success)
              && (forall code :: c.phase.outcome == ApiError(code) <==>
                    code != Success && c.replies != [] && c.replies[|c.replies| - 1] == code && c.replies != [Mismatch])
              && (c.phase.outcome == NetworkError <==> c.replies == [] || c.replies == [Mismatch])
  {
    RunKeeps(s, acts);
    assert CallOk(Run(s, acts).calls[i]);
  }

  // ---------------------------------------------------------------- what the bookkeeping counts

  /** The codes of the replies that arrived for a call in the run. */
  function Delivered(s: System, acts: seq<Action>, i: nat): seq<Code>
    requires Valid(s, acts)
    decreases |acts|
  {
    if acts == [] then []
    else
      var rest := Delivered(Next(s, acts[0]), acts[1..], i);
      if acts[0] == Arrive(i) then [s.calls[i].phase.reply.code] + rest else rest
  }

  /** A handler runs for a request that the server gets to, and that passes the comparison of its tokens. */
  predicate Handles(s: System, a: Action, i: nat)
    requires Enabled(s, a)
  {
    a.Serve? && a.i == i && Passes(s.calls[i].safe, s.calls[i].phase.cookie, s.calls[i].phase.header)
  }

  function Handled(s: System, acts: seq<Action>, i: nat): nat
    requires Valid(s, acts)
    decreases |acts|
  {
    if acts == [] then 0
    else (if Handles(s, acts[0], i) then 1 else 0) + Handled(Next(s, acts[0]), acts[1..], i)
  }

  /** A call is sent when it is made, and when it goes on after a refresh. */
  predicate Sends(s: System, a: Action, i: nat)
    requires Enabled(s, a)
  {
    (a.Start? && i == |s.calls|) || (a == Resume(i) && s.calls[i].phase.ok)
  }

  function Sent(s: System, acts: seq<Action>, i: nat): nat
    requires Valid(s, acts)
    decreases |acts|
  {
    if acts == [] then 0
    else (if Sends(s, acts[0], i) then 1 else 0) + Sent(Next(s, acts[0]), acts[1..], i)
  }

  function RepliesTo(s: System, i: nat): seq<Code> { if i < |s.calls| then s.calls[i].replies else [] }
  function AppliedFor(s: System, i: nat): nat { if i < |s.calls| then s.calls[i].applied else 0 }
  function SendsOf(s: System, i: nat): nat { if i < |s.calls| then s.calls[i].sends else 0 }

  lemma StepCounts(s: System, a: Action, i: nat)
    requires Enabled(s, a)
    ensures RepliesTo(Next(s, a), i) == RepliesTo(s, i) + (if a == Arrive(i) then [s.calls[i].phase.reply.code] else [])
    ensures AppliedFor(Next(s, a), i) == AppliedFor(s, i) + (if Handles(s, a, i) then 1 else 0)
    ensures SendsOf(Next(s, a), i) == SendsOf(s, i) + (if Sends(s, a, i) then 1 else 0)
  {
    if a.Serve? && a.i == i { ReplyCode(s.calls[i].safe, s.calls[i].phase.cookie, s.calls[i].phase.header, a); }
  }

  /** The reply is a mismatch exactly if the request fails the comparison, and the handler's answer otherwise. */
  lemma ReplyCode(safe: bool, cookie: Option<Token>, header: Option<Token>, a: Action)
    requires a.Serve? && a.code != Mismatch
    ensures ReplyTo(safe, cookie, header, a.minted, a.code, a.rotated).code
         == if !safe && (cookie == None || header != cookie) then Mismatch else a.code
  {
  }

  /** What the calls record of themselves is what happened to them. */
  lemma {:induction false} BookkeepingIsTrue(s: System, acts: seq<Action>, i: nat)
    requires Valid(s, acts)
    ensures RepliesTo(Run(s, acts), i) == RepliesTo(s, i) + Delivered(s, acts, i)
    ensures AppliedFor(Run(s, acts), i) == AppliedFor(s, i) + Handled(s, acts, i)
    ensures SendsOf(Run(s, acts), i) == SendsOf(s, i) + Sent(s, acts, i)
    decreases |acts|
  {
    if acts != [] {
      StepCounts(s, acts[0], i);
      BookkeepingIsTrue(Next(s, acts[0]), acts[1..], i);
    }
  }

  // ---------------------------------------------------------------- every call ends

  function CallRank(c: Call): nat {
    match c.phase
    case OnWire(_, _) => if c.retry then 3 else 9
    case Replied(_) => if c.retry then 2 else 8
    case Waiting => 5
    case Woken(_) => 4
    case Done(_) => 0
  }

  function CallsRank(calls: seq<Call>): nat {
    if calls == [] then 0 else CallsRank(calls[..|calls| - 1]) + CallRank(calls[|calls| - 1])
  }

  function RefreshesRank(refreshes: seq<Refresh>): nat {
    if refreshes == [] then 0 else RefreshesRank(refreshes[1..]) + (if refreshes[0].Asked? then 2 else 1)
  }

  function Rank(s: System): nat {
    CallsRank(s.calls) + RefreshesRank(s.refreshes)
  }

  /** New calls and other tabs are not up to the protocol. */
  predicate FromOutside(a: Action) {
    a.Start? || a.SetCookie?
  }

  lemma {:induction false} RankOfUpdate(calls: seq<Call>, i: nat, c: Call)
    requires i < |calls|
    ensures CallsRank(calls[i := c]) == CallsRank(calls) - CallRank(calls[i]) + CallRank(c)
  {
    var n := |calls| - 1;
    if i < n {
      assert calls[i := c][..n] == calls[..n][i := c];
      RankOfUpdate(calls[..n], i, c);
    } else {
      assert calls[i := c][..n] == calls[..n];
    }
  }

  lemma {:induction false} RankOfWake(calls: seq<Call>, ok: bool)
    ensures CallsRank(Wake(calls, ok)) <= CallsRank(calls)
  {
    if calls != [] {
      var n := |calls| - 1;
      assert Wake(calls, ok)[..n] == Wake(calls[..n], ok);
      RankOfWake(calls[..n], ok);
    }
  }

  lemma CallStepGoesDown(s: System, a: Action)
    requires Ok(s) && Enabled(s, a) && (a.Serve? || a.Reject? || a.Drop? || a.Resume? || a.Arrive?)
    ensures Rank(Next(s, a)) < Rank(s)
  {
    RankOfUpdate(s.calls, a.i, Next(s, a).calls[a.i]);
    assert Next(s, a).calls == s.calls[a.i := Next(s, a).calls[a.i]];
    assert CallOk(s.calls[a.i]);
    if a.Arrive? {
      var reply := s.calls[a.i].phase.reply;
      JoinRank(s.(token := OrElse(reply.token, s.token), cookie := OrElse(reply.setCookie, s.cookie),
                  calls := Next(s, a).calls));
    }
  }

  lemma JoinRank(s: System)
    requires !s.pending ==> s.refreshes == []
    ensures RefreshesRank(JoinRefresh(s).refreshes) <= RefreshesRank(s.refreshes) + 2
  {
    if !s.pending {
      assert JoinRefresh(s).refreshes == [Asked(s.cookie)] && [Asked(s.cookie)][1..] == [];
    }
  }

  lemma RefreshStepGoesDown(s: System, a: Action)
    requires Ok(s) && Enabled(s, a) && (a.ServeRefresh? || a.RejectRefresh? || a.ArriveRefresh? || a.DropRefresh?)
    ensures Rank(Next(s, a)) < Rank(s)
  {
    assert s.refreshes == [s.refreshes[0]];
    match a
    case ServeRefresh(k, minted) => assert Next(s, a).refreshes[1..] == s.refreshes[1..];
    case RejectRefresh(k) => assert Next(s, a).refreshes[1..] == s.refreshes[1..];
    case ArriveRefresh(k) => RankOfWake(s.calls, true); assert Without(s.refreshes, k) == [];
    case DropRefresh(k) => RankOfWake(s.calls, false); assert Without(s.refreshes, k) == [];
  }

  lemma StepGoesDown(s: System, a: Action)
    requires Ok(s) && Enabled(s, a) && !FromOutside(a)
    ensures Rank(Next(s, a)) < Rank(s)
  {
    if a.Serve? || a.Reject? || a.Drop? || a.Resume? || a.Arrive? { CallStepGoesDown(s, a); }
    else { RefreshStepGoesDown(s, a); }
  }

  /** As long as a call is not done, something other than a new call or another tab can happen. */
  lemma NeverStuck(s: System, i: nat) returns (a: Action)
    requires Ok(s) && i < |s.calls| && !s.calls[i].phase.Done?
    ensures Enabled(s, a) && !FromOutside(a)
  {
    assert s.calls[i].phase.Waiting? ==> s.pending;
    match s.calls[i].phase
    case OnWire(_, _) => a := Serve(i, 0, Success, None);
    case Replied(_) => a := Arrive(i);
    case Woken(_) => a := Resume(i);
    case Waiting => a := if s.refreshes[0].Asked? then ServeRefresh(0, 0) else ArriveRefresh(0);
  }

  predicate AllInside(acts: seq<Action>) {
    forall j :: 0 <= j < |acts| ==> !FromOutside(acts[j])
  }

  /** Every call ends: without new calls a run takes at most `Rank` steps, and one that cannot go on is over. */
  lemma {:induction false} EveryCallEnds(s: System, acts: seq<Action>)
    requires Ok(s) && Valid(s, acts) && AllInside(acts)
    ensures |acts| + Rank(Run(s, acts)) <= Rank(s)
    ensures (forall a :: Enabled(Run(s, acts), a) ==> FromOutside(a)) ==>
              forall i :: 0 <= i < |Run(s, acts).calls| ==> Run(s, acts).calls[i].phase.Done?
    decreases |acts|
  {
    if acts == [] {
      forall i | 0 <= i < |s.calls| && !s.calls[i].phase.Done?
        ensures exists a :: Enabled(s, a) && !FromOutside(a)
      {
        var a := NeverStuck(s, i);
      }
    } else {
      assert !FromOutside(acts[0]);
      StepGoesDown(s, acts[0]);
      NextKeeps(s, acts[0]);
      EveryCallEnds(Next(s, acts[0]), acts[1..]);
    }
  }

  // ---------------------------------------------------------------- a cookie that stays

  predicate Says(t: Option<Token>, c: Token) {
    t == None || t == Some(c)
  }

  predicate Steady(call: Call, token: Option<Token>, c: Token) {
    match call.phase
    case OnWire(cookie, header) => cookie == Some(c) && (call.retry ==> header == Some(c))
    case Replied(reply) => Says(reply.token, c) && Says(reply.setCookie, c) && (call.retry ==> reply.code != Mismatch)
    case Woken(ok) => ok ==> token == Some(c)
    case Waiting => true
    case Done(outcome) => outcome != ApiError(Mismatch)
  }

  /**
   The browser holds cookie `c`, nothing on its way carries another token, and a call whose refresh succeeded is
   sent again with `c`.
   */
  predicate CookieHolds(s: System, c: Token) {
    && s.cookie == Some(c)
    && (forall i :: 0 <= i < |s.calls| ==> Steady(s.calls[i], s.token, c))
    && (forall k :: 0 <= k < |s.refreshes| ==>
          if s.refreshes[k].Asked? then s.refreshes[k].cookie == Some(c)
          else Says(s.refreshes[k].token, c) && Says(s.refreshes[k].setCookie, c))
  }

  /** No other tab replaces the cookie, and no handler rotates the token. */
  predicate LeavesCookie(a: Action) {
    !a.SetCookie? && (a.Serve? ==> a.rotated == None)
  }

  predicate NoneWaits(s: System) {
    forall i :: 0 <= i < |s.calls| ==> !s.calls[i].phase.Waiting?
  }

  /**
   A refresh brings the token, or did not need to. The client does not look at what the refresh answers: without
   a token it goes on with the one it has.
   */
  predicate Recovers(s: System, a: Action, c: Token)
    requires Enabled(s, a)
  {
    a.ArriveRefresh? ==> s.refreshes[a.k].token == Some(c) || s.token == Some(c) || NoneWaits(s)
  }

  lemma ReceiveSteady(s: System, i: nat, c: Token)
    requires Ok(s) && CookieHolds(s, c) && i < |s.calls| && s.calls[i].phase.Replied?
    ensures CookieHolds(Receive(s, i), c)
  {
    assert Steady(s.calls[i], s.token, c) && CallOk(s.calls[i]);
  }

  lemma SettleSteady(s: System, k: nat, ok: bool, c: Token)
    requires CookieHolds(s, c) && k < |s.refreshes|
    ensures CookieHolds(Settle(s, k, ok), c) <==> (ok ==> s.token == Some(c) || NoneWaits(s))
  {
    var q := Settle(s, k, ok);
    if ok && s.token != Some(c) && !NoneWaits(s) {
      var i :| 0 <= i < |s.calls| && s.calls[i].phase.Waiting?;
      assert q.calls[i].phase == Woken(true) && !Steady(q.calls[i], q.token, c);
    } else {
      forall i | 0 <= i < |s.calls| ensures Steady(q.calls[i], q.token, c) {
        assert Steady(s.calls[i], s.token, c);
      }
    }
  }

  lemma CapturedHolds(s: System, k: nat, c: Token)
    requires CookieHolds(s, c) && k < |s.refreshes| && s.refreshes[k].Told?
    ensures var r := s.refreshes[k];
            CookieHolds(s.(token := OrElse(r.token, s.token), cookie := OrElse(r.setCookie, s.cookie)), c)
  {
    forall i | 0 <= i < |s.calls| ensures Steady(s.calls[i], OrElse(s.refreshes[k].token, s.token), c) {
      assert Steady(s.calls[i], s.token, c);
    }
  }

  lemma RefreshSteadyIff(s: System, k: nat, c: Token)
    requires CookieHolds(s, c) && k < |s.refreshes| && s.refreshes[k].Told?
    ensures CookieHolds(ReceiveRefresh(s, k), c) <==> Recovers(s, ArriveRefresh(k), c)
  {
    var r := s.refreshes[k];
    CapturedHolds(s, k, c);
    SettleSteady(s.(token := OrElse(r.token, s.token), cookie := OrElse(r.setCookie, s.cookie)), k, true, c);
  }

  /** While the cookie stays, the one step that endangers recovery is a refresh answered without a token. */
  lemma NextSteadyIff(s: System, a: Action, c: Token)
    requires Ok(s) && CookieHolds(s, c) && Enabled(s, a) && LeavesCookie(a)
    ensures CookieHolds(Next(s, a), c) <==> Recovers(s, a, c)
  {
    match a
    case Arrive(i) => ReceiveSteady(s, i, c);
    case ArriveRefresh(k) => RefreshSteadyIff(s, k, c);
    case DropRefresh(k) => SettleSteady(s, k, false, c);
    case Serve(i, _, _, _) => assert Steady(s.calls[i], s.token, c) && CallOk(s.calls[i]);
    case Resume(i) => assert Steady(s.calls[i], s.token, c) && CallOk(s.calls[i]);
    case _ =>
  }

  predicate AllLeaveCookie(acts: seq<Action>) {
    forall j :: 0 <= j < |acts| ==> LeavesCookie(acts[j])
  }

  predicate AlwaysHolds(s: System, acts: seq<Action>, c: Token)
    requires Valid(s, acts)
    decreases |acts|
  {
    CookieHolds(s, c) && (acts != [] ==> AlwaysHolds(Next(s, acts[0]), acts[1..], c))
  }

  predicate AllRecover(s: System, acts: seq<Action>, c: Token)
    requires Valid(s, acts)
    decreases |acts|
  {
    acts != [] ==> Recovers(s, acts[0], c) && AllRecover(Next(s, acts[0]), acts[1..], c)
  }

  /**
   While the cookie stays, every retry carries its token in every state of a run if and only if every refresh
   that calls wait for brings the token, or finds the client with it. Then no call ends with a mismatch.
   */
  lemma {:induction false} SteadyCookieRecoversIff(s: System, acts: seq<Action>, c: Token)
    requires Ok(s) && CookieHolds(s, c) && Valid(s, acts) && AllLeaveCookie(acts)
    ensures AlwaysHolds(s, acts, c) <==> AllRecover(s, acts, c)
    ensures AllRecover(s, acts, c) ==>
              forall i :: 0 <= i < |Run(s, acts).calls| ==> Run(s, acts).calls[i].phase != Done(ApiError(Mismatch))
    decreases |acts|
  {
    if acts == [] {
      assert forall i :: 0 <= i < |s.calls| ==> Steady(s.calls[i], s.token, c);
    } else {
      assert LeavesCookie(acts[0]);
      NextSteadyIff(s, acts[0], c);
      NextKeeps(s, acts[0]);
      if Recovers(s, acts[0], c) { SteadyCookieRecoversIff(Next(s, acts[0]), acts[1..], c); }
    }
  }

  // ---------------------------------------------------------------- a second mismatch

  predicate Disagree(c: Option<Token>, h: Option<Token>) {
    c == None || h != c
  }

  /** What becomes of a retry that left with cookie `c` and header `h`. */
  predicate RetryFate(call: Call, c: Option<Token>, h: Option<Token>) {
    && call.retry && !call.safe
    && match call.phase
       case OnWire(cookie, header) => cookie == c && header == h && !call.compared && call.applied == 0
       case Replied(reply) =>
         && (reply.code == Mismatch <==> call.compared && Disagree(c, h))
         && call.applied == (if call.compared && !Disagree(c, h) then 1 else 0)
       case Done(outcome) =>
         && (outcome == NetworkError || (outcome == ApiError(Mismatch) <==> call.compared && Disagree(c, h)))
         && call.applied == (if call.compared && !Disagree(c, h) then 1 else 0)
       case _ => false
  }

  lemma StepKeepsFate(s: System, a: Action, i: nat, c: Option<Token>, h: Option<Token>)
    requires Enabled(s, a) && i < |s.calls| && RetryFate(s.calls[i], c, h)
    ensures i < |Next(s, a).calls| && RetryFate(Next(s, a).calls[i], c, h)
  {
  }

  lemma {:induction false} RunKeepsFate(s: System, acts: seq<Action>, i: nat, c: Option<Token>, h: Option<Token>)
    requires Valid(s, acts) && i < |s.calls| && RetryFate(s.calls[i], c, h)
    ensures i < |Run(s, acts).calls| && RetryFate(Run(s, acts).calls[i], c, h)
    decreases |acts|
  {
    if acts != [] {
      StepKeepsFate(s, acts[0], i, c, h);
      RunKeepsFate(Next(s, acts[0]), acts[1..], i, c, h);
    }
  }

  /**
   Whatever happens between a retry and its end, the caller sees a second mismatch exactly if the retry reached the
   comparison, its answer was not lost, and at the moment it left the browser's cookie was not the token the client
   held.
   */
  lemma SecondMismatchIff(s: System, i: nat, acts: seq<Action>)
    requires Ok(s) && i < |s.calls| && s.calls[i].phase == Woken(true) && Valid(Next(s, Resume(i)), acts)
    requires i < |Run(Next(s, Resume(i)), acts).calls| && Run(Next(s, Resume(i)), acts).calls[i].phase.Done?
    ensures var call := Run(Next(s, Resume(i)), acts).calls[i];
            var outcome := call.phase.outcome;
            outcome == ApiError(Mismatch) <==>
              outcome != NetworkError && call.compared && Disagree(s.cookie, s.token)
  {
    assert CallOk(s.calls[i]);
    RunKeepsFate(Next(s, Resume(i)), acts, i, s.cookie, s.token);
  }

  /**
   Recovery works: a retry that leaves with the browser's cookie as its token, reaches the comparison and is not lost
   is handled once, and returns to its caller if the handler's reply is a success.
   */
  lemma AgreeingRetryIsHandled(s: System, i: nat, acts: seq<Action>)
    requires Ok(s) && i < |s.calls| && s.calls[i].phase == Woken(true) && Valid(Next(s, Resume(i)), acts)
    requires !Disagree(s.cookie, s.token)
    requires i < |Run(Next(s, Resume(i)), acts).calls| && Run(Next(s, Resume(i)), acts).calls[i].phase.Done?
    ensures var call := Run(Next(s, Resume(i)), acts).calls[i];
            && (call.compared ==> call.applied == 1)
            && (call.phase.outcome == Returned <==> call.replies == [Mismatch, Success])
            && (call.phase.outcome != NetworkError <==> |call.replies| == 2)
  {
    assert CallOk(s.calls[i]);
    NextKeeps(s, Resume(i));
    RunKeeps(Next(s, Resume(i)), acts);
    RunKeepsFate(Next(s, Resume(i)), acts, i, s.cookie, s.token);
    var call := Run(Next(s, Resume(i)), acts).calls[i];
    assert CallOk(call) && RetryFate(call, s.cookie, s.token);
    if |call.replies| == 2 { assert call.replies == [call.replies[0], call.replies[1]]; }
    if |call.replies| == 1 { assert call.replies == [Mismatch]; }
  }

  /** A waiting call whose refresh brings the cookie's token, and whose retry succeeds, returns after one handler. */
  lemma RefreshedCallReturns(s: System, k: nat, i: nat, c: Token, minted: Token) returns (acts: seq<Action>)
    requires Ok(s) && s.cookie == Some(c) && Enabled(s, ArriveRefresh(k))
    requires s.refreshes[k].token == Some(c) && Says(s.refreshes[k].setCookie, c)
    requires i < |s.calls| && s.calls[i].phase.Waiting?
    ensures acts == [ArriveRefresh(k), Resume(i), Serve(i, minted, Success, None), Arrive(i)] && Valid(s, acts)
    ensures i < |Run(s, acts).calls|
            && Run(s, acts).calls[i].phase == Done(Returned) && Run(s, acts).calls[i].applied == 1
  {
    var s1 := Next(s, ArriveRefresh(k));
    NextKeeps(s, ArriveRefresh(k));
    assert s1.calls[i] == WakeCall(s.calls[i], true);
    assert CallOk(s1.calls[i]);
    var s2 := Next(s1, Resume(i));
    var serve := Serve(i, minted, Success, None);
    var s3 := Next(s2, serve);
    assert s3.calls[i].phase == Replied(Reply(Success, None, None)) && s3.calls[i].applied == 1;
    Before(s3, Arrive(i), []);
    Before(s2, serve, [Arrive(i)] + []);
    Before(s1, Resume(i), [serve] + ([Arrive(i)] + []));
    acts := [ArriveRefresh(k)] + ([Resume(i)] + ([serve] + ([Arrive(i)] + [])));
    Before(s, ArriveRefresh(k), [Resume(i)] + ([serve] + ([Arrive(i)] + [])));
    assert acts == [ArriveRefresh(k), Resume(i), serve, Arrive(i)];
  }

  /** An answered GET leaves the client with the browser's token, so that a writing call made next passes. */
  lemma ReadingCallTeachesTheToken(s: System, i: nat, minted: Token, code: Code, rotated: Option<Token>)
    requires i < |s.calls| && s.calls[i].safe && s.calls[i].phase.OnWire? && s.calls[i].phase.cookie == s.cookie
    requires code != Mismatch
    ensures var acts := [Serve(i, minted, code, rotated), Arrive(i)];
            && Valid(s, acts)
            && Run(s, acts).token.Some? && Run(s, acts).token == Run(s, acts).cookie
            && Passes(false, Run(s, acts).cookie, Header(Run(s, acts), false))
  {
    var serve := Serve(i, minted, code, rotated);
    Before(Next(s, serve), Arrive(i), []);
    Before(s, serve, [Arrive(i)] + []);
    assert [serve] + ([Arrive(i)] + []) == [serve, Arrive(i)];
  }

  /** A call whose first request left with cookie `c` and header `h` goes past its first reply only if they differ. */
  predicate FirstFate(call: Call, safe: bool, c: Option<Token>, h: Option<Token>) {
    && call.safe == safe
    && (call.phase.OnWire? && !call.retry ==> call.phase == OnWire(c, h))
    && (call.phase.Replied? && !call.retry && call.phase.reply.code == Mismatch ==> !safe && Disagree(c, h))
    && (call.retry || call.phase.Waiting? || call.phase.Woken? ==> !safe && Disagree(c, h))
  }

  lemma StepKeepsFirstFate(s: System, a: Action, i: nat, safe: bool, c: Option<Token>, h: Option<Token>)
    requires Enabled(s, a) && i < |s.calls| && FirstFate(s.calls[i], safe, c, h)
    ensures i < |Next(s, a).calls| && FirstFate(Next(s, a).calls[i], safe, c, h)
  {
  }

  lemma {:induction false} RunKeepsFirstFate(s: System, acts: seq<Action>, i: nat, safe: bool, c: Option<Token>,
                                             h: Option<Token>)
    requires Valid(s, acts) && i < |s.calls| && FirstFate(s.calls[i], safe, c, h)
    ensures i < |Run(s, acts).calls| && FirstFate(Run(s, acts).calls[i], safe, c, h)
    decreases |acts|
  {
    if acts != [] {
      StepKeepsFirstFate(s, acts[0], i, safe, c, h);
      RunKeepsFirstFate(Next(s, acts[0]), acts[1..], i, safe, c, h);
    }
  }

  /** A call is sent a second time only if it is a writing one and the client did not hold the cookie's token. */
  lemma OnlyDisagreeingCallsAreRetried(s: System, safe: bool, acts: seq<Action>)
    requires Ok(s) && Valid(Next(s, Start(safe)), acts)
    requires |s.calls| < |Run(Next(s, Start(safe)), acts).calls|
    ensures Run(Next(s, Start(safe)), acts).calls[|s.calls|].sends == 2 ==> !safe && Disagree(s.cookie, s.token)
  {
    NextKeeps(s, Start(safe));
    var i := |s.calls|;
    RunKeepsFirstFate(Next(s, Start(safe)), acts, i, safe, s.cookie, Header(s, safe));
    RunKeeps(Next(s, Start(safe)), acts);
    assert CallOk(Run(Next(s, Start(safe)), acts).calls[i]);
  }

  lemma Before(s: System, a: Action, acts: seq<Action>)
    requires Enabled(s, a) && Valid(Next(s, a), acts)
    ensures Valid(s, [a] + acts) && Run(s, [a] + acts) == Run(Next(s, a), acts)
    ensures LeavesCookie(a) && AllLeaveCookie(acts) ==> AllLeaveCookie([a] + acts)
  {
    assert ([a] + acts)[1..] == acts;
  }

  lemma AnsweredRetry(s: System, i: nat)
    requires Ok(s) && i < |s.calls| && s.calls[i].phase == Woken(true)
    ensures Enabled(s, Resume(i)) && Enabled(Next(s, Resume(i)), Serve(i, 0, Success, None))
    ensures var p := Next(Next(s, Resume(i)), Serve(i, 0, Success, None));
            && Enabled(p, Arrive(i)) && p.calls[i].compared && p.calls[i].retry && p.calls[i].phase.Replied?
            && i < |Next(p, Arrive(i)).calls| && Next(p, Arrive(i)).calls[i].phase.Done?
            && Next(p, Arrive(i)).calls[i].compared && Next(p, Arrive(i)).calls[i].phase.outcome != NetworkError
  {
    assert CallOk(s.calls[i]);
  }

  /**
   The condition on refreshes is needed: wherever one without a token meets a waiting call of a client that does
   not hold the token, the next three steps of that call surface a mismatch, though the cookie never changed.
   */
  lemma TokenlessRefreshSurfaces(s: System, k: nat, i: nat, c: Token) returns (acts: seq<Action>)
    requires Ok(s) && CookieHolds(s, c) && Enabled(s, ArriveRefresh(k)) && !Recovers(s, ArriveRefresh(k), c)
    requires i < |s.calls| && s.calls[i].phase.Waiting?
    ensures Valid(s, acts) && AllLeaveCookie(acts)
    ensures i < |Run(s, acts).calls| && Run(s, acts).calls[i].phase == Done(ApiError(Mismatch))
  {
    var s1 := Next(s, ArriveRefresh(k));
    NextKeeps(s, ArriveRefresh(k));
    assert s1.calls[i] == WakeCall(s.calls[i], true);
    AnsweredRetry(s1, i);
    var s2 := Next(s1, Resume(i));
    var serve := Serve(i, 0, Success, None);
    Before(Next(s2, serve), Arrive(i), []);
    Before(s2, serve, [Arrive(i)] + []);
    acts := [serve] + ([Arrive(i)] + []);
    SecondMismatchIff(s1, i, acts);
    Before(s1, Resume(i), acts);
    Before(s, ArriveRefresh(k), [Resume(i)] + acts);
    acts := [ArriveRefresh(k)] + ([Resume(i)] + acts);
  }

  /** Such a state is met by the first call of a page that finds an old cookie and a failing session store. */
  lemma FirstCallMeetsTokenlessRefresh(c: Token) returns (start: System, acts: seq<Action>, s: System)
    ensures Init(start) && Ok(start) && CookieHolds(start, c) && Valid(start, acts) && AllLeaveCookie(acts)
    ensures Run(start, acts) == s && Ok(s) && CookieHolds(s, c)
    ensures Enabled(s, ArriveRefresh(0)) && !Recovers(s, ArriveRefresh(0), c)
    ensures |s.calls| == 1 && s.calls[0].phase.Waiting?
  {
    start := System(None, false, [], [], Some(c));
    var a, b, d, e := Start(false), Serve(0, 0, Success, None), Arrive(0), RejectRefresh(0);
    var s1 := Next(start, a);
    var s2 := Next(s1, b);
    assert s2.calls[0].phase == Replied(Reply(Mismatch, None, None));
    var s3 := Next(s2, d);
    assert s3.calls[0].phase.Waiting? && s3.refreshes == [Asked(Some(c))];
    s := Next(s3, e);
    Before(s3, e, []);
    Before(s2, d, [e] + []);
    Before(s1, b, [d] + ([e] + []));
    acts := [a] + ([b] + ([d] + ([e] + [])));
    Before(start, a, [b] + ([d] + ([e] + [])));
  }
}
