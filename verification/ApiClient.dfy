/**
 The request client with its two module variables updated in place. A method is one turn: a call, or the
 continuation of an awaited fetch. Each is proved to take its step of the recovery protocol.
 */
module ApiClient {
  import opened Options
  import opened Sequences
  import opened CsrfRecovery

  class Client {
    var csrfToken: Option<Token>
    var pendingCsrfRefresh: bool
    var calls: seq<Call>
    var refreshes: seq<Refresh>
    var browserCookie: Option<Token>

    ghost function View(): System
      reads this
    {
      System(csrfToken, pendingCsrfRefresh, calls, refreshes, browserCookie)
    }

    constructor (cookie: Option<Token>)
      ensures Init(View()) && browserCookie == cookie
    {
      csrfToken, pendingCsrfRefresh, calls, refreshes, browserCookie := None, false, [], [], cookie;
    }

    /** Learns the token a response carries, if it carries one. */
    method CaptureCsrfToken(token: Option<Token>)
      modifies this`csrfToken
      ensures csrfToken == OrElse(token, old(csrfToken))
    {
      if token.Some? {
        csrfToken := token;
      }
    }

    /** The browser stores the cookie of a response before the page sees it. */
    method StoreCookie(cookie: Option<Token>)
      modifies this`browserCookie
      ensures browserCookie == OrElse(cookie, old(browserCookie))
    {
      if cookie.Some? {
        browserCookie := cookie;
      }
    }

    /** The request headers: the token goes with everything but a GET, if there is one. */
    method Headers(safe: bool) returns (header: Option<Token>)
      ensures header == Header(View(), safe)
    {
      header := None;
      if !safe && csrfToken.Some? {
        header := csrfToken;
      }
    }

    /** A call up to its first await. */
    method ApiRequest(safe: bool)
      modifies this`calls
      ensures View() == StartCall(old(View()), safe)
    {
      var header := Headers(safe);
      calls := calls + [Call(safe, false, OnWire(browserCookie, header), 1, 0, false, [])];
    }

    /** Starts a refresh unless one is under way. */
    method RefreshCsrfToken()
      modifies this`pendingCsrfRefresh, this`refreshes
      ensures View() == JoinRefresh(old(View()))
    {
      if !pendingCsrfRefresh {
        pendingCsrfRefresh := true;
        refreshes := refreshes + [Asked(browserCookie)];
      }
    }

    /** The continuation after a reply: recover from a first mismatch, otherwise return or throw. */
    method OnReply(i: nat)
      requires i < |calls| && calls[i].phase.Replied?
      modifies this
      ensures View() == Receive(old(View()), i)
    {
      var c := calls[i];
      var reply := c.phase.reply;
      StoreCookie(reply.setCookie);
      CaptureCsrfToken(reply.token);
      c := c.(replies := c.replies + [reply.code]);
      if reply.code == Success {
        calls := calls[i := c.(phase := Done(Returned))];
        return;
      }
      if !c.retry && reply.code == Mismatch {
        calls := calls[i := c.(phase := Waiting)];
        RefreshCsrfToken();
        return;
      }
      calls := calls[i := c.(phase := Done(ApiError(reply.code)))];
    }

    method OnNetworkError(i: nat)
      requires i < |calls| && (calls[i].phase.OnWire? || calls[i].phase.Replied?)
      modifies this`calls
      ensures View() == Next(old(View()), Drop(i))
    {
      calls := calls[i := calls[i].(phase := Done(NetworkError))];
    }

    /** The `finally` of the refresh, and the settling of the promise all its callers share. */
    method SettleRefresh(k: nat, ok: bool)
      requires k < |refreshes|
      modifies this`pendingCsrfRefresh, this`refreshes, this`calls
      ensures View() == Settle(old(View()), k, ok)
    {
      pendingCsrfRefresh := false;
      refreshes := Without(refreshes, k);
      var woken := [];
      for i := 0 to |calls|
        invariant |woken| == i && forall j :: 0 <= j < i ==> woken[j] == WakeCall(calls[j], ok)
      {
        woken := woken + [WakeCall(calls[i], ok)];
      }
      calls := woken;
    }

    method OnRefreshReply(k: nat)
      requires k < |refreshes| && refreshes[k].Told?
      modifies this
      ensures View() == ReceiveRefresh(old(View()), k)
    {
      StoreCookie(refreshes[k].setCookie);
      CaptureCsrfToken(refreshes[k].token);
      SettleRefresh(k, true);
    }

    method OnRefreshFailed(k: nat)
      requires k < |refreshes|
      modifies this
      ensures View() == Settle(old(View()), k, false)
    {
      SettleRefresh(k, false);
    }

    /** After the shared refresh: the same request once more, marked as a retry. */
    method OnRefreshed(i: nat)
      requires i < |calls| && calls[i].phase.Woken?
      modifies this`calls
      ensures View() == ResumeCall(old(View()), i)
    {
      var c := calls[i];
      if !c.phase.ok {
        calls := calls[i := c.(phase := Done(NetworkError))];
        return;
      }
      var header := Headers(c.safe);
      calls := calls[i := c.(retry := true, sends := c.sends + 1, compared := false,
                               phase := OnWire(browserCookie, header))];
    }
  }
}
