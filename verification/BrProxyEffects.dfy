/** What each handler of the BR proxy server changes, in terms of the fields alone: which entry it picks, what the
    entry holds afterwards, and that everything else stays. */
module BrProxyEffects {
  import opened BrProxyServer
  import opened BrProxyProps

  // ---------- the first entry with a property ----------

  ghost predicate FirstProxy(ps: seq<Proxy>, i: nat, f: Proxy -> bool) {
    i < |ps| && f(ps[i]) && forall j | 0 <= j < i :: !f(ps[j])
  }

  ghost predicate NoProxy(ps: seq<Proxy>, f: Proxy -> bool) {
    forall j | 0 <= j < |ps| :: !f(ps[j])
  }

  ghost predicate FirstSession(ss: seq<Session>, i: nat, f: Session -> bool) {
    i < |ss| && f(ss[i]) && forall j | 0 <= j < i :: !f(ss[j])
  }

  ghost predicate NoSession(ss: seq<Session>, f: Session -> bool) {
    forall j | 0 <= j < |ss| :: !f(ss[j])
  }

  lemma ProxyFound(ps: seq<Proxy>, k: ProxyPick, f: Proxy -> bool, i: nat)
    requires forall p :: PicksProxy(k, p) == f(p)
    ensures NoProxy(ps, f) <==> FindProxy(ps, k) == |ps|
    ensures FirstProxy(ps, i, f) <==> FindProxy(ps, k) == i < |ps|
  {
    hide PicksProxy;
    var m := FindProxy(ps, k);
    assert m < |ps| ==> PicksProxy(k, ps[m]);
    assert forall j | 0 <= j < m :: !PicksProxy(k, ps[j]) && !f(ps[j]);
  }

  lemma SessionFound(ss: seq<Session>, k: SessionPick, f: Session -> bool, i: nat)
    requires forall c :: PicksSession(k, c) == f(c)
    ensures NoSession(ss, f) <==> FindSession(ss, k) == |ss|
    ensures FirstSession(ss, i, f) <==> FindSession(ss, k) == i < |ss|
  {
    hide PicksSession;
    var m := FindSession(ss, k);
    assert m < |ss| ==> PicksSession(k, ss[m]);
    assert forall j | 0 <= j < m :: !PicksSession(k, ss[j]) && !f(ss[j]);
  }

  ghost function Owns(b: Base, app: int, user: int): Proxy -> bool {
    (p: Proxy) => p.base == b && p.appIndex == app && p.userId == user
  }

  ghost function OfLink(b: Base, r: nat): Proxy -> bool {
    (p: Proxy) => p.base == b && p.requestId == r
  }

  ghost function LastOf(user: int): Proxy -> bool {
    (p: Proxy) => p.userId == user && p.isLast
  }

  ghost function OfCaller(b: Base, pid: int): Session -> bool {
    (c: Session) => c.base == b && c.pid == pid
  }

  ghost function OfRequest(r: nat): Session -> bool {
    (c: Session) => c.requestId == r
  }

  ghost function OfChannel(ch: int): Session -> bool {
    (c: Session) => c.channelId == ch
  }

  ghost function OfPid(pid: int): Session -> bool {
    (c: Session) => c.pid == pid
  }

  ghost function SessionOfLink(b: Base, r: nat): Session -> bool {
    (c: Session) => c.base == b && c.requestId == r
  }

  ghost function ListensOn(b: Base, r: nat): Session -> bool {
    (c: Session) => c.base == b && c.requestId == r && c.isReceiveCbSet
  }

  // ---------- the link goes down and comes back ----------

  /** A disconnected link: the first proxy of the address and request is not connected any more. A device that was
      unpaired has both lists emptied first. */
  lemma DisconnectedDoes(s: Srv, b: Base, r: nat, i: nat)
    ensures FirstProxy(s.proxies, i, OfLink(b, r)) ==>
              Step(s, OpDisconnected(b, r, false)) ==
                s.(proxies := s.proxies[i := s.proxies[i].(isConnected := false)])
    ensures NoProxy(s.proxies, OfLink(b, r)) ==> Step(s, OpDisconnected(b, r, false)) == s
    ensures Lists(s) ==>
              Step(s, OpDisconnected(b, r, true)) == s.(sessions := [], sessionCnt := 0, proxies := [], proxyCnt := 0)
  {
    ProxyFound(s.proxies, ByBaseRequest(b, r), OfLink(b, r), i);
    if Lists(s) {
      CloseAllExactly(s);
    }
    hide FindProxy, CloseAll, Lists;
  }

  lemma ReconnectedDoes(s: Srv, b: Base, r: nat, i: nat)
    ensures FirstProxy(s.proxies, i, OfLink(b, r)) ==>
              Step(s, OpReconnected(b, r)) ==
                s.(proxies := s.proxies[i := s.proxies[i].(isConnected := true, isVirtual := false,
                                                           isRecovery := false)])
    ensures NoProxy(s.proxies, OfLink(b, r)) ==> Step(s, OpReconnected(b, r)) == s
  {
    ProxyFound(s.proxies, ByBaseRequest(b, r), OfLink(b, r), i);
    hide FindProxy;
  }

  /** A user comes to the front: the first proxy of that user that was last connected is to be recovered. */
  lemma UserSwitchedDoes(s: Srv, user: int, i: nat)
    ensures FirstProxy(s.proxies, i, LastOf(user)) ==>
              Step(s, OpUserSwitched(user)) == s.(proxies := s.proxies[i := s.proxies[i].(isRecovery := true)])
    ensures NoProxy(s.proxies, LastOf(user)) ==> Step(s, OpUserSwitched(user)) == s
  {
    ProxyFound(s.proxies, ByLastConnect(user), LastOf(user), i);
    hide FindProxy;
  }

  // ---------- sessions that go ----------

  /** A client died: the first session of its process goes and nothing else. */
  lemma ClientDiedDoes(s: Srv, pid: int, i: nat)
    ensures FirstSession(s.sessions, i, OfPid(pid)) ==>
              Step(s, OpClientDied(pid)) ==
                s.(sessions := s.sessions[..i] + s.sessions[i + 1..], sessionCnt := s.sessionCnt - 1)
    ensures NoSession(s.sessions, OfPid(pid)) ==> Step(s, OpClientDied(pid)) == s
  {
    SessionFound(s.sessions, ByPid(pid), OfPid(pid), i);
    hide FindSession;
  }

  /** A permission was revoked: the channel of the first session of the process is closed as its owner would. */
  lemma RevokedDoes(s: Srv, pid: int, i: nat, k: nat)
    ensures FirstSession(s.sessions, i, OfPid(pid)) &&
            FirstSession(s.sessions, k, OfChannel(s.sessions[i].channelId)) ==>
              Step(s, OpRevoked(pid)) == Step(s, OpClose(s.sessions[i].channelId, s.sessions[k].token))
    ensures NoSession(s.sessions, OfPid(pid)) ==> Step(s, OpRevoked(pid)) == s
  {
    SessionFound(s.sessions, ByPid(pid), OfPid(pid), i);
    if FirstSession(s.sessions, i, OfPid(pid)) {
      var ch := s.sessions[i].channelId;
      SessionFound(s.sessions, ByChannel(ch), OfChannel(ch), k);
    }
    hide FindSession, DeleteSession, DisableProxy;
  }

  /** An application was uninstalled: its sessions go and the others keep their order. */
  lemma {:induction false} UninstallDoes(xs: seq<Session>, ys: seq<Session>, app: int, user: int)
    ensures Survivors(xs + ys, app, user) == Survivors(xs, app, user) + Survivors(ys, app, user)
    ensures |xs| == 1 ==> Survivors(xs, app, user) == if xs[0].appIndex == app && xs[0].userId == user then [] else xs
  {
    if xs == [] {
      assert xs + ys == ys;
    } else {
      assert (xs + ys)[1..] == xs[1..] + ys;
      UninstallDoes(xs[1..], ys, app, user);
    }
  }

  /** The channel of a request could not be opened: nothing is left of its session, unless its proxy is enabled, which
      then goes on virtually, or is being recovered. */
  lemma OpenFailedDoes(s: Srv, r: nat, i: nat, j: nat, k: nat)
    ensures r == 10_000_000 || NoSession(s.sessions, OfRequest(r)) ==> Step(s, OpOpenFailed(r)) == s
    ensures r != 10_000_000 && FirstSession(s.sessions, i, OfRequest(r)) ==>
              var c := s.sessions[i];
              && (FirstProxy(s.proxies, j, OfLink(c.base, r)) && s.proxies[j].isEnable ==>
                    Step(s, OpOpenFailed(r)) == s.(proxies := s.proxies[j := s.proxies[j].(isVirtual := true)]))
              && (FirstProxy(s.proxies, j, OfLink(c.base, r)) && !s.proxies[j].isEnable && s.proxies[j].isRecovery ==>
                    Step(s, OpOpenFailed(r)) == s)
              && (NoProxy(s.proxies, OfLink(c.base, r))
                  || (FirstProxy(s.proxies, j, OfLink(c.base, r)) && !s.proxies[j].isEnable && !s.proxies[j].isRecovery)
                  ==> FirstSession(s.sessions, k, OfChannel(c.channelId)) ==>
                        Step(s, OpOpenFailed(r)) ==
                          s.(sessions := s.sessions[..k] + s.sessions[k + 1..], sessionCnt := s.sessionCnt - 1))
  {
    SessionFound(s.sessions, ByRequest(r), OfRequest(r), i);
    if r != 10_000_000 && FirstSession(s.sessions, i, OfRequest(r)) {
      var c := s.sessions[i];
      ProxyFound(s.proxies, ByBaseRequest(c.base, r), OfLink(c.base, r), j);
      SessionFound(s.sessions, ByChannel(c.channelId), OfChannel(c.channelId), k);
    }
    hide FindSession, FindProxy;
  }

  ghost function OfApp(b: Base, app: int, r: nat): Proxy -> bool {
    (p: Proxy) => p.base == b && p.appIndex == app && p.requestId == r
  }

  /** A success report whose session belongs to an application without a proxy of the request: the link becomes the last
      connected one, and no proxy is enabled or connected. */
  lemma OpenSucceededForNobody(s: Srv, b: Base, r: nat, user: int, i: nat, j: nat)
    requires r != 10_000_000 && FirstSession(s.sessions, i, OfRequest(r)) && FirstProxy(s.proxies, j, OfLink(b, r))
    requires s.proxies[j].userId == user && !NoSession(s.sessions, SessionOfLink(b, r))
    requires NoProxy(s.proxies, OfApp(s.sessions[i].base, s.sessions[i].appIndex, r))
    ensures var t := Step(s, OpOpenSucceeded(b, r, user));
            && t == s.(proxies := t.proxies) && |t.proxies| == |s.proxies|
            && forall k | 0 <= k < |s.proxies| ::
                 t.proxies[k] == s.proxies[k].(isLast := s.proxies[k].base == b && s.proxies[k].requestId == r)
  {
    SessionFound(s.sessions, ByRequest(r), OfRequest(r), i);
    SessionFound(s.sessions, ByLink(b, r), SessionOfLink(b, r), 0);
    ProxyFound(s.proxies, ByBaseRequest(b, r), OfLink(b, r), j);
    var c, m := s.sessions[i], MarkLast(s.proxies, b, r);
    ProxyFound(m, ByAppRequest(c.base, c.appIndex, r), OfApp(c.base, c.appIndex, r), 0);
    assert forall k | 0 <= k < |m| :: m[k].base == s.proxies[k].base && m[k].requestId == s.proxies[k].requestId;
    hide FindSession, FindProxy, MarkLast, EnableProxy, SetConnected;
  }

  /** The other endings of a success report: without a session of the request or a proxy of the link nothing happens,
      for a proxy of another user it goes on virtually, and without a session of the link itself nothing happens. */
  lemma OpenSucceededElse(s: Srv, b: Base, r: nat, user: int, j: nat)
    ensures r == 10_000_000 || NoSession(s.sessions, OfRequest(r)) || NoProxy(s.proxies, OfLink(b, r)) ==>
              Step(s, OpOpenSucceeded(b, r, user)) == s
    ensures r != 10_000_000 && !NoSession(s.sessions, OfRequest(r)) && FirstProxy(s.proxies, j, OfLink(b, r)) ==>
              && (s.proxies[j].userId != user ==>
                    Step(s, OpOpenSucceeded(b, r, user)) ==
                      s.(proxies := s.proxies[j := s.proxies[j].(isVirtual := true)]))
              && (s.proxies[j].userId == user && NoSession(s.sessions, SessionOfLink(b, r)) ==>
                    Step(s, OpOpenSucceeded(b, r, user)) == s)
  {
    SessionFound(s.sessions, ByRequest(r), OfRequest(r), 0);
    SessionFound(s.sessions, ByLink(b, r), SessionOfLink(b, r), 0);
    ProxyFound(s.proxies, ByBaseRequest(b, r), OfLink(b, r), j);
    hide FindSession, FindProxy, MarkLast, EnableProxy, SetConnected;
  }

  // ---------- opening ----------

  ghost function NewProxy(b: Base, c: Caller): Proxy {
    Proxy(b, c.appIndex, c.userId, c.bundle, c.ability, c.uid, c.pid, 0, 0, false, false, false, false, false)
  }

  ghost function NewSession(b: Base, c: Caller, ch: int, r: nat): Session {
    Session(b, c.pid, c.uid, c.token, ch, c.appIndex, c.userId, r, false, false)
  }

  /** The proxies after an open: the owner's one carries the identity of the caller and is not recovering any more, or
      there is a new one in front. */
  ghost function Refreshed(ps: seq<Proxy>, b: Base, c: Caller, i: nat): seq<Proxy> {
    if i < |ps| then
      ps[i := ps[i].(uid := c.uid, pid := c.pid, bundle := c.bundle, ability := c.ability, isRecovery := false)]
    else [NewProxy(b, c)] + ps
  }

  /** `i` is where the owner's proxy is, and |ps| if there is none. */
  ghost predicate OwnerAt(ps: seq<Proxy>, b: Base, c: Caller, i: nat) {
    FirstProxy(ps, i, Owns(b, c.appIndex, c.userId)) || (i == |ps| && NoProxy(ps, Owns(b, c.appIndex, c.userId)))
  }

  ghost predicate CallerAt(ss: seq<Session>, b: Base, c: Caller, j: nat) {
    FirstSession(ss, j, OfCaller(b, c.pid)) || (j == |ss| && NoSession(ss, OfCaller(b, c.pid)))
  }

  lemma AddProxyDoes(s: Srv, b: Base, c: Caller, i: nat)
    requires OwnerAt(s.proxies, b, c, i)
    ensures var t, at := AddProxy(s, b, c), if i < |s.proxies| then i else 0;
            && t == s.(proxies := Refreshed(s.proxies, b, c, i),
                       proxyCnt := s.proxyCnt + (if i < |s.proxies| then 0 else 1))
            && FindProxy(t.proxies, ByOwner(b, c.appIndex, c.userId)) == at < |t.proxies|
  {
    var k := ByOwner(b, c.appIndex, c.userId);
    ProxyFound(s.proxies, k, Owns(b, c.appIndex, c.userId), i);
    var t := AddProxy(s, b, c);
    if i < |s.proxies| {
      assert forall j | 0 <= j < |s.proxies| :: SameOwner(s.proxies[j], t.proxies[j]);
      OwnerStays(s.proxies, t.proxies, k);
    } else {
      assert PicksProxy(k, t.proxies[0]) && FindProxy(t.proxies, k) == 0;
    }
    hide FindProxy;
  }

  lemma AddSessionDoes(s: Srv, b: Base, c: Caller, ch: int, r: nat, userOk: bool, j: nat)
    requires CallerAt(s.sessions, b, c, j)
    ensures AddSession(s, b, c, ch, r, userOk) ==
              if j < |s.sessions| then (s.(sessions := s.sessions[j := s.sessions[j].(requestId := r)]), OK)
              else if !userOk then (s, GetUserErr)
              else (s.(sessions := [NewSession(b, c, ch, r)] + s.sessions, sessionCnt := s.sessionCnt + 1), OK)
  {
    SessionFound(s.sessions, ByCaller(b, c.pid), OfCaller(b, c.pid), j);
    hide FindSession;
  }

  /** A foreground open that succeeds: the owner's proxy has the new request id; the caller's session has it too, or
      there is a new session in front under the next channel id. */
  lemma ForegroundOpenDoes(s: Srv, b: Base, c: Caller, e: Env, i: nat, j: nat)
    requires e.user == c.userId && OwnerAt(s.proxies, b, c, i) && CallerAt(s.sessions, b, c, j)
    requires e.openOk && (j < |s.sessions| || e.userOk)
    ensures var (t, ret) := Open(s, b, c, e);
            var ps, at := Refreshed(s.proxies, b, c, i), if i < |s.proxies| then i else 0;
            && ret == OK && at < |ps|
            && t.proxies == ps[at := ps[at].(requestId := e.newRequest)]
            && t.sessions == (if j < |s.sessions| then s.sessions[j := s.sessions[j].(requestId := e.newRequest)]
                              else [NewSession(b, c, s.lastChannelId + 1, e.newRequest)] + s.sessions)
            && t == s.(proxies := t.proxies, proxyCnt := t.proxyCnt, sessions := t.sessions, sessionCnt := t.sessionCnt,
                       lastChannelId := s.lastChannelId + 1)
  {
    hide FindProxy, FindSession, AddProxy, AddSession;
    var s1 := AddProxy(s, b, c);
    AddProxyDoes(s, b, c, i);
    var s2 := SetRequest(s1, b, c.appIndex, e.user, e.newRequest).(lastChannelId := s.lastChannelId + 1);
    AddSessionDoes(s2, b, c, s.lastChannelId + 1, e.newRequest, e.userOk, j);
  }

  /** An open that fails says why. */
  lemma ForegroundOpenFails(s: Srv, b: Base, c: Caller, e: Env, j: nat)
    requires e.user == c.userId && CallerAt(s.sessions, b, c, j)
    ensures var ret := Open(s, b, c, e).1;
            ret == if j == |s.sessions| && !e.userOk then GetUserErr else if !e.openOk then OpenErr else OK
  {
    var s1 := AddProxy(s, b, c);
    AddedIsThere(s, b, c);
    var s2 := SetRequest(s1, b, c.appIndex, e.user, e.newRequest).(lastChannelId := s1.lastChannelId + 1);
    assert s2.sessions == s.sessions;
    AddSessionDoes(s2, b, c, s2.lastChannelId, e.newRequest, e.userOk, j);
    hide FindProxy, FindSession, AddProxy, AddSession, SetRequest, DeleteSession;
  }

  lemma AddedIsThere(s: Srv, b: Base, c: Caller)
    ensures var t := AddProxy(s, b, c);
            t.sessions == s.sessions && FindProxy(t.proxies, ByOwner(b, c.appIndex, c.userId)) < |t.proxies|
  {
    var k := ByOwner(b, c.appIndex, c.userId);
    var i := FindProxy(s.proxies, k);
    ProxyFound(s.proxies, k, Owns(b, c.appIndex, c.userId), i);
    AddProxyDoes(s, b, c, i);
    hide AddProxy, FindProxy;
  }

  /** An open from the background: an enabled proxy lends its request and channel id to the session, any other gets new
      ones and counts as last connected; without a session and a user identity it stops there. In the end the first
      proxy of that link goes on virtually. */
  lemma BackgroundOpenDoes(s: Srv, b: Base, c: Caller, e: Env, i: nat, j: nat, k: nat)
    requires e.user != c.userId && OwnerAt(s.proxies, b, c, i) && CallerAt(s.sessions, b, c, j)
    ensures var (t, ret) := Open(s, b, c, e);
            var ps, at := Refreshed(s.proxies, b, c, i), if i < |s.proxies| then i else 0;
            && at < |ps|
            && var was := ps[at];
            && var q := if was.isEnable then was
                        else was.(isLast := true, requestId := e.newRequest, channelId := s.lastChannelId + 1);
            && ret == (if j < |s.sessions| || e.userOk then OK else GetUserErr)
            && t.lastChannelId == s.lastChannelId + (if was.isEnable then 0 else 1)
            && t.sessions == (if j < |s.sessions| then s.sessions[j := s.sessions[j].(requestId := q.requestId)]
                              else if e.userOk then [NewSession(b, c, q.channelId, q.requestId)] + s.sessions
                              else s.sessions)
            && (ret != OK ==> t.proxies == ps[at := q])
            && (ret == OK && FirstProxy(ps[at := q], k, OfLink(b, q.requestId)) ==>
                  t.proxies == ps[at := q][k := ps[at := q][k].(isVirtual := true)])
  {
    hide FindProxy, FindSession, AddProxy, AddSession;
    var s1 := AddProxy(s, b, c);
    AddProxyDoes(s, b, c, i);
    var at := if i < |s.proxies| then i else 0;
    var p := s1.proxies[at];
    var s2 := if p.isEnable then s1
              else SetProxy(s1, at, p.(isLast := true, requestId := e.newRequest, channelId := s1.lastChannelId + 1))
                   .(lastChannelId := s1.lastChannelId + 1);
    var q := s2.proxies[at];
    assert s2.proxies == s1.proxies[at := q];
    AddSessionDoes(s2, b, c, q.channelId, q.requestId, e.userOk, j);
    ProxyFound(s2.proxies, ByBaseRequest(b, q.requestId), OfLink(b, q.requestId), k);
  }

  // ---------- data ----------

  /** The data list taken apart: what is pending for an address and a user is exactly the items of that address and
      user, in order, and the others are exactly the rest. */
  lemma PendingDoes(xs: seq<Item>, x: Item, b: Base, user: int)
    ensures Pending(xs + [x], b, user) ==
              Pending(xs, b, user) + (if x.base == b && x.userId == user then [x] else [])
    ensures Others(xs + [x], b, user) == Others(xs, b, user) + (if x.base == b && x.userId == user then [] else [x])
  {
    PendingSplits(xs, [x], b, user);
    OthersSplits(xs, x, b, user);
  }

  lemma {:induction false} OthersSplits(xs: seq<Item>, x: Item, b: Base, user: int)
    ensures Others(xs + [x], b, user) == Others(xs, b, user) + Others([x], b, user)
  {
    if xs == [] {
      assert xs + [x] == [x];
    } else {
      assert (xs + [x])[1..] == xs[1..] + [x];
      OthersSplits(xs[1..], x, b, user);
    }
  }

  lemma DataHands(s: Srv, b: Base, r: nat, data: seq<Byte>, user: int, running: bool, pid: int, i: nat)
    requires FirstSession(s.sessions, i, ListensOn(b, r))
    ensures var t, c := Step(s, OpData(b, r, data, user, running, pid)), s.sessions[i];
            || t.delivered == s.delivered
            || t.delivered ==
                 s.delivered + Handed(Pending(s.items + [Item(b, user, data)], b, user), c.pid, c.channelId)
  {
    SessionFound(s.sessions, ByListener(b, r), ListensOn(b, r), i);
    hide FindSession, FindProxy, Pending, Others, Handed;
  }

  /** Data that is handed over goes, with everything that was pending before it, to the first session of the link that
      listens. */
  lemma DataGoesToFirstListener(s: Srv, b: Base, r: nat, data: seq<Byte>, user: int, running: bool, pid: int, i: nat,
                                k: nat)
    requires FirstSession(s.sessions, i, ListensOn(b, r))
    requires var t := Step(s, OpData(b, r, data, user, running, pid)); |s.delivered| <= k < |t.delivered|
    ensures var t := Step(s, OpData(b, r, data, user, running, pid));
            && t.delivered[k].pid == s.sessions[i].pid && t.delivered[k].channelId == s.sessions[i].channelId
            && t.delivered[k].item.base == b && t.delivered[k].item.userId == user
            && t.delivered[|t.delivered| - 1].item == Item(b, user, data)
  {
    hide Step, Handed;
    DataHands(s, b, r, data, user, running, pid, i);
    var x := Item(b, user, data);
    var q := Pending(s.items + [x], b, user);
    PendingSplits(s.items, [x], b, user);
    assert Pending([x], b, user) == [x];
    hide Pending;
    assert q[|q| - 1] == x;
    assert q[k - |s.delivered|] in q;
  }
}
