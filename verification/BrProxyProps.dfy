/** What every handler of the BR proxy server keeps, and what each of the hard ones achieves. */
module BrProxyProps {
  import opened BrProxyServer

  // ---------- the invariant ----------

  ghost predicate SameOwner(p: Proxy, q: Proxy) {
    p.base == q.base && p.appIndex == q.appIndex && p.userId == q.userId
  }

  ghost predicate Issued(channelId: int, last: int) {
    1 <= channelId <= last
  }

  ghost predicate ProxiesOk(ps: seq<Proxy>, last: int) {
    && (forall i, j | 0 <= i < j < |ps| :: !SameOwner(ps[i], ps[j]))
    && (forall i | 0 <= i < |ps| && ps[i].isEnable :: Issued(ps[i].channelId, last))
  }

  ghost predicate SessionsOk(ss: seq<Session>, last: int) {
    && (forall i, j | 0 <= i < j < |ss| :: ss[i].base != ss[j].base || ss[i].pid != ss[j].pid)
    && (forall i | 0 <= i < |ss| :: Issued(ss[i].channelId, last))
  }

  ghost predicate OwnedBy(c: Session, ps: seq<Proxy>) {
    exists j :: 0 <= j < |ps| && ps[j].base == c.base && ps[j].appIndex == c.appIndex && ps[j].userId == c.userId
  }

  /** No session outlives the proxy of its application. */
  ghost predicate AllOwned(ss: seq<Session>, ps: seq<Proxy>) {
    forall i | 0 <= i < |ss| :: OwnedBy(ss[i], ps)
  }

  ghost predicate Lists(s: Srv) {
    && s.lastChannelId >= 0
    && s.sessionCnt == |s.sessions| && s.proxyCnt == |s.proxies| && s.itemCnt == |s.items|
    && ProxiesOk(s.proxies, s.lastChannelId)
    && SessionsOk(s.sessions, s.lastChannelId)
    && AllOwned(s.sessions, s.proxies)
  }

  // ---------- primitives keep the lists ----------

  ghost predicate SameData(s: Srv, t: Srv) {
    s.items == t.items && s.itemCnt == t.itemCnt && s.received == t.received && s.delivered == t.delivered
  }

  lemma SetProxyKeeps(s: Srv, i: nat, p: Proxy)
    requires Lists(s) && i < |s.proxies| && SameOwner(p, s.proxies[i])
    requires p.isEnable ==> Issued(p.channelId, s.lastChannelId)
    ensures Lists(SetProxy(s, i, p)) && SameData(s, SetProxy(s, i, p))
  {
    hide AllOwned, SessionsOk, ProxiesOk;
    var t := SetProxy(s, i, p);
    SetKeepsProxies(s.proxies, i, p, s.lastChannelId);
    OwnersKept(s.sessions, s.proxies, t.proxies);
  }

  lemma SetKeepsProxies(ps: seq<Proxy>, i: nat, p: Proxy, last: int)
    requires ProxiesOk(ps, last) && i < |ps| && SameOwner(p, ps[i]) && (p.isEnable ==> Issued(p.channelId, last))
    ensures ProxiesOk(ps[i := p], last)
    ensures forall j | 0 <= j < |ps| :: SameOwner(ps[j], ps[i := p][j])
  {
    var qs := ps[i := p];
    forall j, k | 0 <= j < k < |qs| ensures !SameOwner(qs[j], qs[k]) {
      assert !SameOwner(ps[j], ps[k]);
    }
  }

  lemma OwnersKept(ss: seq<Session>, ps: seq<Proxy>, qs: seq<Proxy>)
    requires AllOwned(ss, ps) && |qs| >= |ps|
    requires forall j | 0 <= j < |ps| :: SameOwner(ps[j], qs[|qs| - |ps| + j])
    ensures AllOwned(ss, qs)
  {
    forall i | 0 <= i < |ss|
      ensures OwnedBy(ss[i], qs)
    {
      assert OwnedBy(ss[i], ps);
      var j :| 0 <= j < |ps| && ps[j].base == ss[i].base && ps[j].appIndex == ss[i].appIndex
               && ps[j].userId == ss[i].userId;
      assert SameOwner(ps[j], qs[|qs| - |ps| + j]);
    }
  }

  lemma DeleteSessionKeeps(s: Srv, k: SessionPick)
    requires Lists(s)
    ensures Lists(DeleteSession(s, k)) && SameData(s, DeleteSession(s, k))
  {
    var i := FindSession(s.sessions, k);
    var t := DeleteSession(s, k);
    if i < |s.sessions| {
      assert forall j | 0 <= j < |t.sessions| :: t.sessions[j] == s.sessions[if j < i then j else j + 1];
    }
  }

  lemma AddProxyKeeps(s: Srv, b: Base, c: Caller)
    requires Lists(s)
    ensures Lists(AddProxy(s, b, c)) && SameData(s, AddProxy(s, b, c))
    ensures HasProxy(AddProxy(s, b, c), ByOwner(b, c.appIndex, c.userId))
  {
    var i := FindProxy(s.proxies, ByOwner(b, c.appIndex, c.userId));
    var t := AddProxy(s, b, c);
    if i < |s.proxies| {
      SetProxyKeeps(s, i, t.proxies[i]);
      assert PicksProxy(ByOwner(b, c.appIndex, c.userId), t.proxies[i]);
    } else {
      assert forall j | 0 <= j < |s.proxies| :: !PicksProxy(ByOwner(b, c.appIndex, c.userId), s.proxies[j]);
      InFrontKeeps(s, t.proxies[0]);
    }
    hide FindProxy;
  }

  lemma InFrontKeeps(s: Srv, p: Proxy)
    requires Lists(s) && !p.isEnable && forall j | 0 <= j < |s.proxies| :: !SameOwner(p, s.proxies[j])
    ensures Lists(s.(proxies := [p] + s.proxies, proxyCnt := s.proxyCnt + 1))
  {
    hide SessionsOk, AllOwned;
    var ps := [p] + s.proxies;
    assert forall j | 0 <= j < |s.proxies| :: ps[j + 1] == s.proxies[j];
    assert forall j | 0 < j < |ps| :: ps[j] == s.proxies[j - 1];
    OwnersKept(s.sessions, s.proxies, ps);
  }

  lemma AddSessionKeeps(s: Srv, b: Base, c: Caller, ch: int, r: nat, userOk: bool)
    requires Lists(s) && Issued(ch, s.lastChannelId)
    requires HasProxy(s, ByOwner(b, c.appIndex, c.userId))
    ensures var t := AddSession(s, b, c, ch, r, userOk).0;
            Lists(t) && SameData(s, t) && t.proxies == s.proxies && t.lastChannelId == s.lastChannelId
  {
    var i := FindSession(s.sessions, ByCaller(b, c.pid));
    var t := AddSession(s, b, c, ch, r, userOk).0;
    if i == |s.sessions| && userOk {
      assert forall j | 0 <= j < |s.sessions| :: !PicksSession(ByCaller(b, c.pid), s.sessions[j]);
      assert t.sessions == [t.sessions[0]] + s.sessions;
      var p := FindProxy(s.proxies, ByOwner(b, c.appIndex, c.userId));
      assert PicksProxy(ByOwner(b, c.appIndex, c.userId), s.proxies[p]);
      assert OwnedBy(t.sessions[0], s.proxies);
      assert AllOwned(t.sessions, s.proxies);
    } else if i < |s.sessions| {
      assert forall j | 0 <= j < |s.sessions| :: t.sessions[j] == s.sessions[j].(requestId := t.sessions[j].requestId);
      forall j | 0 <= j < |t.sessions|
        ensures OwnedBy(t.sessions[j], s.proxies)
      {
        assert OwnedBy(s.sessions[j], s.proxies);
      }
    }
  }

  lemma SetRequestKeeps(s: Srv, b: Base, appIndex: int, user: int, r: nat)
    requires Lists(s)
    ensures var t := SetRequest(s, b, appIndex, user, r);
            && Lists(t) && SameData(s, t) && t == s.(proxies := t.proxies)
            && |t.proxies| == |s.proxies|
            && (forall j | 0 <= j < |s.proxies| :: SameOwner(t.proxies[j], s.proxies[j]))
  {
    var i := FindProxy(s.proxies, ByOwner(b, appIndex, user));
    if i < |s.proxies| {
      SetProxyKeeps(s, i, s.proxies[i].(requestId := r));
    }
  }

  lemma NewChannelKeeps(s: Srv)
    requires Lists(s)
    ensures Lists(s.(lastChannelId := s.lastChannelId + 1))
  {
  }

  lemma {:induction false} OwnerStays(ps: seq<Proxy>, qs: seq<Proxy>, k: ProxyPick)
    requires k.ByOwner? && |ps| == |qs|
    requires forall j | 0 <= j < |ps| :: SameOwner(ps[j], qs[j])
    ensures FindProxy(ps, k) == FindProxy(qs, k)
  {
    if ps != [] {
      assert SameOwner(ps[0], qs[0]);
      assert forall j | 0 <= j < |ps[1..]| :: ps[1..][j] == ps[j + 1] && qs[1..][j] == qs[j + 1];
      OwnerStays(ps[1..], qs[1..], k);
    }
  }

  lemma ConnectKeeps(s: Srv, b: Base, c: Caller, e: Env)
    requires Lists(s) && HasProxy(s, ByOwner(b, c.appIndex, c.userId))
    ensures Lists(Connect(s, b, c, e).0) && SameData(s, Connect(s, b, c, e).0)
  {
    hide SetRequest, AddSession, DeleteSession, FindProxy;
    var i := FindProxy(s.proxies, ByOwner(b, c.appIndex, e.user));
    if i < |s.proxies| {
      SetRequestKeeps(s, b, c.appIndex, e.user, e.newRequest);
      var s0 := SetRequest(s, b, c.appIndex, e.user, e.newRequest);
      OwnerStays(s.proxies, s0.proxies, ByOwner(b, c.appIndex, c.userId));
      NewChannelKeeps(s0);
      hide Lists;
      var s1 := s0.(lastChannelId := s.lastChannelId + 1);
      AddSessionKeeps(s1, b, c, s1.lastChannelId, e.newRequest, e.userOk);
      var s2 := AddSession(s1, b, c, s1.lastChannelId, e.newRequest, e.userOk).0;
      SetRequestKeeps(s2, b, c.appIndex, e.user, s.proxies[i].requestId);
      DeleteSessionKeeps(SetRequest(s2, b, c.appIndex, e.user, s.proxies[i].requestId), ByChannel(s1.lastChannelId));
    }
  }

  lemma MakeVirtualKeeps(s: Srv, b: Base, r: nat)
    requires Lists(s)
    ensures Lists(MakeVirtual(s, b, r)) && SameData(s, MakeVirtual(s, b, r))
  {
    var i := FindProxy(s.proxies, ByBaseRequest(b, r));
    if i < |s.proxies| {
      SetProxyKeeps(s, i, s.proxies[i].(isVirtual := true));
    }
  }

  lemma SetConnectedKeeps(s: Srv, b: Base, r: nat, connected: bool)
    requires Lists(s)
    ensures Lists(SetConnected(s, b, r, connected)) && SameData(s, SetConnected(s, b, r, connected))
  {
    var i := FindProxy(s.proxies, ByBaseRequest(b, r));
    if i < |s.proxies| {
      SetProxyKeeps(s, i, SetConnected(s, b, r, connected).proxies[i]);
    }
  }

  lemma DisableProxyKeeps(s: Srv, r: nat)
    requires Lists(s)
    ensures Lists(DisableProxy(s, r)) && SameData(s, DisableProxy(s, r))
    ensures DisableProxy(s, r).sessions == s.sessions
  {
    var i := FindProxy(s.proxies, ByRequestOnly(r));
    if i < |s.proxies| {
      SetProxyKeeps(s, i, DisableProxy(s, r).proxies[i]);
    }
  }

  lemma OpenInBackgroundKeeps(s: Srv, b: Base, c: Caller, e: Env)
    requires Lists(s) && HasProxy(s, ByOwner(b, c.appIndex, c.userId))
    ensures Lists(OpenInBackground(s, b, c, e).0) && SameData(s, OpenInBackground(s, b, c, e).0)
  {
    hide AddSession, MakeVirtual, FindProxy;
    var k := ByOwner(b, c.appIndex, c.userId);
    var i := FindProxy(s.proxies, k);
    var p := s.proxies[i];
    assert p.isEnable ==> Issued(p.channelId, s.lastChannelId);
    var p' := p.(isLast := true, requestId := e.newRequest, channelId := s.lastChannelId + 1);
    var s0 := SetProxy(s, i, p');
    if !p.isEnable {
      SetProxyKeeps(s, i, p');
      NewChannelKeeps(s0);
      OwnerStays(s.proxies, s0.proxies, k);
    }
    assert s.lastChannelId >= 0;
    hide Lists;
    var s1 := if p.isEnable then s else s0.(lastChannelId := s.lastChannelId + 1);
    var q := s1.proxies[i];
    AddSessionKeeps(s1, b, c, q.channelId, q.requestId, e.userOk);
    MakeVirtualKeeps(AddSession(s1, b, c, q.channelId, q.requestId, e.userOk).0, b, q.requestId);
  }

  lemma OpenKeeps(s: Srv, b: Base, c: Caller, e: Env)
    requires Lists(s)
    ensures Lists(Open(s, b, c, e).0) && SameData(s, Open(s, b, c, e).0)
  {
    AddProxyKeeps(s, b, c);
    var s1 := AddProxy(s, b, c);
    ConnectKeeps(s1, b, c, e);
    OpenInBackgroundKeeps(s1, b, c, e);
    hide AddProxy, Connect, OpenInBackground, Lists;
  }

  lemma MarkLastKeeps(s: Srv, b: Base, r: nat)
    requires Lists(s)
    ensures Lists(s.(proxies := MarkLast(s.proxies, b, r)))
  {
    var ps := MarkLast(s.proxies, b, r);
    assert forall j | 0 <= j < |ps| :: SameOwner(s.proxies[j], ps[j]);
    OwnersKept(s.sessions, s.proxies, ps);
  }

  lemma EnableProxyKeeps(s: Srv, b: Base, appIndex: int, r: nat, ch: int)
    requires Lists(s) && Issued(ch, s.lastChannelId)
    ensures Lists(EnableProxy(s, b, appIndex, r, ch)) && SameData(s, EnableProxy(s, b, appIndex, r, ch))
  {
    var i := FindProxy(s.proxies, ByAppRequest(b, appIndex, r));
    if i < |s.proxies| {
      SetProxyKeeps(s, i, s.proxies[i].(isEnable := true, channelId := ch));
    }
  }

  lemma OpenSucceededKeeps(s: Srv, b: Base, r: nat, user: int)
    requires Lists(s)
    ensures Lists(OpenSucceeded(s, b, r, user)) && SameData(s, OpenSucceeded(s, b, r, user))
  {
    MakeVirtualKeeps(s, b, r);
    MarkLastKeeps(s, b, r);
    var s1 := s.(proxies := MarkLast(s.proxies, b, r));
    var i := ChannelInfo(s.sessions, INVALID_CHANNEL_ID, r);
    if i < |s.sessions| {
      var node := s.sessions[i];
      EnableProxyKeeps(s1, node.base, node.appIndex, r, node.channelId);
      SetConnectedKeeps(EnableProxy(s1, node.base, node.appIndex, r, node.channelId), b, r, true);
    }
    hide MakeVirtual, EnableProxy, SetConnected, Lists;
  }

  lemma OpenFailedKeeps(s: Srv, r: nat)
    requires Lists(s)
    ensures Lists(OpenFailed(s, r)) && SameData(s, OpenFailed(s, r))
  {
    var i := ChannelInfo(s.sessions, INVALID_CHANNEL_ID, r);
    if i < |s.sessions| {
      MakeVirtualKeeps(s, s.sessions[i].base, r);
      DeleteSessionKeeps(s, ByChannel(s.sessions[i].channelId));
    }
    hide MakeVirtual, DeleteSession, Lists;
  }

  lemma CloseKeeps(s: Srv, ch: int, inner: bool, token: int)
    requires Lists(s)
    ensures Lists(Close(s, ch, inner, token).0) && SameData(s, Close(s, ch, inner, token).0)
  {
    var i := ChannelInfo(s.sessions, ch, INVALID_REQ_ID);
    if i < |s.sessions| {
      DisableProxyKeeps(s, s.sessions[i].requestId);
      DeleteSessionKeeps(DisableProxy(s, s.sessions[i].requestId), ByChannel(ch));
    }
    hide DisableProxy, DeleteSession, Lists;
  }

  // ---------- CloseAllConnect ----------

  /** How many sessions stand before the first one whose channel id cannot be looked up. */
  ghost function Closable(ss: seq<Session>): (k: nat)
    ensures k <= |ss|
    ensures forall j | 0 <= j < k :: ss[j].channelId != INVALID_CHANNEL_ID
    ensures k < |ss| ==> ss[k].channelId == INVALID_CHANNEL_ID
  {
    if ss == [] || ss[0].channelId == INVALID_CHANNEL_ID then 0 else 1 + Closable(ss[1..])
  }

  /** Closing the first session removes exactly that session, whatever else shares its channel id. */
  lemma CloseRemovesFirst(s: Srv)
    requires s.sessions != []
    ensures var t := Close(s, s.sessions[0].channelId, true, 0).0;
            if s.sessions[0].channelId == INVALID_CHANNEL_ID then t == s
            else t.sessions == s.sessions[1..] && t.sessionCnt == s.sessionCnt - 1
                 && |t.proxies| == |s.proxies| && t.proxyCnt == s.proxyCnt && SameData(s, t)
                 && t.lastChannelId == s.lastChannelId
  {
    assert FindSession(s.sessions, ByChannel(s.sessions[0].channelId)) == 0;
  }

  lemma {:induction false} CloseFirstRemoves(s: Srv, n: nat)
    requires n >= |s.sessions|
    ensures var t := CloseFirst(s, n);
            && t.sessions == s.sessions[Closable(s.sessions)..]
            && t.sessionCnt == s.sessionCnt - Closable(s.sessions)
            && |t.proxies| == |s.proxies| && t.proxyCnt == s.proxyCnt && SameData(s, t)
            && t.lastChannelId == s.lastChannelId
    decreases n
  {
    hide Close;
    if s.sessions != [] {
      CloseRemovesFirst(s);
      if s.sessions[0].channelId == INVALID_CHANNEL_ID {
        CloseFirstStuck(s, n);
      } else {
        var t := Close(s, s.sessions[0].channelId, true, 0).0;
        var k := Closable(s.sessions[1..]);
        CloseFirstRemoves(t, n - 1);
        assert CloseFirst(s, n) == CloseFirst(t, n - 1);
        assert s.sessions[1..][k..] == s.sessions[k + 1..];
      }
    }
  }

  lemma {:induction false} CloseFirstStuck(s: Srv, n: nat)
    requires s.sessions != [] && s.sessions[0].channelId == INVALID_CHANNEL_ID
    ensures CloseFirst(s, n) == s
    decreases n
  {
    hide Close;
    if n > 0 {
      CloseRemovesFirst(s);
      CloseFirstStuck(s, n - 1);
    }
  }

  /** For any list contents: the proxies always end empty; the sessions end empty exactly when no
      stored channel id is the reserved one, and otherwise everything from the first such session on
      stays. Data is untouched. */
  lemma CloseAllExactly(s: Srv)
    requires s.sessionCnt == |s.sessions| && s.proxyCnt == |s.proxies|
    ensures var t := CloseAll(s);
            && t.proxies == [] && t.proxyCnt == 0
            && t.sessions == s.sessions[Closable(s.sessions)..] && t.sessionCnt == |t.sessions|
            && (t.sessions == [] <==> forall i | 0 <= i < |s.sessions| :: s.sessions[i].channelId != INVALID_CHANNEL_ID)
            && SameData(s, t) && t.lastChannelId == s.lastChannelId
  {
    CloseFirstRemoves(s, |s.sessions|);
    hide CloseFirst;
  }

  lemma CloseAllKeeps(s: Srv)
    requires Lists(s)
    ensures Lists(CloseAll(s)) && SameData(s, CloseAll(s))
    ensures CloseAll(s).sessions == [] && CloseAll(s).proxies == []
  {
    CloseAllExactly(s);
    hide CloseAll;
  }

  // ---------- the rest ----------

  lemma {:induction false} SurvivorsOk(ss: seq<Session>, appIndex: int, userId: int, last: int)
    requires SessionsOk(ss, last)
    ensures SessionsOk(Survivors(ss, appIndex, userId), last)
  {
    if ss != [] {
      assert ss[1..] == ss[1..|ss|];
      assert forall i | 0 <= i < |ss[1..]| :: ss[1..][i] == ss[i + 1];
      SurvivorsOk(ss[1..], appIndex, userId, last);
      var rest := Survivors(ss[1..], appIndex, userId);
      forall x | x in rest
        ensures x.base != ss[0].base || x.pid != ss[0].pid
      {
        assert x in ss[1..];
      }
    }
  }

  lemma UninstallKeeps(s: Srv, appIndex: int, userId: int)
    requires Lists(s)
    ensures Lists(Uninstall(s, appIndex, userId)) && SameData(s, Uninstall(s, appIndex, userId))
  {
    SurvivorsOk(s.sessions, appIndex, userId, s.lastChannelId);
    var left := Survivors(s.sessions, appIndex, userId);
    forall i | 0 <= i < |left|
      ensures OwnedBy(left[i], s.proxies)
    {
      assert left[i] in s.sessions;
    }
  }

  lemma UserSwitchedKeeps(s: Srv, user: int)
    requires Lists(s)
    ensures Lists(UserSwitched(s, user)) && SameData(s, UserSwitched(s, user))
  {
    var i := FindProxy(s.proxies, ByLastConnect(user));
    if i < |s.proxies| {
      SetProxyKeeps(s, i, s.proxies[i].(isRecovery := true));
    }
  }

  lemma RevokedKeeps(s: Srv, pid: int)
    requires Lists(s)
    ensures Lists(PermissionRevoked(s, pid)) && SameData(s, PermissionRevoked(s, pid))
  {
    var i := FindSession(s.sessions, ByPid(pid));
    if i < |s.sessions| {
      CloseKeeps(s, s.sessions[i].channelId, true, 0);
    }
    hide Close;
  }

  // ---------- data: one FIFO per (brMac, uuid, user) ----------

  ghost function DeliveredItems(ds: seq<Delivery>): (xs: seq<Item>)
    ensures |xs| == |ds|
    ensures forall i | 0 <= i < |ds| :: xs[i] == ds[i].item
  {
    if ds == [] then [] else [ds[0].item] + DeliveredItems(ds[1..])
  }

  /** Delivered, then pending, is what was received: nothing lost, duplicated or reordered. */
  ghost predicate Fifo(s: Srv, b: Base, user: int) {
    Pending(DeliveredItems(s.delivered), b, user) + Pending(s.items, b, user) == Pending(s.received, b, user)
  }

  lemma {:induction false} PendingSplits(xs: seq<Item>, ys: seq<Item>, b: Base, user: int)
    ensures Pending(xs + ys, b, user) == Pending(xs, b, user) + Pending(ys, b, user)
  {
    if xs == [] {
      assert xs + ys == ys;
    } else {
      assert (xs + ys)[1..] == xs[1..] + ys;
      PendingSplits(xs[1..], ys, b, user);
    }
  }

  /** Taking one key's items out leaves every other key's queue as it was. */
  lemma {:induction false} OthersPending(xs: seq<Item>, b: Base, user: int, b': Base, user': int)
    ensures Pending(Others(xs, b, user), b', user')
            == if b == b' && user == user' then [] else Pending(xs, b', user')
    ensures |Others(xs, b, user)| + |Pending(xs, b, user)| == |xs|
  {
    if xs != [] {
      OthersPending(xs[1..], b, user, b', user');
      var rest := Others(xs[1..], b, user);
      assert !Mine(xs[0], b, user) ==> ([xs[0]] + rest)[1..] == rest;
    }
  }

  /** A queue of one key read as a queue of another: itself or nothing. */
  lemma {:induction false} PendingOfPending(xs: seq<Item>, b: Base, user: int, b': Base, user': int)
    requires forall x | x in xs :: Mine(x, b, user)
    ensures Pending(xs, b', user') == if b == b' && user == user' then xs else []
  {
    if xs != [] {
      assert xs[0] in xs;
      assert forall x | x in xs[1..] :: x in xs;
      PendingOfPending(xs[1..], b, user, b', user');
    }
  }

  lemma DeliveredSplits(ds: seq<Delivery>, q: seq<Item>, pid: int, ch: int)
    ensures DeliveredItems(ds + Handed(q, pid, ch)) == DeliveredItems(ds) + q
  {
    var all := ds + Handed(q, pid, ch);
    assert forall i | 0 <= i < |all| :: DeliveredItems(all)[i] == (DeliveredItems(ds) + q)[i];
  }

  lemma DrainKeepsFifo(s: Srv, b: Base, user: int, pid: int, ch: int, b': Base, user': int)
    requires Fifo(s, b', user')
    ensures Fifo(Drain(s, b, user, pid, ch), b', user')
    ensures Pending(Drain(s, b, user, pid, ch).items, b, user) == []
  {
    var q := Pending(s.items, b, user);
    OthersPending(s.items, b, user, b', user');
    OthersPending(s.items, b, user, b, user);
    DeliveredSplits(s.delivered, q, pid, ch);
    PendingSplits(DeliveredItems(s.delivered), q, b', user');
    PendingOfPending(q, b, user, b', user');
    hide Pending, Others, DeliveredItems, Handed;
  }

  lemma AddItemKeepsFifo(s: Srv, x: Item, b: Base, user: int)
    requires Fifo(s, b, user)
    ensures Fifo(AddItem(s, x), b, user)
  {
    PendingSplits(s.items, [x], b, user);
    PendingSplits(s.received, [x], b, user);
  }

  lemma DrainKeepsLists(s: Srv, b: Base, user: int, pid: int, ch: int)
    requires Lists(s)
    ensures Lists(Drain(s, b, user, pid, ch))
  {
    OthersPending(s.items, b, user, b, user);
  }

  lemma DataReceivedKeeps(s: Srv, b: Base, r: nat, data: seq<Byte>, user: int, running: bool, pid: int)
    requires Lists(s)
    ensures Lists(DataReceived(s, b, r, data, user, running, pid))
  {
    var s1 := AddItem(s, Item(b, user, data));
    assert Lists(s1);
    if HasSession(s, ByListener(b, r)) {
      var c := s.sessions[FindSession(s.sessions, ByListener(b, r))];
      DrainKeepsLists(s1, b, user, c.pid, c.channelId);
    }
    hide Drain, Lists;
  }

  lemma DataReceivedFifo(s: Srv, b: Base, r: nat, data: seq<Byte>, user: int, running: bool, pid: int,
                         b': Base, u': int)
    requires Fifo(s, b', u')
    ensures Fifo(DataReceived(s, b, r, data, user, running, pid), b', u')
  {
    AddItemKeepsFifo(s, Item(b, user, data), b', u');
    var s1 := AddItem(s, Item(b, user, data));
    if HasSession(s, ByListener(b, r)) {
      var c := s.sessions[FindSession(s.sessions, ByListener(b, r))];
      DrainKeepsFifo(s1, b, user, c.pid, c.channelId, b', u');
    }
    hide Drain, AddItem, Fifo;
  }

  lemma SetListenerKeeps(s: Srv, ch: int, kind: Listener, enable: bool, token: int, user: int)
    requires Lists(s)
    ensures Lists(SetListener(s, ch, kind, enable, token, user).0)
  {
    var i := ChannelInfo(s.sessions, ch, INVALID_REQ_ID);
    if i < |s.sessions| {
      var c := s.sessions[i];
      FlagKeeps(s, i, c.(isStateCbSet := enable));
      FlagKeeps(s, i, c.(isReceiveCbSet := enable));
      var s1 := s.(sessions := s.sessions[i := c.(isReceiveCbSet := enable)]);
      DrainKeepsLists(s1, c.base, user, c.pid, ch);
    }
    hide Drain, Lists;
  }

  lemma FlagKeeps(s: Srv, i: nat, c: Session)
    requires Lists(s) && i < |s.sessions|
    requires c == s.sessions[i].(isStateCbSet := c.isStateCbSet, isReceiveCbSet := c.isReceiveCbSet)
    ensures Lists(s.(sessions := s.sessions[i := c]))
  {
    var t := s.(sessions := s.sessions[i := c]);
    forall j | 0 <= j < |t.sessions|
      ensures OwnedBy(t.sessions[j], s.proxies)
    {
      assert OwnedBy(s.sessions[j], s.proxies);
    }
  }

  lemma SetListenerFifo(s: Srv, ch: int, kind: Listener, enable: bool, token: int, user: int, b: Base, u: int)
    requires Fifo(s, b, u)
    ensures Fifo(SetListener(s, ch, kind, enable, token, user).0, b, u)
  {
    var i := ChannelInfo(s.sessions, ch, INVALID_REQ_ID);
    if i < |s.sessions| {
      var c := s.sessions[i];
      var s1 := s.(sessions := s.sessions[i := c.(isReceiveCbSet := enable)]);
      DrainKeepsFifo(s1, c.base, user, c.pid, ch, b, u);
    }
    hide Drain;
  }

  /** Enabling DATA_RECEIVE succeeds exactly for the owner of a known channel, and then nothing is
      pending for that channel's address and the current user. */
  lemma EnableDrains(s: Srv, ch: int, token: int, user: int)
    ensures var i := ChannelInfo(s.sessions, ch, INVALID_REQ_ID);
            var (t, ret) := SetListener(s, ch, DataReceive, true, token, user);
            && (ret == OK <==> i < |s.sessions| && token == s.sessions[i].token)
            && (ret == OK ==> Pending(t.items, s.sessions[i].base, user) == []
                              && t.delivered == s.delivered + Handed(Pending(s.items, s.sessions[i].base, user),
                                                                     s.sessions[i].pid, ch)
                              && t.sessions[i].isReceiveCbSet)
            && (ret != OK ==> t == s)
  {
    var i := ChannelInfo(s.sessions, ch, INVALID_REQ_ID);
    if i < |s.sessions| {
      OthersPending(s.items, s.sessions[i].base, user, s.sessions[i].base, user);
    }
  }

  // ---------- rollback ----------

  /** Setting the previous request id again gives the proxies back, whatever happened to the rest. */
  lemma RequestRestored(s: Srv, b: Base, appIndex: int, user: int, r: nat, t: Srv)
    requires HasProxy(s, ByOwner(b, appIndex, user))
    requires t.proxies == SetRequest(s, b, appIndex, user, r).proxies
    ensures SetRequest(t, b, appIndex, user, s.proxies[FindProxy(s.proxies, ByOwner(b, appIndex, user))].requestId)
            == t.(proxies := s.proxies)
  {
    var k := ByOwner(b, appIndex, user);
    var j := FindProxy(s.proxies, k);
    assert forall x | 0 <= x < |s.proxies| :: SameOwner(s.proxies[x], t.proxies[x]);
    OwnerStays(s.proxies, t.proxies, k);
    assert t.proxies[j := t.proxies[j].(requestId := s.proxies[j].requestId)] == s.proxies;
  }

  /** Deleting the fresh channel id undoes the new session, and touches nothing else. */
  lemma SessionUndone(s: Srv, b: Base, c: Caller, ch: int, r: nat)
    requires forall x | 0 <= x < |s.sessions| :: s.sessions[x].channelId != ch
    ensures var t := DeleteSession(AddSession(s, b, c, ch, r, true).0, ByChannel(ch));
            var i := FindSession(s.sessions, ByCaller(b, c.pid));
            t == if i == |s.sessions| then s else s.(sessions := s.sessions[i := s.sessions[i].(requestId := r)])
  {
    var s2 := AddSession(s, b, c, ch, r, true).0;
    var i := FindSession(s.sessions, ByCaller(b, c.pid));
    if i < |s.sessions| {
      assert forall x | 0 <= x < |s2.sessions| :: !PicksSession(ByChannel(ch), s2.sessions[x]);
      assert FindSession(s2.sessions, ByChannel(ch)) == |s2.sessions|;
    } else {
      assert FindSession(s2.sessions, ByChannel(ch)) == 0;
      assert s2.sessions[1..] == s.sessions;
    }
  }

  /** When the open fails, the proxies are exactly as before, and the sessions are exactly as before if
      and only if the caller had no session for the address (or the fresh request id is the one its
      session already had). Only a channel id is used up. */
  lemma FailedOpenRollsBack(s: Srv, b: Base, c: Caller, e: Env)
    requires Lists(s) && !e.openOk && HasProxy(s, ByOwner(b, c.appIndex, e.user))
    ensures var (t, ret) := Connect(s, b, c, e);
            var i := FindSession(s.sessions, ByCaller(b, c.pid));
            && ret == (if i == |s.sessions| && !e.userOk then GetUserErr else OpenErr)
            && t == s.(sessions := t.sessions, sessionCnt := t.sessionCnt, lastChannelId := s.lastChannelId + 1)
            && (t.sessions == s.sessions && t.sessionCnt == s.sessionCnt
                <==> i == |s.sessions| || s.sessions[i].requestId == e.newRequest)
            && (i < |s.sessions| ==> t.sessions == s.sessions[i := s.sessions[i].(requestId := e.newRequest)])
  {
    var ch := s.lastChannelId + 1;
    var plain := s.(lastChannelId := ch);
    FailedConnectIs(s, b, c, e);
    assert forall x | 0 <= x < |s.sessions| :: Issued(s.sessions[x].channelId, s.lastChannelId);
    SessionUndone(plain, b, c, ch, e.newRequest);
    hide Lists, Connect, DeleteSession, AddSession, FindProxy, FindSession;
  }

  /** The proxy side of a failed open cancels out. */
  lemma FailedConnectIs(s: Srv, b: Base, c: Caller, e: Env)
    requires !e.openOk && HasProxy(s, ByOwner(b, c.appIndex, e.user))
    ensures var ch := s.lastChannelId + 1;
            var plain := s.(lastChannelId := ch);
            Connect(s, b, c, e) ==
              if FindSession(s.sessions, ByCaller(b, c.pid)) == |s.sessions| && !e.userOk then (plain, GetUserErr)
              else (DeleteSession(AddSession(plain, b, c, ch, e.newRequest, true).0, ByChannel(ch)), OpenErr)
  {
    var ch := s.lastChannelId + 1;
    var s1 := SetRequest(s, b, c.appIndex, e.user, e.newRequest).(lastChannelId := ch);
    assert s1 == s.(proxies := s1.proxies, lastChannelId := ch);
    hide SetRequest, FindProxy, FindSession;
    var s2 := AddSession(s1, b, c, ch, e.newRequest, e.userOk).0;
    var plain := s.(lastChannelId := ch);
    assert s1 == plain.(proxies := s1.proxies);
    assert s2.(proxies := s.proxies) == AddSession(plain, b, c, ch, e.newRequest, e.userOk).0;
    RequestRestored(s, b, c.appIndex, e.user, e.newRequest, s2);
    hide DeleteSession, AddSession;
  }

  // ---------- a successful open ----------

  lemma FindStays(ps: seq<Proxy>, qs: seq<Proxy>, k: ProxyPick)
    requires |ps| == |qs| && forall i | 0 <= i < |ps| :: PicksProxy(k, ps[i]) == PicksProxy(k, qs[i])
    ensures FindProxy(ps, k) == FindProxy(qs, k)
  {
    var i, j := FindProxy(ps, k), FindProxy(qs, k);
    assert i < |ps| ==> PicksProxy(k, qs[i]);
    assert j < |qs| ==> PicksProxy(k, ps[j]);
  }

  /** When the channel of the foreground user's proxy opens, that proxy ends enabled, connected and last
      connected, with its session's channel id; no proxy of another address or request stays last connected;
      nothing else changes. */
  lemma OpenedIsConnected(s: Srv, b: Base, r: nat, user: int)
    requires r != INVALID_REQ_ID && HasSession(s, ByRequest(r)) && HasProxy(s, ByBaseRequest(b, r))
    requires var node := s.sessions[FindSession(s.sessions, ByRequest(r))];
             var p := s.proxies[FindProxy(s.proxies, ByBaseRequest(b, r))];
             node.base == b && p.userId == user && p.appIndex == node.appIndex
    ensures var node := s.sessions[FindSession(s.sessions, ByRequest(r))];
            var j := FindProxy(s.proxies, ByBaseRequest(b, r));
            var t := OpenSucceeded(s, b, r, user);
            && t == s.(proxies := t.proxies) && |t.proxies| == |s.proxies|
            && t.proxies[j] == s.proxies[j].(isLast := true, isEnable := true, isConnected := true, isVirtual := false,
                                             isRecovery := false, channelId := node.channelId)
            && (forall k | 0 <= k < |s.proxies| && k != j ::
                  t.proxies[k] == s.proxies[k].(isLast := PicksProxy(ByBaseRequest(b, r), s.proxies[k])))
  {
    hide FindSession, FindProxy, MarkLast;
    var i, j := FindSession(s.sessions, ByRequest(r)), FindProxy(s.proxies, ByBaseRequest(b, r));
    var node := s.sessions[i];
    assert PicksSession(ByLink(b, r), node);
    assert HasSession(s, ByLink(b, r));
    var m := MarkLast(s.proxies, b, r);
    FindStays(s.proxies, m, ByBaseRequest(b, r));
    var a := FindProxy(m, ByAppRequest(b, node.appIndex, r));
    assert PicksProxy(ByAppRequest(b, node.appIndex, r), m[j]);
    assert a == j;
    var e := m[j := m[j].(isEnable := true, channelId := node.channelId)];
    FindStays(m, e, ByBaseRequest(b, r));
  }

  // ---------- what one call changes ----------

  /** Received data always joins the queue if its length is valid, and is handed over at once exactly when the
      proxy's application runs, the running process has a session for the link and some session listens. */
  lemma DeliveryNeedsRunningApp(s: Srv, b: Base, r: nat, data: seq<Byte>, user: int, running: bool, pid: int)
    ensures var t := DataReceived(s, b, r, data, user, running, pid);
            var valid := 0 < |data| <= 4_194_304;
            && t.received == s.received + (if valid then [Item(b, user, data)] else [])
            && (t.delivered != s.delivered <==>
                  && valid && running
                  && (exists p | p in s.proxies :: p.base == b && p.requestId == r)
                  && (exists c | c in s.sessions :: c.base == b && c.requestId == r && c.pid == pid)
                  && (exists c | c in s.sessions :: c.base == b && c.requestId == r && c.isReceiveCbSet))
            && (t.delivered != s.delivered ==> Pending(t.items, b, user) == [])
  {
    var x := Item(b, user, data);
    PendingSplits(s.items, [x], b, user);
    OthersPending(s.items + [x], b, user, b, user);
    assert Pending([x], b, user) == [x];
    FindMeansThere(s);
  }

  lemma FindMeansThere(s: Srv)
    ensures forall k: SessionPick :: HasSession(s, k) <==> exists c | c in s.sessions :: PicksSession(k, c)
    ensures forall k: ProxyPick :: HasProxy(s, k) <==> exists p | p in s.proxies :: PicksProxy(k, p)
  {
    forall k: SessionPick ensures HasSession(s, k) <==> exists c | c in s.sessions :: PicksSession(k, c) {
      assert HasSession(s, k) ==> s.sessions[FindSession(s.sessions, k)] in s.sessions;
    }
    forall k: ProxyPick ensures HasProxy(s, k) <==> exists p | p in s.proxies :: PicksProxy(k, p) {
      assert HasProxy(s, k) ==> s.proxies[FindProxy(s.proxies, k)] in s.proxies;
    }
  }

  /** A close succeeds exactly for a stored channel id and its owner's token or an inner call; then it removes the
      first session of that id and switches off the first proxy of that session's request, and nothing else. */
  lemma ClosedIsDisabled(s: Srv, ch: int, inner: bool, token: int)
    ensures var (t, ret) := Close(s, ch, inner, token);
            var i := FindSession(s.sessions, ByChannel(ch));
            && ret == (if ch == -1 then NotFind
                       else if i == |s.sessions| then InvalidChannelId
                       else if !inner && token != s.sessions[i].token then TokenErr
                       else OK)
            && (ret != OK ==> t == s)
            && (ret == OK ==>
                  && t.sessions == s.sessions[..i] + s.sessions[i + 1..] && |t.proxies| == |s.proxies|
                  && t == s.(sessions := t.sessions, sessionCnt := s.sessionCnt - 1, proxies := t.proxies)
                  && forall j | 0 <= j < |s.proxies| ::
                       t.proxies[j] ==
                         if s.proxies[j].requestId == s.sessions[i].requestId
                            && (forall k | 0 <= k < j :: s.proxies[k].requestId != s.sessions[i].requestId)
                         then s.proxies[j].(isEnable := false, isConnected := false, isLast := false)
                         else s.proxies[j])
  {
    hide FindSession, FindProxy;
  }
}
