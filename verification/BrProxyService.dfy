/** The BR proxy server as the source runs it: lists updated in place, first-match walks, the drain
    and close loops. Every method is proved equal to its step function. */
module BrProxyService {
  import opened BrProxyServer

  class Server {
    var sessions: seq<Session>
    var sessionCnt: int
    var proxies: seq<Proxy>
    var proxyCnt: int
    var items: seq<Item>
    var itemCnt: int
    var lastChannelId: int
    ghost var received: seq<Item>
    var delivered: seq<Delivery>

    ghost function View(): Srv
      reads this
    {
      Srv(sessions, sessionCnt, proxies, proxyCnt, items, itemCnt, lastChannelId, received, delivered)
    }

    constructor ()
      ensures View() == Initial()
    {
      sessions, sessionCnt, proxies, proxyCnt, items, itemCnt := [], 0, [], 0, [], 0;
      lastChannelId, received, delivered := 0, [], [];
    }

    // ---------- walks ----------

    method WalkSessions(k: SessionPick) returns (i: nat)
      ensures i == FindSession(sessions, k)
    {
      i := 0;
      while i < |sessions|
        invariant 0 <= i <= |sessions|
        invariant i + FindSession(sessions[i..], k) == FindSession(sessions, k)
      {
        if PicksSession(k, sessions[i]) {
          return;
        }
        assert sessions[i..][1..] == sessions[i + 1..];
        i := i + 1;
      }
    }

    method WalkProxies(k: ProxyPick) returns (i: nat)
      ensures i == FindProxy(proxies, k)
    {
      i := 0;
      while i < |proxies|
        invariant 0 <= i <= |proxies|
        invariant i + FindProxy(proxies[i..], k) == FindProxy(proxies, k)
      {
        if PicksProxy(k, proxies[i]) {
          return;
        }
        assert proxies[i..][1..] == proxies[i + 1..];
        i := i + 1;
      }
    }

    method GetChannelInfo(channelId: int, requestId: nat) returns (i: nat)
      ensures i == ChannelInfo(sessions, channelId, requestId)
    {
      if channelId != INVALID_CHANNEL_ID {
        i := WalkSessions(ByChannel(channelId));
      } else if requestId != INVALID_REQ_ID {
        i := WalkSessions(ByRequest(requestId));
      } else {
        i := |sessions|;
      }
    }

    method RemoveSession(k: SessionPick)
      modifies this
      ensures View() == DeleteSession(old(View()), k)
    {
      var i := WalkSessions(k);
      if i < |sessions| {
        sessions := sessions[..i] + sessions[i + 1..];
        sessionCnt := sessionCnt - 1;
      }
    }

    method SetVirtual(b: Base, r: nat)
      modifies this
      ensures View() == MakeVirtual(old(View()), b, r)
    {
      var i := WalkProxies(ByBaseRequest(b, r));
      if i < |proxies| {
        proxies := proxies[i := proxies[i].(isVirtual := true)];
      }
    }

    method UpdateConnectState(b: Base, r: nat, connected: bool)
      modifies this
      ensures View() == SetConnected(old(View()), b, r, connected)
    {
      var i := WalkProxies(ByBaseRequest(b, r));
      if i < |proxies| {
        var p := proxies[i].(isConnected := connected);
        if connected {
          p := p.(isVirtual := false, isRecovery := false);
        }
        proxies := proxies[i := p];
      }
    }

    method Disable(r: nat)
      modifies this
      ensures View() == DisableProxy(old(View()), r)
    {
      var i := WalkProxies(ByRequestOnly(r));
      if i < |proxies| {
        proxies := proxies[i := proxies[i].(isConnected := false, isEnable := false, isLast := false)];
      }
    }

    // ---------- opening ----------

    method AddOrRefreshProxy(b: Base, c: Caller)
      modifies this
      ensures View() == AddProxy(old(View()), b, c)
    {
      var i := WalkProxies(ByOwner(b, c.appIndex, c.userId));
      if i < |proxies| {
        proxies := proxies[i := proxies[i].(uid := c.uid, pid := c.pid, isRecovery := false,
                                            bundle := c.bundle, ability := c.ability)];
      } else {
        proxies := [Proxy(b, c.appIndex, c.userId, c.bundle, c.ability, c.uid, c.pid, 0, 0,
                          false, false, false, false, false)] + proxies;
        proxyCnt := proxyCnt + 1;
      }
    }

    method AddOrReopenSession(b: Base, c: Caller, channelId: int, r: nat, userOk: bool) returns (ret: Ret)
      modifies this
      ensures (View(), ret) == AddSession(old(View()), b, c, channelId, r, userOk)
    {
      var i := WalkSessions(ByCaller(b, c.pid));
      if i < |sessions| {
        sessions := sessions[i := sessions[i].(requestId := r)];
        return OK;
      }
      if !userOk {
        return GetUserErr;
      }
      sessions := [Session(b, c.pid, c.uid, c.token, channelId, c.appIndex, c.userId, r, false, false)] + sessions;
      sessionCnt := sessionCnt + 1;
      ret := OK;
    }

    method UpdateRequestId(b: Base, appIndex: int, user: int, r: nat) returns (found: bool, oldRequest: nat)
      modifies this
      ensures View() == SetRequest(old(View()), b, appIndex, user, r)
      ensures var i := FindProxy(old(proxies), ByOwner(b, appIndex, user));
              found == (i < |old(proxies)|) && (found ==> oldRequest == old(proxies)[i].requestId)
    {
      var i := WalkProxies(ByOwner(b, appIndex, user));
      found, oldRequest := i < |proxies|, 0;
      if found {
        oldRequest := proxies[i].requestId;
        proxies := proxies[i := proxies[i].(requestId := r)];
      }
    }

    method ConnectPeerDevice(b: Base, c: Caller, e: Env) returns (ret: Ret)
      modifies this
      ensures (View(), ret) == Connect(old(View()), b, c, e)
    {
      var found, oldRequest := UpdateRequestId(b, c.appIndex, e.user, e.newRequest);
      if !found {
        return NotFind;
      }
      lastChannelId := lastChannelId + 1;
      var channelId := lastChannelId;
      ret := AddOrReopenSession(b, c, channelId, e.newRequest, e.userOk);
      if ret != OK {
        var _, _ := UpdateRequestId(b, c.appIndex, e.user, oldRequest);
        return;
      }
      if !e.openOk {
        var _, _ := UpdateRequestId(b, c.appIndex, e.user, oldRequest);
        RemoveSession(ByChannel(channelId));
        ret := OpenErr;
      }
    }

    method OpenForBackgroundUser(b: Base, c: Caller, e: Env) returns (ret: Ret)
      modifies this
      ensures (View(), ret) == OpenInBackground(old(View()), b, c, e)
    {
      var i := WalkProxies(ByOwner(b, c.appIndex, c.userId));
      if i == |proxies| {
        return NotFind;
      }
      if !proxies[i].isEnable {
        lastChannelId := lastChannelId + 1;
        proxies := proxies[i := proxies[i].(isLast := true, requestId := e.newRequest, channelId := lastChannelId)];
      }
      var requestId := proxies[i].requestId;
      ret := AddOrReopenSession(b, c, proxies[i].channelId, requestId, e.userOk);
      if ret == OK {
        SetVirtual(b, requestId);
      }
    }

    method OpenProxy(b: Base, c: Caller, e: Env) returns (ret: Ret)
      modifies this
      ensures (View(), ret) == Open(old(View()), b, c, e)
    {
      AddOrRefreshProxy(b, c);
      if e.user != c.userId {
        ret := OpenForBackgroundUser(b, c, e);
      } else {
        ret := ConnectPeerDevice(b, c, e);
      }
    }

    method MarkLastConnect(b: Base, r: nat)
      modifies this
      ensures View() == old(View()).(proxies := MarkLast(old(proxies), b, r))
    {
      ghost var was := proxies;
      var i := 0;
      while i < |proxies|
        invariant 0 <= i <= |proxies| == |was|
        invariant forall j | 0 <= j < i :: proxies[j] == was[j].(isLast := PicksProxy(ByBaseRequest(b, r), was[j]))
        invariant forall j | i <= j < |was| :: proxies[j] == was[j]
        invariant View() == old(View()).(proxies := proxies)
      {
        proxies := proxies[i := proxies[i].(isLast := proxies[i].base == b && proxies[i].requestId == r)];
        i := i + 1;
      }
      assert proxies == MarkLast(was, b, r);
    }

    method OnOpenSuccess(b: Base, r: nat, user: int)
      modifies this
      ensures View() == OpenSucceeded(old(View()), b, r, user)
    {
      hide FindSession, FindProxy, MarkLast;
      var i := GetChannelInfo(INVALID_CHANNEL_ID, r);
      var j := WalkProxies(ByBaseRequest(b, r));
      if i == |sessions| || j == |proxies| {
        return;
      }
      var node := sessions[i];
      if user != proxies[j].userId {
        SetVirtual(b, r);
        return;
      }
      var l := WalkSessions(ByLink(b, r));
      if l == |sessions| {
        return;
      }
      MarkLastConnect(b, r);
      var k := WalkProxies(ByAppRequest(node.base, node.appIndex, r));
      if k == |proxies| {
        return;
      }
      proxies := proxies[k := proxies[k].(isEnable := true, channelId := node.channelId)];
      UpdateConnectState(b, r, true);
    }

    method OnOpenFail(r: nat)
      modifies this
      ensures View() == OpenFailed(old(View()), r)
    {
      var i := GetChannelInfo(INVALID_CHANNEL_ID, r);
      if i == |sessions| {
        return;
      }
      var node := sessions[i];
      var j := WalkProxies(ByBaseRequest(node.base, node.requestId));
      if j < |proxies| && proxies[j].isEnable {
        SetVirtual(node.base, r);
        return;
      }
      if j < |proxies| && proxies[j].isRecovery {
        return;
      }
      RemoveSession(ByChannel(node.channelId));
    }

    // ---------- closing ----------

    method CloseProxy(channelId: int, inner: bool, token: int) returns (ret: Ret)
      modifies this
      ensures (View(), ret) == Close(old(View()), channelId, inner, token)
    {
      var i := GetChannelInfo(channelId, INVALID_REQ_ID);
      if i == |sessions| {
        return if channelId != INVALID_CHANNEL_ID then InvalidChannelId else NotFind;
      }
      if !inner && token != sessions[i].token {
        return TokenErr;
      }
      Disable(sessions[i].requestId);
      RemoveSession(ByChannel(channelId));
      ret := OK;
    }

    method CloseAllConnect()
      modifies this
      ensures View() == CloseAll(old(View()))
    {
      var count := if sessionCnt < 0 then 0 else sessionCnt;
      var i := 0;
      while i < count
        invariant 0 <= i <= count
        invariant CloseFirst(View(), count - i) == CloseFirst(old(View()), count)
      {
        if sessions != [] {
          var _ := CloseProxy(sessions[0].channelId, true, 0);
        }
        i := i + 1;
      }
      ghost var closed := View();
      while proxies != []
        invariant View() == closed.(proxies := proxies, proxyCnt := closed.proxyCnt - |closed.proxies| + |proxies|)
        decreases |proxies|
      {
        proxies := proxies[1..];
        proxyCnt := proxyCnt - 1;
      }
    }

    method UninstallApp(appIndex: int, userId: int)
      modifies this
      ensures View() == Uninstall(old(View()), appIndex, userId)
    {
      var kept: seq<Session> := [];
      var left := sessions;
      var gone := 0;
      while left != []
        invariant kept + Survivors(left, appIndex, userId) == Survivors(sessions, appIndex, userId)
        invariant gone == |sessions| - |left| - |kept|
        decreases |left|
      {
        if left[0].appIndex == appIndex && left[0].userId == userId {
          gone := gone + 1;
        } else {
          assert kept + Survivors(left, appIndex, userId)
              == kept + [left[0]] + Survivors(left[1..], appIndex, userId);
          kept := kept + [left[0]];
        }
        left := left[1..];
      }
      assert kept + Survivors(left, appIndex, userId) == kept;
      sessions, sessionCnt := kept, sessionCnt - gone;
    }

    method RevokePermission(pid: int)
      modifies this
      ensures View() == PermissionRevoked(old(View()), pid)
    {
      var i := WalkSessions(ByPid(pid));
      if i < |sessions| {
        var _ := CloseProxy(sessions[i].channelId, true, 0);
      }
    }

    method OnDisconnected(b: Base, r: nat, unpaired: bool)
      modifies this
      ensures View() == Step(old(View()), OpDisconnected(b, r, unpaired))
    {
      if unpaired {
        CloseAllConnect();
      }
      UpdateConnectState(b, r, false);
    }

    method OnUserSwitched(user: int)
      modifies this
      ensures View() == UserSwitched(old(View()), user)
    {
      var i := WalkProxies(ByLastConnect(user));
      if i < |proxies| {
        proxies := proxies[i := proxies[i].(isRecovery := true)];
      }
    }

    // ---------- data ----------

    /** GetDataFromList: take the oldest item of the key, if there is one. */
    method TakeData(b: Base, user: int) returns (isEmpty: bool, x: Item)
      modifies this
      ensures View() == old(View()).(items := items, itemCnt := itemCnt)
      ensures Others(items, b, user) == Others(old(items), b, user)
      ensures isEmpty <==> Pending(old(items), b, user) == []
      ensures isEmpty ==> items == old(items) && itemCnt == old(itemCnt)
      ensures !isEmpty ==> Pending(old(items), b, user) == [x] + Pending(items, b, user)
                           && |items| == |old(items)| - 1 && itemCnt == old(itemCnt) - 1
    {
      isEmpty, x := true, Item(b, user, []);
      var i := 0;
      while i < |items|
        invariant 0 <= i <= |items|
        invariant isEmpty && View() == old(View())
        invariant forall j | 0 <= j < i :: !Mine(items[j], b, user)
      {
        if Mine(items[i], b, user) {
          TakeSplits(items, i, b, user);
          isEmpty, x := false, items[i];
          items := items[..i] + items[i + 1..];
          itemCnt := itemCnt - 1;
          return;
        }
        i := i + 1;
      }
      PrefixIsOthers(items, [], b, user);
      assert items + [] == items;
    }

    /** CleanUpDataListWithSameMac. */
    method DrainTo(b: Base, user: int, channelId: int, pid: int)
      modifies this
      ensures View() == Drain(old(View()), b, user, pid, channelId)
    {
      hide Pending, Others, Handed;
      var isEmpty := false;
      while !isEmpty
        invariant Drain(View(), b, user, pid, channelId) == Drain(old(View()), b, user, pid, channelId)
        invariant isEmpty ==> Pending(items, b, user) == []
        decreases !isEmpty, |items|
      {
        ghost var s := View();
        var x: Item;
        isEmpty, x := TakeData(b, user);
        if !isEmpty {
          DrainOne(s, items, x, b, user, pid, channelId);
          delivered := delivered + [Delivery(x, pid, channelId)];
        }
      }
      NothingPending(items, b, user);
      assert Handed(Pending(items, b, user), pid, channelId) == [];
    }

    method OnDataReceived(b: Base, r: nat, data: seq<Byte>, user: int, running: bool, runningPid: int)
      modifies this
      ensures View() == DataReceived(old(View()), b, r, data, user, running, runningPid)
    {
      if |data| == 0 || |data| > SEND_MAX_LEN {
        return;
      }
      var p := WalkProxies(ByBaseRequest(b, r));
      var proc := WalkSessions(ByProcess(b, r, runningPid));
      var foreground := p < |proxies| && running && proc < |sessions|;
      items := items + [Item(b, user, data)];
      itemCnt := itemCnt + 1;
      received := received + [Item(b, user, data)];
      if foreground {
        var l := WalkSessions(ByListener(b, r));
        if l < |sessions| {
          DrainTo(b, user, sessions[l].channelId, sessions[l].pid);
        }
      }
    }

    method SetListenerState(channelId: int, kind: Listener, enable: bool, token: int, user: int) returns (ret: Ret)
      modifies this
      ensures (View(), ret) == SetListener(old(View()), channelId, kind, enable, token, user)
    {
      var i := GetChannelInfo(channelId, INVALID_REQ_ID);
      if i == |sessions| {
        return if channelId != INVALID_CHANNEL_ID then InvalidChannelId else NotFind;
      }
      var c := sessions[i];
      if token != c.token {
        return TokenErr;
      }
      match kind {
        case Other =>
          return InvalidParam;
        case ChannelState =>
          sessions := sessions[i := c.(isStateCbSet := enable)];
        case DataReceive =>
          sessions := sessions[i := c.(isReceiveCbSet := enable)];
          if enable {
            DrainTo(c.base, user, channelId, c.pid);
          }
      }
      ret := OK;
    }
  }

  lemma {:induction false} PrefixIsOthers(xs: seq<Item>, ys: seq<Item>, b: Base, user: int)
    requires forall x | x in xs :: !Mine(x, b, user)
    ensures Others(xs + ys, b, user) == xs + Others(ys, b, user)
    ensures Pending(xs + ys, b, user) == Pending(ys, b, user)
  {
    if xs == [] {
      assert xs + ys == ys;
    } else {
      assert (xs + ys)[1..] == xs[1..] + ys;
      PrefixIsOthers(xs[1..], ys, b, user);
    }
  }

  /** Taking out the first item of a key takes the head of its queue and leaves the other keys alone. */
  lemma TakeSplits(xs: seq<Item>, i: nat, b: Base, user: int)
    requires i < |xs| && Mine(xs[i], b, user)
    requires forall j | 0 <= j < i :: !Mine(xs[j], b, user)
    ensures var ys := xs[..i] + xs[i + 1..];
            Pending(xs, b, user) == [xs[i]] + Pending(ys, b, user) && Others(xs, b, user) == Others(ys, b, user)
  {
    assert xs == xs[..i] + xs[i..];
    PrefixIsOthers(xs[..i], xs[i..], b, user);
    PrefixIsOthers(xs[..i], xs[i + 1..], b, user);
    assert xs[i..][1..] == xs[i + 1..];
  }

  /** Draining after the oldest item was handed over is draining. */
  lemma DrainOne(s: Srv, left: seq<Item>, x: Item, b: Base, user: int, pid: int, channelId: int)
    requires Pending(s.items, b, user) == [x] + Pending(left, b, user)
    requires Others(s.items, b, user) == Others(left, b, user)
    ensures var t := s.(items := left, itemCnt := s.itemCnt - 1,
                        delivered := s.delivered + [Delivery(x, pid, channelId)]);
            Drain(t, b, user, pid, channelId) == Drain(s, b, user, pid, channelId)
  {
    hide Pending, Others;
    var q := Pending(left, b, user);
    assert Handed([x] + q, pid, channelId) == [Delivery(x, pid, channelId)] + Handed(q, pid, channelId);
    assert s.delivered + ([Delivery(x, pid, channelId)] + Handed(q, pid, channelId))
        == s.delivered + [Delivery(x, pid, channelId)] + Handed(q, pid, channelId);
  }

  lemma {:induction false} NothingPending(xs: seq<Item>, b: Base, user: int)
    ensures Pending(xs, b, user) == [] ==> Others(xs, b, user) == xs
  {
    if xs != [] {
      NothingPending(xs[1..], b, user);
    }
  }
}
