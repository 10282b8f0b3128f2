/** Which sessions share a channel id, and which proxies count as last connected: what the open of a caller that
    is not the foreground user does to both. */
module BrProxyChannels {
  import opened BrProxyServer
  import opened BrProxyProps
  import opened BrProxyRuns

  ghost predicate DistinctIds(ss: seq<Session>) {
    forall i, j | 0 <= i < j < |ss| :: ss[i].channelId != ss[j].channelId
  }

  ghost predicate Taken(ss: seq<Session>, ch: int) {
    exists i :: 0 <= i < |ss| && ss[i].channelId == ch
  }

  /** A process in the background opens for the first time, and its application's proxy is enabled with a channel id
      that a session has. */
  ghost predicate Copies(s: Srv, b: Base, c: Caller, e: Env) {
    var i := FindProxy(s.proxies, ByOwner(b, c.appIndex, c.userId));
    && e.user != c.userId && e.userOk && !HasSession(s, ByCaller(b, c.pid))
    && i < |s.proxies| && s.proxies[i].isEnable && Taken(s.sessions, s.proxies[i].channelId)
  }

  // ---------- sessions ----------

  lemma DeleteKeepsDistinct(s: Srv, k: SessionPick)
    requires DistinctIds(s.sessions)
    ensures DistinctIds(DeleteSession(s, k).sessions)
  {
    var i, t := FindSession(s.sessions, k), DeleteSession(s, k);
    if i < |s.sessions| {
      assert forall j | 0 <= j < |t.sessions| :: t.sessions[j] == s.sessions[if j < i then j else j + 1];
    }
  }

  lemma AddSessionDistinctIff(s: Srv, b: Base, c: Caller, ch: int, r: nat, userOk: bool)
    requires DistinctIds(s.sessions)
    ensures DistinctIds(AddSession(s, b, c, ch, r, userOk).0.sessions)
            <==> !(userOk && !HasSession(s, ByCaller(b, c.pid)) && Taken(s.sessions, ch))
  {
    hide FindSession;
    var t := AddSession(s, b, c, ch, r, userOk).0;
    if HasSession(s, ByCaller(b, c.pid)) {
      assert forall j | 0 <= j < |t.sessions| :: t.sessions[j].channelId == s.sessions[j].channelId;
    } else if userOk {
      assert t.sessions[0].channelId == ch && forall j | 0 <= j < |s.sessions| :: t.sessions[j + 1] == s.sessions[j];
      if i :| 0 <= i < |s.sessions| && s.sessions[i].channelId == ch {
        assert t.sessions[0].channelId == t.sessions[i + 1].channelId;
      }
    }
  }

  lemma ConnectKeepsDistinct(s: Srv, b: Base, c: Caller, e: Env)
    requires Lists(s) && DistinctIds(s.sessions)
    ensures DistinctIds(Connect(s, b, c, e).0.sessions)
  {
    assert !Taken(s.sessions, s.lastChannelId + 1);
    hide FindProxy, AddSession, DeleteSession, DistinctIds, Lists;
    var i := FindProxy(s.proxies, ByOwner(b, c.appIndex, e.user));
    if i < |s.proxies| {
      var s1 := SetRequest(s, b, c.appIndex, e.user, e.newRequest).(lastChannelId := s.lastChannelId + 1);
      AddSessionDistinctIff(s1, b, c, s1.lastChannelId, e.newRequest, e.userOk);
      var s2 := AddSession(s1, b, c, s1.lastChannelId, e.newRequest, e.userOk).0;
      DeleteKeepsDistinct(SetRequest(s2, b, c.appIndex, e.user, s.proxies[i].requestId), ByChannel(s1.lastChannelId));
    }
  }

  lemma OpenInBackgroundDistinctIff(s: Srv, b: Base, c: Caller, e: Env)
    requires Lists(s) && DistinctIds(s.sessions) && HasProxy(s, ByOwner(b, c.appIndex, c.userId)) && e.user != c.userId
    ensures DistinctIds(OpenInBackground(s, b, c, e).0.sessions) <==> !Copies(s, b, c, e)
  {
    assert !Taken(s.sessions, s.lastChannelId + 1);
    hide FindProxy, FindSession, AddSession, MakeVirtual, DistinctIds, Lists, Taken;
    var i := FindProxy(s.proxies, ByOwner(b, c.appIndex, c.userId));
    var p := s.proxies[i];
    var s1 := if p.isEnable then s
              else SetProxy(s, i, p.(isLast := true, requestId := e.newRequest, channelId := s.lastChannelId + 1))
                   .(lastChannelId := s.lastChannelId + 1);
    var q := s1.proxies[i];
    AddSessionDistinctIff(s1, b, c, q.channelId, q.requestId, e.userOk);
    MakeVirtualSessions(AddSession(s1, b, c, q.channelId, q.requestId, e.userOk).0, b, q.requestId);
  }

  lemma MakeVirtualSessions(s: Srv, b: Base, r: nat)
    ensures MakeVirtual(s, b, r).sessions == s.sessions
  {
    hide FindProxy;
  }

  lemma AddProxyKeepsCopies(s: Srv, b: Base, c: Caller, e: Env)
    ensures Copies(AddProxy(s, b, c), b, c, e) <==> Copies(s, b, c, e)
    ensures AddProxy(s, b, c).sessions == s.sessions
  {
    var k := ByOwner(b, c.appIndex, c.userId);
    var i, t := FindProxy(s.proxies, k), AddProxy(s, b, c);
    if i < |s.proxies| {
      assert forall j | 0 <= j < |s.proxies| :: SameOwner(s.proxies[j], t.proxies[j]);
      OwnerStays(s.proxies, t.proxies, k);
    } else {
      assert PicksProxy(k, t.proxies[0]) && FindProxy(t.proxies, k) == 0;
    }
  }

  /** Exactly which opens give two sessions one channel id. */
  lemma OpenDistinctIff(s: Srv, b: Base, c: Caller, e: Env)
    requires Lists(s) && DistinctIds(s.sessions)
    ensures DistinctIds(Open(s, b, c, e).0.sessions) <==> !Copies(s, b, c, e)
  {
    hide AddProxy, Connect, OpenInBackground, Lists, DistinctIds;
    var t := AddProxy(s, b, c);
    AddProxyKeeps(s, b, c);
    AddProxyKeepsCopies(s, b, c, e);
    if e.user != c.userId {
      OpenInBackgroundDistinctIff(t, b, c, e);
    } else {
      ConnectKeepsDistinct(t, b, c, e);
    }
  }

  lemma {:induction false} SurvivorsDistinct(ss: seq<Session>, appIndex: int, userId: int)
    requires DistinctIds(ss)
    ensures DistinctIds(Survivors(ss, appIndex, userId))
  {
    if ss != [] {
      SurvivorsDistinct(ss[1..], appIndex, userId);
      forall x | x in Survivors(ss[1..], appIndex, userId) ensures x.channelId != ss[0].channelId {
        assert x in ss[1..];
      }
    }
  }

  lemma CloseKeepsDistinct(s: Srv, ch: int, inner: bool, token: int)
    requires DistinctIds(s.sessions)
    ensures DistinctIds(Close(s, ch, inner, token).0.sessions)
  {
    var i := ChannelInfo(s.sessions, ch, INVALID_REQ_ID);
    hide ChannelInfo, DeleteSession, DistinctIds, FindProxy;
    if i < |s.sessions| {
      DeleteKeepsDistinct(DisableProxy(s, s.sessions[i].requestId), ByChannel(ch));
    }
  }

  lemma ListenerKeepsDistinct(s: Srv, ch: int, kind: Listener, enable: bool, token: int, user: int)
    requires DistinctIds(s.sessions)
    ensures DistinctIds(SetListener(s, ch, kind, enable, token, user).0.sessions)
  {
    hide ChannelInfo;
    var t := SetListener(s, ch, kind, enable, token, user).0;
    assert |t.sessions| == |s.sessions|;
    assert forall j | 0 <= j < |t.sessions| :: t.sessions[j].channelId == s.sessions[j].channelId;
  }

  lemma OpenSucceededSessions(s: Srv, b: Base, r: nat, user: int)
    ensures OpenSucceeded(s, b, r, user).sessions == s.sessions
  {
    hide FindProxy, FindSession, ChannelInfo;
  }

  lemma OpenFailedKeepsDistinct(s: Srv, r: nat)
    requires DistinctIds(s.sessions)
    ensures DistinctIds(OpenFailed(s, r).sessions)
  {
    var i := ChannelInfo(s.sessions, INVALID_CHANNEL_ID, r);
    hide ChannelInfo, FindProxy, DeleteSession, DistinctIds;
    if i < |s.sessions| {
      DeleteKeepsDistinct(s, ByChannel(s.sessions[i].channelId));
    }
  }

  /** Exactly which steps do: such an open, and nothing else. */
  lemma StepDistinctIff(s: Srv, op: Op)
    requires Lists(s) && DistinctIds(s.sessions)
    ensures DistinctIds(Step(s, op).sessions) <==> !(op.OpOpen? && Copies(s, op.b, op.c, op.e))
  {
    hide Open, OpenSucceeded, OpenFailed, Close, SetListener, CloseAll, DeleteSession, FindProxy, FindSession,
      Survivors, Pending, Others, Lists, Copies;
    match op
    case OpOpen(b, c, e) => OpenDistinctIff(s, b, c, e);
    case OpOpenSucceeded(b, r, user) => OpenSucceededSessions(s, b, r, user);
    case OpOpenFailed(r) => OpenFailedKeepsDistinct(s, r);
    case OpClose(ch, token) => CloseKeepsDistinct(s, ch, false, token);
    case OpSetListener(ch, kind, enable, token, user) => ListenerKeepsDistinct(s, ch, kind, enable, token, user);
    case OpData(_, _, _, _, _, _) =>
    case OpDisconnected(_, _, _) => CloseAllKeeps(s);
    case OpReconnected(_, _) =>
    case OpUserSwitched(_) =>
    case OpUninstall(appIndex, userId) => SurvivorsDistinct(s.sessions, appIndex, userId);
    case OpClientDied(pid) => DeleteKeepsDistinct(s, ByPid(pid));
    case OpRevoked(pid) =>
      if HasSession(s, ByPid(pid)) {
        CloseKeepsDistinct(s, s.sessions[FindSession(s.sessions, ByPid(pid))].channelId, true, 0);
      }
  }

  ghost predicate DistinctThroughout(s: Srv, ops: seq<Op>)
    decreases |ops|
  {
    DistinctIds(s.sessions) && (ops != [] ==> DistinctThroughout(Step(s, ops[0]), ops[1..]))
  }

  ghost predicate NoneCopies(s: Srv, ops: seq<Op>)
    decreases |ops|
  {
    ops == [] || (!(ops[0].OpOpen? && Copies(s, ops[0].b, ops[0].c, ops[0].e)) && NoneCopies(Step(s, ops[0]), ops[1..]))
  }

  lemma {:induction false} ThroughoutIff(s: Srv, ops: seq<Op>)
    requires Lists(s) && DistinctIds(s.sessions)
    ensures DistinctThroughout(s, ops) <==> NoneCopies(s, ops)
    decreases |ops|
  {
    hide Step, Copies, DistinctIds, Lists;
    if ops != [] {
      StepKeeps(s, ops[0]);
      StepDistinctIff(s, ops[0]);
      if DistinctIds(Step(s, ops[0]).sessions) {
        ThroughoutIff(Step(s, ops[0]), ops[1..]);
      }
    }
  }

  /** Channel ids tell sessions apart at every point of a run if and only if no open in it is one that copies. */
  lemma DistinctThroughoutIff(ops: seq<Op>)
    ensures DistinctThroughout(Initial(), ops) <==> NoneCopies(Initial(), ops)
  {
    ThroughoutIff(Initial(), ops);
  }

  ghost predicate ForegroundOnly(ops: seq<Op>) {
    forall op | op in ops && op.OpOpen? :: op.e.user == op.c.userId
  }

  lemma {:induction false} ForegroundNeverCopies(s: Srv, ops: seq<Op>)
    requires ForegroundOnly(ops)
    ensures NoneCopies(s, ops)
    decreases |ops|
  {
    hide Step;
    if ops != [] {
      ForegroundNeverCopies(Step(s, ops[0]), ops[1..]);
    }
  }

  /** In particular they do in every run whose opens all come from the foreground user. */
  lemma ForegroundIdsDistinct(ops: seq<Op>)
    requires ForegroundOnly(ops)
    ensures DistinctThroughout(Initial(), ops)
  {
    ForegroundNeverCopies(Initial(), ops);
    DistinctThroughoutIff(ops);
  }

  /** A channel that opened for one process of the foreground user; then the user leaves, and a second process of the
      same application opens: both sessions have channel id 1. */
  lemma SecondProcessSharesId(b: Base, c: Caller, pid: int, user: int, r: nat, r': nat)
    requires pid != c.pid && user != c.userId && r != INVALID_REQ_ID
    ensures var s := Run(Initial(), [OpOpen(b, c, Env(c.userId, r, true, true)), OpOpenSucceeded(b, r, c.userId),
                                     OpOpen(b, c.(pid := pid), Env(user, r', true, true))]);
            |s.sessions| == 2 && s.sessions[0].channelId == s.sessions[1].channelId == 1
  {
    var x, y := OpOpen(b, c, Env(c.userId, r, true, true)), OpOpenSucceeded(b, r, c.userId);
    var z := OpOpen(b, c.(pid := pid), Env(user, r', true, true));
    var s1 := Step(Initial(), x);
    FirstOpen(b, c, r);
    FirstSucceeded(s1, b, c, r);
    var s2 := Step(s1, y);
    assert FindSession(s2.sessions, ByCaller(b, pid)) == 1;
    assert FindProxy(s2.proxies, ByOwner(b, c.appIndex, c.userId)) == 0;
    var s3 := Step(s2, z);
    assert |s3.sessions| == 2 && s3.sessions[0].channelId == s3.sessions[1].channelId == 1;
    hide Step;
    RunThree(Initial(), x, y, z);
  }

  lemma FirstSucceeded(s: Srv, b: Base, c: Caller, r: nat)
    requires s == Opened(b, c, r) && r != INVALID_REQ_ID
    ensures var t := Step(s, OpOpenSucceeded(b, r, c.userId));
            t == s.(proxies := [s.proxies[0].(isEnable := true, channelId := 1, isConnected := true, isLast := true)])
  {
    assert FindSession(s.sessions, ByRequest(r)) == 0 && FindSession(s.sessions, ByLink(b, r)) == 0;
    var t := s.(proxies := MarkLast(s.proxies, b, r));
    assert t.proxies == [s.proxies[0].(isLast := true)];
    var u := EnableProxy(t, b, c.appIndex, r, 1);
    assert u.proxies == [s.proxies[0].(isEnable := true, channelId := 1, isLast := true)];
    hide MarkLast;
  }

  lemma RunThree(s: Srv, x: Op, y: Op, z: Op)
    ensures Run(s, [x, y, z]) == Step(Step(Step(s, x), y), z)
  {
    hide Step;
    RunTwo(Step(s, x), y, z);
    assert [x, y, z][1..] == [y, z];
  }

  // ---------- last connected ----------

  /** All last-connected proxies are of one address. */
  ghost predicate OneLast(ps: seq<Proxy>) {
    forall i, j | 0 <= i < j < |ps| && ps[i].isLast && ps[j].isLast :: ps[i].base == ps[j].base
  }

  ghost predicate LastElsewhere(ps: seq<Proxy>, b: Base) {
    exists i :: 0 <= i < |ps| && ps[i].isLast && ps[i].base != b
  }

  /** A caller in the background opens, the proxy is new or not enabled, and a proxy of another address is last
      connected. */
  ghost predicate MarksSecond(s: Srv, b: Base, c: Caller, e: Env) {
    var i := FindProxy(s.proxies, ByOwner(b, c.appIndex, c.userId));
    e.user != c.userId && (i < |s.proxies| ==> !s.proxies[i].isEnable) && LastElsewhere(s.proxies, b)
  }

  /** The same addresses in the same places, and nothing newly last connected. */
  ghost predicate NoNewLast(ps: seq<Proxy>, qs: seq<Proxy>) {
    |ps| == |qs| && forall j | 0 <= j < |ps| :: qs[j].base == ps[j].base && (qs[j].isLast ==> ps[j].isLast)
  }

  lemma AddProxyLast(s: Srv, b: Base, c: Caller, e: Env)
    requires OneLast(s.proxies)
    ensures var t := AddProxy(s, b, c); OneLast(t.proxies) && (MarksSecond(t, b, c, e) <==> MarksSecond(s, b, c, e))
  {
    var k := ByOwner(b, c.appIndex, c.userId);
    var i, t := FindProxy(s.proxies, k), AddProxy(s, b, c);
    if i < |s.proxies| {
      assert forall j | 0 <= j < |s.proxies| :: SameOwner(s.proxies[j], t.proxies[j]);
      OwnerStays(s.proxies, t.proxies, k);
      assert forall j | 0 <= j < |s.proxies| :: t.proxies[j].isLast == s.proxies[j].isLast;
    } else {
      assert PicksProxy(k, t.proxies[0]) && FindProxy(t.proxies, k) == 0;
      assert forall j | 0 <= j < |s.proxies| :: t.proxies[j + 1] == s.proxies[j];
    }
    hide FindProxy;
  }

  lemma ConnectLast(s: Srv, b: Base, c: Caller, e: Env)
    ensures NoNewLast(s.proxies, Connect(s, b, c, e).0.proxies)
  {
    hide FindProxy, FindSession;
  }

  lemma MakeVirtualLast(s: Srv, b: Base, r: nat)
    ensures var t := MakeVirtual(s, b, r);
            && NoNewLast(s.proxies, t.proxies)
            && forall j | 0 <= j < |s.proxies| :: t.proxies[j].isLast == s.proxies[j].isLast
  {
    hide FindProxy;
  }

  /** What opening from the background marks: the proxy of the owner, unless it is enabled. */
  lemma OpenInBackgroundMarks(s: Srv, b: Base, c: Caller, e: Env)
    requires HasProxy(s, ByOwner(b, c.appIndex, c.userId))
    ensures var ps, qs := s.proxies, OpenInBackground(s, b, c, e).0.proxies;
            var i := FindProxy(ps, ByOwner(b, c.appIndex, c.userId));
            && |qs| == |ps| && (forall j | 0 <= j < |ps| :: qs[j].base == ps[j].base)
            && forall j | 0 <= j < |ps| :: qs[j].isLast == (ps[j].isLast || (j == i && !ps[i].isEnable))
  {
    hide FindProxy, FindSession, MakeVirtual;
    var i := FindProxy(s.proxies, ByOwner(b, c.appIndex, c.userId));
    var p := s.proxies[i];
    var s1 := if p.isEnable then s
              else SetProxy(s, i, p.(isLast := true, requestId := e.newRequest, channelId := s.lastChannelId + 1))
                   .(lastChannelId := s.lastChannelId + 1);
    var q := s1.proxies[i];
    var s2 := AddSession(s1, b, c, q.channelId, q.requestId, e.userOk).0;
    assert s2.proxies == s1.proxies;
    hide AddSession;
    MakeVirtualLast(s2, b, q.requestId);
  }

  lemma OpenInBackgroundLastIff(s: Srv, b: Base, c: Caller, e: Env)
    requires OneLast(s.proxies) && HasProxy(s, ByOwner(b, c.appIndex, c.userId)) && e.user != c.userId
    ensures OneLast(OpenInBackground(s, b, c, e).0.proxies) <==> !MarksSecond(s, b, c, e)
  {
    hide FindProxy, OpenInBackground, OneLast, LastElsewhere;
    OpenInBackgroundMarks(s, b, c, e);
    var i := FindProxy(s.proxies, ByOwner(b, c.appIndex, c.userId));
    OneMarked(s.proxies, OpenInBackground(s, b, c, e).0.proxies, i, s.proxies[i].isEnable);
  }

  lemma OneMarked(ps: seq<Proxy>, qs: seq<Proxy>, i: nat, enabled: bool)
    requires OneLast(ps) && i < |ps| == |qs| && forall j | 0 <= j < |ps| :: qs[j].base == ps[j].base
    requires forall j | 0 <= j < |ps| :: qs[j].isLast == (ps[j].isLast || (j == i && !enabled))
    ensures OneLast(qs) <==> enabled || !LastElsewhere(ps, ps[i].base)
  {
    if !enabled {
      if j :| 0 <= j < |ps| && ps[j].isLast && ps[j].base != ps[i].base {
        assert qs[if i < j then i else j].isLast && qs[if i < j then j else i].isLast;
      }
    }
  }

  /** Exactly which opens leave two addresses last connected. */
  lemma OpenLastIff(s: Srv, b: Base, c: Caller, e: Env)
    requires OneLast(s.proxies) && Lists(s)
    ensures OneLast(Open(s, b, c, e).0.proxies) <==> !MarksSecond(s, b, c, e)
  {
    hide AddProxy, Connect, OpenInBackground, Lists, FindProxy;
    var t := AddProxy(s, b, c);
    AddProxyKeeps(s, b, c);
    AddProxyLast(s, b, c, e);
    if e.user != c.userId {
      hide OneLast, MarksSecond;
      OpenInBackgroundLastIff(t, b, c, e);
    } else {
      ConnectLast(t, b, c, e);
    }
  }

  lemma SetConnectedLast(s: Srv, b: Base, r: nat, connected: bool)
    ensures NoNewLast(s.proxies, SetConnected(s, b, r, connected).proxies)
  {
    hide FindProxy;
  }

  lemma EnableProxyLast(s: Srv, b: Base, appIndex: int, r: nat, ch: int)
    ensures NoNewLast(s.proxies, EnableProxy(s, b, appIndex, r, ch).proxies)
  {
    hide FindProxy;
  }

  lemma NoNewKeepsOne(ps: seq<Proxy>, qs: seq<Proxy>)
    requires OneLast(ps) && NoNewLast(ps, qs)
    ensures OneLast(qs)
  {
  }

  lemma OpenSucceededLast(s: Srv, b: Base, r: nat, user: int)
    requires OneLast(s.proxies)
    ensures OneLast(OpenSucceeded(s, b, r, user).proxies)
  {
    hide FindProxy, FindSession, ChannelInfo, MakeVirtual, SetConnected, EnableProxy;
    MakeVirtualLast(s, b, r);
    NoNewKeepsOne(s.proxies, MakeVirtual(s, b, r).proxies);
    var t := s.(proxies := MarkLast(s.proxies, b, r));
    assert OneLast(t.proxies);
    hide OneLast, MarkLast, NoNewLast;
    var i := ChannelInfo(s.sessions, INVALID_CHANNEL_ID, r);
    if i < |s.sessions| {
      var node := s.sessions[i];
      var u := EnableProxy(t, node.base, node.appIndex, r, node.channelId);
      EnableProxyLast(t, node.base, node.appIndex, r, node.channelId);
      NoNewKeepsOne(t.proxies, u.proxies);
      SetConnectedLast(u, b, r, true);
      NoNewKeepsOne(u.proxies, SetConnected(u, b, r, true).proxies);
    }
  }

  lemma CloseLast(s: Srv, ch: int, inner: bool, token: int)
    ensures NoNewLast(s.proxies, Close(s, ch, inner, token).0.proxies)
  {
    hide FindProxy, FindSession, ChannelInfo;
  }

  lemma StepLastIff(s: Srv, op: Op)
    requires OneLast(s.proxies) && Lists(s)
    ensures OneLast(Step(s, op).proxies) <==> !(op.OpOpen? && MarksSecond(s, op.b, op.c, op.e))
  {
    hide Open, OpenSucceeded, Close, CloseAll, SetConnected, FindProxy, FindSession, ChannelInfo, Survivors, Pending,
      Others, Lists, MarksSecond;
    match op
    case OpOpen(b, c, e) => OpenLastIff(s, b, c, e);
    case OpOpenSucceeded(b, r, user) => OpenSucceededLast(s, b, r, user);
    case OpDisconnected(b, r, unpaired) =>
      CloseAllKeeps(s);
      SetConnectedLast(if unpaired then CloseAll(s) else s, b, r, false);
    case OpReconnected(b, r) => SetConnectedLast(s, b, r, true);
    case OpClose(ch, token) => CloseLast(s, ch, false, token);
    case OpRevoked(pid) =>
      if HasSession(s, ByPid(pid)) {
        CloseLast(s, s.sessions[FindSession(s.sessions, ByPid(pid))].channelId, true, 0);
      }
    case _ => assert NoNewLast(s.proxies, Step(s, op).proxies);
  }

  ghost predicate OneLastThroughout(s: Srv, ops: seq<Op>)
    decreases |ops|
  {
    OneLast(s.proxies) && (ops != [] ==> OneLastThroughout(Step(s, ops[0]), ops[1..]))
  }

  ghost predicate NoneMarksSecond(s: Srv, ops: seq<Op>)
    decreases |ops|
  {
    ops == [] || (
      && !(ops[0].OpOpen? && MarksSecond(s, ops[0].b, ops[0].c, ops[0].e))
      && NoneMarksSecond(Step(s, ops[0]), ops[1..]))
  }

  lemma {:induction false} LastThroughoutIff(s: Srv, ops: seq<Op>)
    requires Lists(s) && OneLast(s.proxies)
    ensures OneLastThroughout(s, ops) <==> NoneMarksSecond(s, ops)
    decreases |ops|
  {
    hide Step, MarksSecond, OneLast, Lists;
    if ops != [] {
      StepKeeps(s, ops[0]);
      StepLastIff(s, ops[0]);
      if OneLast(Step(s, ops[0]).proxies) {
        LastThroughoutIff(Step(s, ops[0]), ops[1..]);
      }
    }
  }

  /** One address is last connected at every point of a run if and only if no open in it marks a second one. */
  lemma OneLastThroughoutIff(ops: seq<Op>)
    ensures OneLastThroughout(Initial(), ops) <==> NoneMarksSecond(Initial(), ops)
  {
    LastThroughoutIff(Initial(), ops);
  }

  lemma {:induction false} ForegroundNeverMarks(s: Srv, ops: seq<Op>)
    requires ForegroundOnly(ops)
    ensures NoneMarksSecond(s, ops)
    decreases |ops|
  {
    hide Step;
    if ops != [] {
      ForegroundNeverMarks(Step(s, ops[0]), ops[1..]);
    }
  }

  lemma ForegroundOneLast(ops: seq<Op>)
    requires ForegroundOnly(ops)
    ensures OneLastThroughout(Initial(), ops)
  {
    ForegroundNeverMarks(Initial(), ops);
    OneLastThroughoutIff(ops);
  }

  /** Two opens from the background leave both addresses last connected. */
  lemma BackgroundMarksTwo(b: Base, b': Base, c: Caller, user: int, r: nat, r': nat)
    requires b != b' && user != c.userId
    ensures var s := Run(Initial(), [OpOpen(b, c, Env(user, r, true, true)), OpOpen(b', c, Env(user, r', true, true))]);
            |s.proxies| == 2 && s.proxies[0].isLast && s.proxies[1].isLast && s.proxies[0].base != s.proxies[1].base
  {
    var x, y := OpOpen(b, c, Env(user, r, true, true)), OpOpen(b', c, Env(user, r', true, true));
    BackgroundOpen(Initial(), b, c, x.e);
    var s := Step(Initial(), x);
    assert FindProxy(s.proxies, ByOwner(b', c.appIndex, c.userId)) == 1;
    BackgroundOpen(s, b', c, y.e);
    hide Step;
    RunTwo(Initial(), x, y);
  }

  /** A background open of an application without a proxy. */
  lemma BackgroundOpen(s: Srv, b: Base, c: Caller, e: Env)
    requires e.user != c.userId && !HasProxy(s, ByOwner(b, c.appIndex, c.userId))
    ensures var ps, qs := s.proxies, Step(s, OpOpen(b, c, e)).proxies;
            && |qs| == |ps| + 1 && qs[0].isLast && qs[0].base == b
            && forall j | 0 <= j < |ps| :: qs[j + 1].isLast == ps[j].isLast && qs[j + 1].base == ps[j].base
  {
    var t := AddProxy(s, b, c);
    assert FindProxy(t.proxies, ByOwner(b, c.appIndex, c.userId)) == 0;
    assert forall j | 0 <= j < |s.proxies| :: t.proxies[j + 1] == s.proxies[j];
    hide FindProxy, AddProxy, OpenInBackground;
    OpenInBackgroundMarks(t, b, c, e);
  }
}
