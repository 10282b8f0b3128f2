/** Whole runs of the BR proxy server. */
module BrProxyRuns {
  import opened BrProxyServer
  import opened BrProxyProps

  lemma StepKeeps(s: Srv, op: Op)
    requires Lists(s)
    ensures Lists(Step(s, op))
    ensures !op.OpData? && !op.OpSetListener? ==> SameData(s, Step(s, op))
  {
    hide Open, OpenSucceeded, OpenFailed, Close, SetListener, DataReceived, SetConnected, CloseAll, UserSwitched,
      Uninstall, DeleteSession, PermissionRevoked, Lists;
    match op
    case OpOpen(b, c, e) => OpenKeeps(s, b, c, e);
    case OpOpenSucceeded(b, r, user) => OpenSucceededKeeps(s, b, r, user);
    case OpOpenFailed(r) => OpenFailedKeeps(s, r);
    case OpClose(ch, token) => CloseKeeps(s, ch, false, token);
    case OpSetListener(ch, kind, enable, token, user) => SetListenerKeeps(s, ch, kind, enable, token, user);
    case OpData(b, r, data, user, running, pid) => DataReceivedKeeps(s, b, r, data, user, running, pid);
    case OpDisconnected(b, r, unpaired) =>
      CloseAllKeeps(s);
      SetConnectedKeeps(if unpaired then CloseAll(s) else s, b, r, false);
    case OpReconnected(b, r) => SetConnectedKeeps(s, b, r, true);
    case OpUserSwitched(user) => UserSwitchedKeeps(s, user);
    case OpUninstall(appIndex, userId) => UninstallKeeps(s, appIndex, userId);
    case OpClientDied(pid) => DeleteSessionKeeps(s, ByPid(pid));
    case OpRevoked(pid) => RevokedKeeps(s, pid);
  }

  lemma StepFifo(s: Srv, op: Op, b: Base, user: int)
    requires Lists(s) && Fifo(s, b, user)
    ensures Fifo(Step(s, op), b, user)
  {
    StepKeeps(s, op);
    hide SetListener, DataReceived, Lists;
    if op.OpData? {
      DataReceivedFifo(s, op.b, op.r, op.data, op.user, op.running, op.runningPid, b, user);
    } else if op.OpSetListener? {
      SetListenerFifo(s, op.channelId, op.kind, op.enable, op.token, op.user, b, user);
    } else {
      hide Step;
    }
  }

  lemma {:induction false} RunKeeps(s: Srv, ops: seq<Op>, b: Base, user: int)
    requires Lists(s) && Fifo(s, b, user)
    ensures Lists(Run(s, ops)) && Fifo(Run(s, ops), b, user)
    decreases |ops|
  {
    if ops != [] {
      StepKeeps(s, ops[0]);
      StepFifo(s, ops[0], b, user);
      RunKeeps(Step(s, ops[0]), ops[1..], b, user);
    }
  }

  /** In every run and for every (brMac, uuid, user), what was delivered followed by what is pending is
      exactly what was received, in order. */
  lemma DataIsAFifo(ops: seq<Op>, b: Base, user: int)
    ensures var s := Run(Initial(), ops);
            Pending(DeliveredItems(s.delivered), b, user) + Pending(s.items, b, user) == Pending(s.received, b, user)
  {
    RunKeeps(Initial(), ops, b, user);
  }

  /** In every run: one proxy per (brMac, uuid, appIndex, userId), one session per (brMac, uuid, pid),
      counters that match, and a proxy behind every session. */
  lemma ListsStayKeyed(ops: seq<Op>)
    ensures var s := Run(Initial(), ops);
            && (forall i, j | 0 <= i < |s.proxies| && 0 <= j < |s.proxies| && i != j ::
                  !PicksProxy(ByOwner(s.proxies[i].base, s.proxies[i].appIndex, s.proxies[i].userId), s.proxies[j]))
            && (forall i, j | 0 <= i < |s.sessions| && 0 <= j < |s.sessions| && i != j ::
                  !PicksSession(ByCaller(s.sessions[i].base, s.sessions[i].pid), s.sessions[j]))
            && (forall i | 0 <= i < |s.sessions| ::
                  HasProxy(s, ByOwner(s.sessions[i].base, s.sessions[i].appIndex, s.sessions[i].userId)))
            && s.sessionCnt == |s.sessions| && s.proxyCnt == |s.proxies| && s.itemCnt == |s.items|
  {
    RunKeeps(Initial(), ops, Base("", ""), 0);
    var s := Run(Initial(), ops);
    forall i, j | 0 <= i < |s.proxies| && 0 <= j < |s.proxies| && i != j
      ensures !PicksProxy(ByOwner(s.proxies[i].base, s.proxies[i].appIndex, s.proxies[i].userId), s.proxies[j])
    {
      assert !SameOwner(s.proxies[if i < j then i else j], s.proxies[if i < j then j else i]);
    }
    forall i | 0 <= i < |s.sessions|
      ensures HasProxy(s, ByOwner(s.sessions[i].base, s.sessions[i].appIndex, s.sessions[i].userId))
    {
      assert OwnedBy(s.sessions[i], s.proxies);
    }
  }

  /** After any run, closing everything leaves no session and no proxy, and loses no pending data. */
  lemma CloseAllClosesAll(ops: seq<Op>)
    ensures var s := Run(Initial(), ops);
            var t := CloseAll(s);
            t.sessions == [] && t.sessionCnt == 0 && t.proxies == [] && t.proxyCnt == 0 && t.items == s.items
  {
    RunKeeps(Initial(), ops, Base("", ""), 0);
    CloseAllExactly(Run(Initial(), ops));
    hide CloseAll, Run;
  }

  /** The session a delivery went to. */
  ghost predicate WentToListener(d: Delivery, ss: seq<Session>) {
    exists i :: 0 <= i < |ss| && ss[i].channelId == d.channelId && ss[i].pid == d.pid
                && ss[i].base == d.item.base && ss[i].isReceiveCbSet
  }

  /** In every run, every step only appends to what was delivered, and only to sessions of the item's address
      that listen for data. */
  lemma DeliveriesGoToListeners(ops: seq<Op>, op: Op, k: nat)
    ensures var s := Run(Initial(), ops);
            && s.delivered <= Step(s, op).delivered
            && (|s.delivered| <= k < |Step(s, op).delivered| ==>
                  WentToListener(Step(s, op).delivered[k], Step(s, op).sessions))
  {
    RunKeeps(Initial(), ops, Base("", ""), 0);
    StepDelivers(Run(Initial(), ops), op, k);
    hide Run, Step, WentToListener;
  }

  lemma StepDelivers(s: Srv, op: Op, k: nat)
    requires Lists(s)
    ensures s.delivered <= Step(s, op).delivered
    ensures |s.delivered| <= k < |Step(s, op).delivered| ==>
              WentToListener(Step(s, op).delivered[k], Step(s, op).sessions)
  {
    StepKeeps(s, op);
    if op.OpData? && HasSession(s, ByListener(op.b, op.r)) {
      var i := FindSession(s.sessions, ByListener(op.b, op.r));
      var q := Pending(s.items + [Item(op.b, op.user, op.data)], op.b, op.user);
      HandedToListener(s.sessions, i, q, s.sessions[i].channelId);
    } else if op.OpSetListener? && ChannelInfo(s.sessions, op.channelId, INVALID_REQ_ID) < |s.sessions| {
      var i := ChannelInfo(s.sessions, op.channelId, INVALID_REQ_ID);
      var c := s.sessions[i].(isReceiveCbSet := true);
      HandedToListener(s.sessions[i := c], i, Pending(s.items, c.base, op.user), op.channelId);
    } else if !op.OpData? && !op.OpSetListener? {
      hide Step;
    }
    hide Pending, Others, Handed, WentToListener, Lists;
  }

  lemma HandedToListener(ss: seq<Session>, i: nat, q: seq<Item>, ch: int)
    requires i < |ss| && ss[i].isReceiveCbSet && ss[i].channelId == ch
    requires forall x | x in q :: x.base == ss[i].base
    ensures forall j | 0 <= j < |q| :: WentToListener(Handed(q, ss[i].pid, ch)[j], ss)
  {
  }

  // ---------- a failed reopen ----------

  /** One proxy and one session, opened and waiting for the result. */
  function Opened(b: Base, c: Caller, r: nat): Srv {
    Srv([Session(b, c.pid, c.uid, c.token, 1, c.appIndex, c.userId, r, false, false)], 1,
        [Proxy(b, c.appIndex, c.userId, c.bundle, c.ability, c.uid, c.pid, 0, r, false, false, false, false, false)], 1,
        [], 0, 1, [], [])
  }

  lemma FirstOpen(b: Base, c: Caller, r: nat)
    ensures Step(Initial(), OpOpen(b, c, Env(c.userId, r, true, true))) == Opened(b, c, r)
  {
    var t := AddProxy(Initial(), b, c);
    assert t.proxies == [Proxy(b, c.appIndex, c.userId, c.bundle, c.ability, c.uid, c.pid, 0, 0,
                               false, false, false, false, false)];
    assert FindProxy(t.proxies, ByOwner(b, c.appIndex, c.userId)) == 0;
    hide AddProxy;
  }

  lemma RunTwo(s: Srv, x: Op, y: Op)
    ensures Run(s, [x, y]) == Step(Step(s, x), y)
  {
    hide Step;
    assert [x, y][1..] == [y] && [y][1..] == [];
    assert Run(Step(s, x), [y]) == Step(Step(s, x), y);
  }

  /** The run in which a failed open does not roll back: the same caller opens again and that fails. The session has
      the new request id, the proxy the old one, so the two no longer belong to one request. */
  lemma FailedReopenKeepsNewRequest(b: Base, c: Caller, r: nat, r': nat)
    requires r != r'
    ensures var s := Run(Initial(), [OpOpen(b, c, Env(c.userId, r, true, true)),
                                     OpOpen(b, c, Env(c.userId, r', true, false))]);
            && |s.sessions| == 1 && s.sessions[0].requestId == r'
            && |s.proxies| == 1 && s.proxies[0].requestId == r && !HasProxy(s, ByBaseRequest(b, r'))
  {
    var x, y := OpOpen(b, c, Env(c.userId, r, true, true)), OpOpen(b, c, Env(c.userId, r', true, false));
    FirstOpen(b, c, r);
    var s := Opened(b, c, r);
    StepKeeps(Initial(), x);
    assert FindProxy(s.proxies, ByOwner(b, c.appIndex, c.userId)) == 0;
    assert FindSession(s.sessions, ByCaller(b, c.pid)) == 0;
    assert AddProxy(s, b, c) == s;
    FailedOpenRollsBack(s, b, c, y.e);
    assert Step(s, y) == Connect(s, b, c, y.e).0;
    hide Step, Connect, Lists;
    RunTwo(Initial(), x, y);
  }
}
