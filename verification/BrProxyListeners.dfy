/** Switching the listeners of a channel on and off, and what that means for the data that comes after. */
module BrProxyListeners {
  import opened BrProxyServer
  import opened BrProxyProps
  import opened BrProxyRuns
  import opened BrProxyChannels

  /** The session a channel id names is the first one that has it; the reserved id names none. */
  ghost predicate Names(ss: seq<Session>, ch: int, i: nat) {
    ch != -1 && i < |ss| && ss[i].channelId == ch && forall j | 0 <= j < i :: ss[j].channelId != ch
  }

  /** For every state, channel, kind and direction: the call is accepted exactly for the owner of a known channel and
      a kind there is. Then the flag of that kind of the named session says what was asked, every other field, session
      and proxy is as before, and unless data reception is switched on the data is untouched too. */
  lemma SetListenerExactly(s: Srv, ch: int, kind: Listener, enable: bool, token: int, user: int, i: nat)
    ensures var (t, ret) := SetListener(s, ch, kind, enable, token, user);
            && (ret != OK ==> t == s)
            && (Names(s.sessions, ch, i) ==>
                  && (ret == OK <==> token == s.sessions[i].token && kind != Other)
                  && (ret == OK ==>
                        && t.sessions == s.sessions[i := t.sessions[i]]
                        && t.sessions[i] == (if kind == DataReceive then s.sessions[i].(isReceiveCbSet := enable)
                                             else s.sessions[i].(isStateCbSet := enable))
                        && t == s.(sessions := t.sessions, items := t.items, itemCnt := t.itemCnt,
                                   delivered := t.delivered)
                        && (kind != DataReceive || !enable ==> t == s.(sessions := t.sessions)))
                  && (ret != OK ==> ret == if token != s.sessions[i].token then TokenErr else InvalidParam))
            && ((forall j: nat :: !Names(s.sessions, ch, j)) ==> ret == if ch == -1 then NotFind else InvalidChannelId)
  {
    NamedIsFound(s.sessions, ch, i);
    hide FindSession, Pending, Others, Handed;
  }

  lemma NamedIsFound(ss: seq<Session>, ch: int, i: nat)
    ensures var k := ChannelInfo(ss, ch, INVALID_REQ_ID);
            && (k < |ss| ==> Names(ss, ch, k))
            && (Names(ss, ch, i) ==> k == i)
            && (k == |ss| ==> forall j: nat :: !Names(ss, ch, j))
  {
    if ch != -1 {
      var k := FindSession(ss, ByChannel(ch));
      assert forall j | 0 <= j < k :: !PicksSession(ByChannel(ch), ss[j]) && ss[j].channelId != ch;
      assert k < |ss| ==> PicksSession(ByChannel(ch), ss[k]);
    }
  }

  // ---------- silence ----------

  /** No session of the channel id listens for data. */
  ghost predicate Quiet(ss: seq<Session>, ch: int) {
    forall i | 0 <= i < |ss| && ss[i].channelId == ch :: !ss[i].isReceiveCbSet
  }

  /** Switching data reception off silences the channel id exactly if no other session that has it listens. */
  lemma SwitchOffQuietIff(s: Srv, ch: int, token: int, user: int, i: nat)
    requires Names(s.sessions, ch, i) && SetListener(s, ch, DataReceive, false, token, user).1 == OK
    ensures Quiet(SetListener(s, ch, DataReceive, false, token, user).0.sessions, ch) <==>
              forall j | 0 <= j < |s.sessions| && j != i && s.sessions[j].channelId == ch ::
                !s.sessions[j].isReceiveCbSet
  {
    SetListenerExactly(s, ch, DataReceive, false, token, user, i);
    hide SetListener;
    var t := SetListener(s, ch, DataReceive, false, token, user).0;
    assert forall j | 0 <= j < |s.sessions| && j != i :: t.sessions[j] == s.sessions[j];
  }

  ghost predicate SwitchesOn(op: Op, ch: int) {
    op.OpSetListener? && op.channelId == ch && op.kind == DataReceive && op.enable
  }

  /** Where the sessions of a later state come from: kept with their channel id and data flag, or new and silent. */
  ghost predicate NoNewListener(ss: seq<Session>, ts: seq<Session>) {
    forall t | t in ts && t.isReceiveCbSet :: exists s | s in ss :: s.channelId == t.channelId && s.isReceiveCbSet
  }

  lemma QuietStays(ss: seq<Session>, ts: seq<Session>, ch: int)
    requires Quiet(ss, ch) && NoNewListener(ss, ts)
    ensures Quiet(ts, ch)
  {
    forall i | 0 <= i < |ts| && ts[i].channelId == ch ensures !ts[i].isReceiveCbSet {
      assert ts[i] in ts;
    }
  }

  lemma SubsetListens(ss: seq<Session>, ts: seq<Session>)
    requires forall t | t in ts :: t in ss
    ensures NoNewListener(ss, ts)
  {
  }

  lemma DeleteListens(s: Srv, k: SessionPick)
    ensures NoNewListener(s.sessions, DeleteSession(s, k).sessions)
  {
    SubsetListens(s.sessions, DeleteSession(s, k).sessions);
  }

  lemma AddSessionListens(s: Srv, b: Base, c: Caller, ch: int, r: nat, userOk: bool)
    ensures NoNewListener(s.sessions, AddSession(s, b, c, ch, r, userOk).0.sessions)
  {
    hide FindSession;
    var i, t := FindSession(s.sessions, ByCaller(b, c.pid)), AddSession(s, b, c, ch, r, userOk).0;
    forall x | x in t.sessions && x.isReceiveCbSet
      ensures exists y | y in s.sessions :: y.channelId == x.channelId && y.isReceiveCbSet
    {
      if x !in s.sessions {
        assert i < |s.sessions| && x == s.sessions[i].(requestId := r);
        assert s.sessions[i] in s.sessions;
      }
    }
  }

  lemma ListensTwice(ss: seq<Session>, ts: seq<Session>, us: seq<Session>)
    requires NoNewListener(ss, ts) && NoNewListener(ts, us)
    ensures NoNewListener(ss, us)
  {
    forall u | u in us && u.isReceiveCbSet
      ensures exists s | s in ss :: s.channelId == u.channelId && s.isReceiveCbSet
    {
      var t :| t in ts && t.channelId == u.channelId && t.isReceiveCbSet;
    }
  }

  lemma OpenListens(s: Srv, b: Base, c: Caller, e: Env)
    ensures NoNewListener(s.sessions, Open(s, b, c, e).0.sessions)
  {
    hide FindProxy, AddSession, DeleteSession, NoNewListener;
    var s1 := AddProxy(s, b, c);
    SubsetListens(s.sessions, s.sessions);
    if e.user != c.userId {
      var i := FindProxy(s1.proxies, ByOwner(b, c.appIndex, c.userId));
      if i < |s1.proxies| {
        var p := s1.proxies[i];
        var s2 := if p.isEnable then s1
                  else SetProxy(s1, i, p.(isLast := true, requestId := e.newRequest, channelId := s1.lastChannelId + 1))
                       .(lastChannelId := s1.lastChannelId + 1);
        var q := s2.proxies[i];
        AddSessionListens(s2, b, c, q.channelId, q.requestId, e.userOk);
        MakeVirtualSessions(AddSession(s2, b, c, q.channelId, q.requestId, e.userOk).0, b, q.requestId);
        hide MakeVirtual;
      }
    } else {
      var i := FindProxy(s1.proxies, ByOwner(b, c.appIndex, e.user));
      if i < |s1.proxies| {
        var s2 := SetRequest(s1, b, c.appIndex, e.user, e.newRequest).(lastChannelId := s1.lastChannelId + 1);
        AddSessionListens(s2, b, c, s2.lastChannelId, e.newRequest, e.userOk);
        var s3 := AddSession(s2, b, c, s2.lastChannelId, e.newRequest, e.userOk).0;
        var s4 := SetRequest(s3, b, c.appIndex, e.user, s1.proxies[i].requestId);
        DeleteListens(s4, ByChannel(s2.lastChannelId));
        ListensTwice(s.sessions, s3.sessions, DeleteSession(s4, ByChannel(s2.lastChannelId)).sessions);
      }
    }
  }

  lemma CloseListens(s: Srv, ch: int, inner: bool, token: int)
    ensures NoNewListener(s.sessions, Close(s, ch, inner, token).0.sessions)
  {
    var i := ChannelInfo(s.sessions, ch, INVALID_REQ_ID);
    hide ChannelInfo, DeleteSession, FindProxy;
    SubsetListens(s.sessions, s.sessions);
    if i < |s.sessions| {
      DeleteListens(DisableProxy(s, s.sessions[i].requestId), ByChannel(ch));
    }
    hide NoNewListener;
  }

  lemma OpenFailedListens(s: Srv, r: nat)
    ensures NoNewListener(s.sessions, OpenFailed(s, r).sessions)
  {
    var i := ChannelInfo(s.sessions, INVALID_CHANNEL_ID, r);
    hide ChannelInfo, FindProxy, DeleteSession;
    SubsetListens(s.sessions, s.sessions);
    if i < |s.sessions| {
      DeleteListens(s, ByChannel(s.sessions[i].channelId));
    }
    hide NoNewListener;
  }

  lemma SetListenerQuiet(s: Srv, op: Op, ch: int)
    requires op.OpSetListener? && Quiet(s.sessions, ch) && !SwitchesOn(op, ch)
    ensures Quiet(Step(s, op).sessions, ch)
  {
    hide SetListener;
    var OpSetListener(c, kind, enable, token, user) := op;
    var i := ChannelInfo(s.sessions, c, INVALID_REQ_ID);
    NamedIsFound(s.sessions, c, i);
    if j: nat :| Names(s.sessions, c, j) {
      SetListenerExactly(s, c, kind, enable, token, user, j);
      var t := SetListener(s, c, kind, enable, token, user).0;
      assert forall x | 0 <= x < |s.sessions| && x != j :: t.sessions[x] == s.sessions[x];
    } else {
      SetListenerExactly(s, c, kind, enable, token, user, 0);
    }
  }

  lemma StepQuiet(s: Srv, op: Op, ch: int)
    requires Lists(s) && Quiet(s.sessions, ch) && !SwitchesOn(op, ch)
    ensures Quiet(Step(s, op).sessions, ch)
  {
    hide Open, OpenSucceeded, OpenFailed, Close, SetListener, CloseAll, DeleteSession, FindProxy, FindSession,
      Survivors, Pending, Others, Lists, Quiet;
    SubsetListens(s.sessions, s.sessions);
    if op.OpSetListener? {
      SetListenerQuiet(s, op, ch);
    } else {
      assert NoNewListener(s.sessions, Step(s, op).sessions) by {
        match op
        case OpOpen(b, c, e) => OpenListens(s, b, c, e);
        case OpOpenSucceeded(b, r, user) => OpenSucceededSessions(s, b, r, user);
        case OpOpenFailed(r) => OpenFailedListens(s, r);
        case OpClose(c, token) => CloseListens(s, c, false, token);
        case OpDisconnected(_, _, _) => CloseAllKeeps(s);
        case OpUninstall(appIndex, userId) =>
          SubsetListens(s.sessions, Survivors(s.sessions, appIndex, userId));
        case OpClientDied(pid) => DeleteListens(s, ByPid(pid));
        case OpRevoked(pid) =>
          if HasSession(s, ByPid(pid)) {
            CloseListens(s, s.sessions[FindSession(s.sessions, ByPid(pid))].channelId, true, 0);
          }
        case _ =>
      }
      QuietStays(s.sessions, Step(s, op).sessions, ch);
    }
  }

  lemma StepDeliversElsewhere(s: Srv, op: Op, ch: int)
    requires Lists(s) && Quiet(s.sessions, ch) && !SwitchesOn(op, ch)
    ensures s.delivered <= Step(s, op).delivered
    ensures forall k | |s.delivered| <= k < |Step(s, op).delivered| :: Step(s, op).delivered[k].channelId != ch
  {
    StepQuiet(s, op, ch);
    StepDelivers(s, op, 0);
    forall k | |s.delivered| <= k < |Step(s, op).delivered| ensures Step(s, op).delivered[k].channelId != ch {
      StepDelivers(s, op, k);
    }
    hide Step, Lists;
  }

  lemma {:induction false} RunDeliversElsewhere(s: Srv, ops: seq<Op>, ch: int)
    requires Lists(s) && Quiet(s.sessions, ch) && forall op | op in ops :: !SwitchesOn(op, ch)
    ensures s.delivered <= Run(s, ops).delivered
    ensures forall k | |s.delivered| <= k < |Run(s, ops).delivered| :: Run(s, ops).delivered[k].channelId != ch
    decreases |ops|
  {
    hide Step, Lists, Quiet, SwitchesOn;
    if ops != [] {
      var t := Step(s, ops[0]);
      StepQuiet(s, ops[0], ch);
      StepKeeps(s, ops[0]);
      StepDeliversElsewhere(s, ops[0], ch);
      RunDeliversElsewhere(t, ops[1..], ch);
      assert forall k | |s.delivered| <= k < |t.delivered| :: Run(s, ops).delivered[k] == t.delivered[k];
    }
  }

  /** In every run with distinct channel ids up to here: once the owner has switched data reception of a channel off,
      nothing is delivered to that channel id until somebody switches it on again, whatever happens in between. */
  lemma {:induction false} SwitchedOffGetsNothing(before: seq<Op>, ch: int, token: int, user: int, after: seq<Op>)
    requires var s := Run(Initial(), before);
             DistinctIds(s.sessions) && SetListener(s, ch, DataReceive, false, token, user).1 == OK
    requires forall op | op in after :: !SwitchesOn(op, ch)
    ensures var s := Run(Initial(), before);
            var t := Run(Step(s, OpSetListener(ch, DataReceive, false, token, user)), after);
            && s.delivered <= t.delivered
            && forall k | |s.delivered| <= k < |t.delivered| :: t.delivered[k].channelId != ch
  {
    RunKeeps(Initial(), before, Base("", ""), 0);
    var s := Run(Initial(), before);
    hide Run, Lists;
    var op := OpSetListener(ch, DataReceive, false, token, user);
    var t := Step(s, op);
    StepKeeps(s, op);
    var i := ChannelInfo(s.sessions, ch, INVALID_REQ_ID);
    NamedIsFound(s.sessions, ch, i);
    assert Names(s.sessions, ch, i);
    SetListenerExactly(s, ch, DataReceive, false, token, user, i);
    SwitchOffQuietIff(s, ch, token, user, i);
    assert Quiet(t.sessions, ch) && t.delivered == s.delivered;
    hide SetListener, Step;
    RunDeliversElsewhere(t, after, ch);
  }
}
