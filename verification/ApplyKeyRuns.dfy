/** Whole runs of one device: the four promises of the negotiation that need no assumption about the
    peer, the network or hichain. */
module ApplyKeyRuns {
  import opened ApplyKeyStore
  import opened ApplyKeyNego
  import opened ApplyKeyNegoProps

  lemma StepKeeps(n: Node, i: Input)
    requires Inv(n)
    ensures Inv(Step(n, i))
  {
    hide Inv, GenApplyKey, RecvDeviceId, RecvAuthData, RecvCloseAck, OnGenFailed, SessionKeyReturned, HichainFinished,
      Disconnected, TimerFired, ResultServed, Delete;
    match i
    case DoGen(r, conn, b, peer, onOk, onFail, e) => GenApplyKeyKeeps(n, r, conn, b, peer, onOk, onFail, e);
    case DoDeviceId(r, conn, b, e) => RecvDeviceIdKeeps(n, r, conn, b, e);
    case DoAuthData(r, e) => RecvAuthDataKeeps(n, r, e);
    case DoCloseAck(r, e) => RecvCloseAckKeeps(n, r, e);
    case DoUnknownData(r) => OnGenFailedKeeps(n, r, HandleDataFail);
    case DoSessionKey(r, key) => SessionKeyKeeps(n, r, key);
    case DoFinished(r, acct, e) => HichainFinishedKeeps(n, r, acct, e);
    case DoError(r, code) => OnGenFailedKeeps(n, r, code);
    case DoDisconnect(conn) => DisconnectedKeeps(n, conn);
    case DoTimer(t) => if t < |n.timers| { TimerFiredKeeps(n, t); }
    case DoResult(q, user) => if q < |n.results| { ResultServedKeeps(n, q, user); }
    case DoDeleteKey(b, user) => DeleteKeyKeeps(n, b, user);
    case DoClearKeys => ShrinkStoreKeeps(n, map[]);
  }

  lemma {:induction false} RunKeeps(n: Node, inputs: seq<Input>)
    requires Inv(n)
    ensures Inv(Run(n, inputs))
    decreases |inputs|
  {
    if inputs != [] {
      StepKeeps(n, inputs[0]);
      RunKeeps(Step(n, inputs[0]), inputs[1..]);
    }
  }

  // ---------- what a reader gets from it ----------

  ghost function CallCount(cs: seq<Called>, serial: nat): nat {
    if cs == [] then 0 else (if cs[0].who.serial == serial then 1 else 0) + CallCount(cs[1..], serial)
  }

  lemma {:induction false} DistinctCalls(cs: seq<Called>, serial: nat)
    requires forall i, j | 0 <= i < j < |cs| :: cs[i].who.serial != cs[j].who.serial
    ensures CallCount(cs, serial) <= 1
    ensures CallCount(cs, serial) == 1 <==> exists i :: 0 <= i < |cs| && cs[i].who.serial == serial
  {
    if cs != [] {
      assert forall i | 0 <= i < |cs[1..]| :: cs[1..][i] == cs[i + 1];
      DistinctCalls(cs[1..], serial);
      if cs[0].who.serial == serial {
        assert forall i | 0 <= i < |cs[1..]| :: cs[1..][i].who.serial != serial;
      } else if exists i :: 0 <= i < |cs| && cs[i].who.serial == serial {
        var i :| 0 <= i < |cs| && cs[i].who.serial == serial;
        assert cs[1..][i - 1].who.serial == serial;
      }
    }
  }

  /** An instance that left the list never comes back and is never called back from then on. */
  lemma StepKeepsGone(n: Node, i: Input, serial: nat)
    requires Gone(n, serial)
    ensures Gone(Step(n, i), serial)
    ensures CalledBack(Step(n, i), serial) ==> CalledBack(n, serial)
  {
    hide GenApplyKey, RecvDeviceId, RecvCloseAck, OnGenFailed, PutKey, HichainFinished, Remove, ResultServed, Delete;
    match i
    case DoGen(r, conn, b, peer, onOk, onFail, e) => GenKeepsGone(n, r, conn, b, peer, onOk, onFail, e, serial);
    case DoDeviceId(r, conn, b, e) => DeviceIdKeepsGone(n, r, conn, b, e, serial);
    case DoAuthData(r, e) => ResultsKeepNodes(n, r, e.hichainRet);
    case DoCloseAck(r, e) => CloseAckKeepsNodes(n, r, e);
    case DoUnknownData(r) => ResultsKeepNodes(n, r, HandleDataFail);
    case DoSessionKey(r, key) => PutsKeepNodes(n, r, key, "", 0, 0);
    case DoFinished(r, acct, e) => FinishedKeepsNodes(n, r, acct, e);
    case DoError(r, code) => ResultsKeepNodes(n, r, code);
    case DoDisconnect(conn) =>
      var k := FindConn(n.insts, conn);
      if k < |n.insts| { RemoveKeepsGone(n, n.insts[k].who.requestId, serial); }
    case DoTimer(t) =>
      if t < |n.timers| {
        ResultsKeepNodes(n.(timers := n.timers[..t] + n.timers[t + 1..]), n.timers[t], StartTimeout);
      }
    case DoResult(q, user) => if q < |n.results| { ResultKeepsGone(n, q, user, serial); }
    case DoDeleteKey(b, user) =>
    case DoClearKeys =>
  }

  lemma {:induction false} RunKeepsGone(n: Node, inputs: seq<Input>, serial: nat)
    requires Gone(n, serial)
    ensures Gone(Run(n, inputs), serial)
    ensures CalledBack(Run(n, inputs), serial) ==> CalledBack(n, serial)
    decreases |inputs|
  {
    if inputs != [] {
      StepKeepsGone(n, inputs[0], serial);
      RunKeepsGone(Step(n, inputs[0]), inputs[1..], serial);
    }
  }

  /** Over any run an instance is called back at most once, and an instance that has left the list
      without a callback (a disconnect, or a success whose key is missing) never gets one later. */
  lemma AtMostOneCallback(udid: string, before: seq<Input>, after: seq<Input>, serial: nat)
    ensures var n := Run(Initial(udid), before);
            var n' := Run(n, after);
            && CallCount(n'.callbacks, serial) <= 1
            && (CalledBack(n, serial) ==> Gone(n, serial))
            && (Gone(n, serial) && !CalledBack(n, serial) ==> CallCount(n'.callbacks, serial) == 0)
  {
    var n := Run(Initial(udid), before);
    var n' := Run(n, after);
    RunKeeps(Initial(udid), before);
    RunKeeps(n, after);
    DistinctCalls(n'.callbacks, serial);
    if CalledBack(n, serial) {
      var c :| 0 <= c < |n.callbacks| && n.callbacks[c].who.serial == serial;
      assert n.callbacks[c] in n.callbacks;
    }
    if Gone(n, serial) {
      RunKeepsGone(n, after, serial);
    }
  }

  /** In every run: the request whose instance a disconnect deletes is never called back, whatever follows. */
  lemma DisconnectedIsNeverCalledBack(udid: string, before: seq<Input>, conn: nat, after: seq<Input>)
    requires var n := Run(Initial(udid), before); FindConn(n.insts, conn) < |n.insts|
    ensures var n := Run(Initial(udid), before);
            var j := Find(n.insts, n.insts[FindConn(n.insts, conn)].who.requestId);
            && j < |n.insts|
            && CallCount(Run(Step(n, DoDisconnect(conn)), after).callbacks, n.insts[j].who.serial) == 0
  {
    var n := Run(Initial(udid), before);
    RunKeeps(Initial(udid), before);
    StepKeeps(n, DoDisconnect(conn));
    var j := Find(n.insts, n.insts[FindConn(n.insts, conn)].who.requestId);
    RemovedIsGone(n, j, conn);
    var n1, serial := Step(n, DoDisconnect(conn)), n.insts[j].who.serial;
    hide Run, Step, Inv, FindConn, Find;
    RunKeepsGone(n1, after, serial);
    RunKeeps(n1, after);
    CallsDistinct(Run(n1, after));
    DistinctCalls(Run(n1, after).callbacks, serial);
  }

  lemma RemovedIsGone(n: Node, j: nat, conn: nat)
    requires Inv(n) && FindConn(n.insts, conn) < |n.insts|
    requires j == Find(n.insts, n.insts[FindConn(n.insts, conn)].who.requestId)
    ensures j < |n.insts|
    ensures var n1, serial := Step(n, DoDisconnect(conn)), n.insts[j].who.serial;
            Gone(n1, serial) && !CalledBack(n1, serial)
  {
    hide StoreOk, ResultsOk, AllSentOk, HistoryOk, StartsOk;
  }

  lemma CallsDistinct(n: Node)
    requires Inv(n)
    ensures forall i, j | 0 <= i < j < |n.callbacks| :: n.callbacks[i].who.serial != n.callbacks[j].who.serial
  {
    hide StoreOk, ResultsOk, AllSentOk, HistoryOk, StartsOk;
  }

  /** In every reachable state at most one instance of a business has started hichain. */
  lemma AtMostOneStarted(udid: string, inputs: seq<Input>, b: Biz)
    ensures StartedCount(Run(Initial(udid), inputs).insts, b) <= 1
  {
    var n := Run(Initial(udid), inputs);
    RunKeeps(Initial(udid), inputs);
    OneStarted(n.insts, b);
  }

  lemma {:induction false} OneStarted(insts: seq<Inst>, b: Biz)
    requires forall i, j | 0 <= i < j < |insts| && insts[i].state.Start? && insts[j].state.Start? ::
               insts[i].who.biz != insts[j].who.biz
    ensures StartedCount(insts, b) <= 1
  {
    if insts != [] {
      assert forall i | 0 <= i < |insts[1..]| :: insts[1..][i] == insts[i + 1];
      OneStarted(insts[1..], b);
    }
  }

  /** Where a stored key came from: some instance filed it as the full-length key hichain last returned for it,
      after its account matched, under its own business and the user of the time. */
  ghost predicate Negotiated(h: seq<Event>, slot: string, v: Value) {
    exists k, w: Who ::
      && 0 <= k < |h|
      && h[k] == Stored(w, v.accountHash, v.userId, v.key)
      && slot == MapKey(w.biz, v.userId)
      && |v.key| == D2D_APPLY_KEY_LEN
      && v.key == LastKey(h[..k], w)
      && AccountMatches(w, v.accountHash)
  }

  /** Every key in the store at any time of any run was negotiated. */
  lemma EveryStoredKeyIsNegotiated(udid: string, inputs: seq<Input>, slot: string)
    requires slot in Run(Initial(udid), inputs).store
    ensures var n := Run(Initial(udid), inputs); Negotiated(n.history, slot, n.store[slot])
  {
    RunKeeps(Initial(udid), inputs);
    StoredKeyIsNegotiated(Run(Initial(udid), inputs), slot);
  }

  lemma StoredKeyIsNegotiated(n: Node, slot: string)
    requires Inv(n) && slot in n.store
    ensures Negotiated(n.history, slot, n.store[slot])
  {
    var v := n.store[slot];
    assert FiledAs(n.history, slot, v);
    var w: Who :| Stored(w, v.accountHash, v.userId, v.key) in n.history && slot == MapKey(w.biz, v.userId);
    var k :| 0 <= k < |n.history| && n.history[k] == Stored(w, v.accountHash, v.userId, v.key);
    assert FiledOk(n.history, k);
    hide Inv, MapKey, LastKey;
  }

  /** Exactly what a finish files and sends: the key hichain last returned, if it is full length, the account
      matches and the slot name fits; and the server's close-ack only behind a filed key. In particular a finish
      before any session key stores and sends nothing. */
  lemma FinishFilesIff(n: Node, r: nat, acct: string, e: Env)
    requires Inv(n) && Has(n, r)
    ensures var w := n.insts[Find(n.insts, r)].who;
            var key := LastKey(n.history, w);
            var files := AccountMatches(w, acct) && |key| == D2D_APPLY_KEY_LEN && |MapKey(w.biz, e.user)| < KEY_LEN;
            var n' := HichainFinished(n, r, acct, e);
            && n'.store == (if files then n.store[MapKey(w.biz, e.user) := Value(key, e.user, e.now, acct)]
                            else n.store)
            && n'.sent == (if files && w.isServer && e.sendOk then n.sent + [CloseAck(r)] else n.sent)
            && n'.callbacks == n.callbacks
  {
    var i := n.insts[Find(n.insts, r)];
    assert i.key == LastKey(n.history, i.who) by {
      assert InstOk(n.history, n.nextSerial, i);
    }
    hide Inv, MapKey, LastKey, AccountMatches;
    assert forall m, x :: OnGenSuccess(m, x).store == m.store && OnGenSuccess(m, x).sent == m.sent
                          && OnGenSuccess(m, x).callbacks == m.callbacks;
    assert OnGenFailed(n, r, StrcmpErr) == n.(insts := OnGenFailed(n, r, StrcmpErr).insts,
                                              results := OnGenFailed(n, r, StrcmpErr).results);
    hide OnGenSuccess, OnGenFailed;
  }

  /** A key handed to a success callback is full length and was filed in a slot of the callback's business; for
      hashes without underscores that means for that very business. */
  lemma SuccessDeliversNegotiatedKey(udid: string, inputs: seq<Input>, c: Called)
    requires c in Run(Initial(udid), inputs).callbacks && c.outcome.Success?
    ensures |c.outcome.key| == D2D_APPLY_KEY_LEN
    ensures var h := Run(Initial(udid), inputs).history;
            exists w: Who, a, u, l ::
              && Stored(w, a, u, c.outcome.key) in h && MapKey(w.biz, u) == MapKey(c.who.biz, l)
              && (PlainHashes(w.biz) && PlainHashes(c.who.biz) ==> w.biz == c.who.biz && u == l)
  {
    RunKeeps(Initial(udid), inputs);
    SuccessKeyWasFiled(Run(Initial(udid), inputs), c);
  }

  lemma SuccessKeyWasFiled(n: Node, c: Called)
    requires Inv(n) && c in n.callbacks && c.outcome.Success?
    ensures |c.outcome.key| == D2D_APPLY_KEY_LEN
    ensures exists w: Who, a, u, l ::
              && Stored(w, a, u, c.outcome.key) in n.history && MapKey(w.biz, u) == MapKey(c.who.biz, l)
              && (PlainHashes(w.biz) && PlainHashes(c.who.biz) ==> w.biz == c.who.biz && u == l)
  {
    assert KeyFiledFor(n.history, c.who.biz, c.outcome.key);
    var w: Who, a, u, l :| Stored(w, a, u, c.outcome.key) in n.history && MapKey(w.biz, u) == MapKey(c.who.biz, l);
    var k :| 0 <= k < |n.history| && n.history[k] == Stored(w, a, u, c.outcome.key);
    assert FiledOk(n.history, k);
    hide Inv, MapKey;
    if PlainHashes(w.biz) && PlainHashes(c.who.biz) {
      MapKeyInjective(w.biz, u, c.who.biz, l);
    }
  }

  /** A request that is refused leaves the list as it was, with nothing queued and nobody told; all that can
      stay behind is the message that went out before hichain refused, and the timer. */
  lemma RefusedRequestLeavesNothing(n: Node, r: nat, conn: nat, b: Biz, peer: string, onOk: bool, onFail: bool, e: Env)
    requires !GenApplyKey(n, r, conn, b, peer, onOk, onFail, e).1.Okay?
    ensures var n' := GenApplyKey(n, r, conn, b, peer, onOk, onFail, e).0;
            && n'.insts == n.insts && n'.cnt == n.cnt && n'.store == n.store
            && n'.results == n.results && n'.callbacks == n.callbacks
            && (n'.sent != n.sent ==> e.hashOk && e.sendOk && !e.hichainRet.Okay?
                                      && StartedCount(n.insts, b) == 0 && !Less(n.udid, b.udidHash))
  {
    if n.cnt < MAX_INSTANCE_CNT {
      var n1 := Create(n, r, conn, false, b, peer, onOk, onFail);
      HeadIsFound(n1, r);
      assert StartedCount(n1.insts, b) == StartedCount(n.insts, b) by {
        assert n1.insts[1..] == n.insts;
      }
      var n2 := Post(n1, DeviceId(r, Biz(n.udid, e.accountHash, b.kind)));
      HeadIsFound(n2, r);
      HeadIsFound(PutStart(n2, r), r);
      hide Remove, PutStart, StartedCount, Less;
      assert n1.insts[1..] == n.insts;
      assert n2.insts[0 := n2.insts[0].(state := Start)][1..] == n.insts;
    }
  }

  /** The head of the list is what its own request finds. */
  lemma HeadIsFound(n: Node, r: nat)
    requires n.insts != [] && n.insts[0].who.requestId == r
    ensures Remove(n, r) == n.(insts := n.insts[1..], cnt := n.cnt - 1)
    ensures PutStart(n, r) == n.(insts := n.insts[0 := n.insts[0].(state := Start)])
  {
    assert Find(n.insts, r) == 0;
  }

  /** A result reaches every sibling: each instance of the business, and no other, gets exactly that result. */
  lemma {:induction false} EverySiblingIsTold(insts: seq<Inst>, b: Biz, isSuccess: bool, reason: Result, r: nat)
    ensures Queued(r, isSuccess, reason) in ResultsFor(insts, b, isSuccess, reason) <==>
              exists i :: 0 <= i < |insts| && insts[i].who.biz == b && insts[i].who.requestId == r
  {
    if insts != [] {
      EverySiblingIsTold(insts[1..], b, isSuccess, reason, r);
      if i :| 0 <= i < |insts| && insts[i].who.biz == b && insts[i].who.requestId == r {
        assert i > 0 ==> insts[1..][i - 1] == insts[i];
      }
    }
  }

  /** What the account check accepts: a server, whose business holds the ten-character short hash, an account
      whose hash starts with it; a client exactly the hash it was given. */
  lemma AccountMatchMeans(w: Who, acct: string)
    ensures w.isServer && |w.biz.accountHash| == 10 ==>
              (AccountMatches(w, acct) <==> w.biz.accountHash <= acct)
    ensures !w.isServer && |w.peerAccountHash| <= 64 && |acct| <= 64 ==>
              (AccountMatches(w, acct) <==> w.peerAccountHash == acct)
  {
  }
}
