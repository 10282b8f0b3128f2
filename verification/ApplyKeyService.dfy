/** The negotiation as auth_apply_key_process.c runs it: module state updated in place by list walks.
    Every method is proved equal to its step function on the abstract node. */
module ApplyKeyService {
  import opened ApplyKeyStore
  import opened ApplyKeyNego

  class NegoService {
    const udid: string
    var insts: seq<Inst>
    var cnt: int
    var nextSerial: nat
    var results: seq<Queued>
    var timers: seq<nat>
    var store: Store
    var callbacks: seq<Called>
    var sent: seq<Wire>
    ghost var history: seq<Event>

    ghost function View(): Node
      reads this
    {
      Node(udid, insts, cnt, nextSerial, results, timers, store, callbacks, sent, history)
    }

    constructor (udid: string)
      ensures View() == Initial(udid)
    {
      this.udid := udid;
      insts, cnt, nextSerial, results, timers := [], 0, 0, [], [];
      store, callbacks, sent, history := map[], [], [], [];
    }

    // ---------- list walks ----------

    method CountStarted(b: Biz) returns (num: nat)
      ensures num == StartedCount(insts, b)
    {
      num := 0;
      var i := 0;
      while i < |insts|
        invariant 0 <= i <= |insts|
        invariant num + StartedCount(insts[i..], b) == StartedCount(insts, b)
      {
        assert insts[i..][1..] == insts[i + 1..];
        if insts[i].who.biz == b && insts[i].state.Start? {
          num := num + 1;
        }
        i := i + 1;
      }
    }

    method FindByRequest(r: nat) returns (k: nat)
      ensures k == Find(insts, r)
    {
      k := 0;
      while k < |insts|
        invariant 0 <= k <= |insts|
        invariant k + Find(insts[k..], r) == Find(insts, r)
      {
        if insts[k].who.requestId == r {
          return;
        }
        assert insts[k..][1..] == insts[k + 1..];
        k := k + 1;
      }
    }

    method FindByConnection(conn: nat) returns (k: nat)
      ensures k == FindConn(insts, conn)
    {
      k := 0;
      while k < |insts|
        invariant 0 <= k <= |insts|
        invariant k + FindConn(insts[k..], conn) == FindConn(insts, conn)
      {
        if insts[k].connId == conn {
          return;
        }
        assert insts[k..][1..] == insts[k + 1..];
        k := k + 1;
      }
    }

    method CreateInstance(r: nat, conn: nat, isServer: bool, b: Biz, peer: string, onOk: bool, onFail: bool)
      returns (ret: Result)
      modifies this
      ensures ret == if old(cnt) >= MAX_INSTANCE_CNT then InstanceFull else Okay
      ensures View() == if ret.Okay? then Create(old(View()), r, conn, isServer, b, peer, onOk, onFail)
                        else old(View())
    {
      if cnt >= MAX_INSTANCE_CNT {
        return InstanceFull;
      }
      var who := Who(nextSerial, r, isServer, b, peer);
      insts := [Inst(who, conn, Unknow, [], false, false, false, onOk, onFail)] + insts;
      cnt := cnt + 1;
      nextSerial := nextSerial + 1;
      timers := timers + [r];
      history := history + [Created(who)];
      ret := Okay;
    }

    method DeleteInstance(r: nat)
      modifies this
      ensures View() == Remove(old(View()), r)
    {
      var k := FindByRequest(r);
      if k < |insts| {
        insts := insts[..k] + insts[k + 1..];
        cnt := cnt - 1;
      }
    }

    method UpdateAllResults(b: Biz, isSuccess: bool, reason: Result)
      modifies this
      ensures View() == Broadcast(old(View()), b, isSuccess, reason)
    {
      ghost var was := insts;
      ghost var queued := results;
      var i := 0;
      while i < |insts|
        invariant 0 <= i <= |insts| == |was|
        invariant insts[i..] == was[i..]
        invariant forall j | 0 <= j < i :: insts[j] == Mark(was[j], b, isSuccess)
        invariant results + ResultsFor(was[i..], b, isSuccess, reason)
                  == queued + ResultsFor(was, b, isSuccess, reason)
        invariant View() == old(View()).(insts := insts, results := results)
      {
        var item := insts[i];
        assert item == insts[i..][0] == was[i];
        assert was[i..][1..] == was[i + 1..];
        if item.who.biz == b {
          if isSuccess {
            insts := insts[i := item.(isRecvSessionKey := true, isRecvFinish := true, isRecvCloseAck := true)];
          }
          results := results + [Queued(item.who.requestId, isSuccess, reason)];
        }
        i := i + 1;
      }
      assert insts == MarkAll(was, b, isSuccess);
    }

    // ---------- results ----------

    method GenSucceeded(r: nat)
      modifies this
      ensures View() == OnGenSuccess(old(View()), r)
    {
      var k := FindByRequest(r);
      if k < |insts| && Complete(insts[k]) {
        UpdateAllResults(insts[k].who.biz, true, Okay);
      }
    }

    method GenFailed(r: nat, reason: Result)
      modifies this
      ensures View() == OnGenFailed(old(View()), r, reason)
    {
      var k := FindByRequest(r);
      if k < |insts| {
        UpdateAllResults(insts[k].who.biz, false, reason);
      }
    }

    method ServeTimer(t: nat)
      requires t < |timers|
      modifies this
      ensures View() == TimerFired(old(View()), t)
    {
      var r := timers[t];
      timers := timers[..t] + timers[t + 1..];
      GenFailed(r, StartTimeout);
    }

    method ServeResult(q: nat, user: int)
      requires q < |results|
      modifies this
      ensures View() == ResultServed(old(View()), q, user)
    {
      var res := results[q];
      results := results[..q] + results[q + 1..];
      var k := FindByRequest(res.requestId);
      if k == |insts| {
        return;
      }
      var i := insts[k];
      if res.isSuccess {
        if i.hasOnSuccess {
          match Get(store, i.who.biz, user)
          case Missing(_) =>
            DeleteInstance(i.who.requestId);
          case Found(v) =>
            callbacks := callbacks + [Called(i.who, Success(v.key))];
        }
      } else if i.hasOnFailed {
        callbacks := callbacks + [Called(i.who, Failed(res.reason))];
      }
      DeleteInstance(i.who.requestId);
    }

    // ---------- requests and messages ----------

    method StartHichain(r: nat, b: Biz, e: Env) returns (ret: Result)
      modifies this
      ensures (View(), ret) == TryStart(old(View()), r, b, e.hashOk, e.hichainRet)
    {
      if !e.hashOk {
        return NodeInfoErr;
      }
      var num := CountStarted(b);
      if num > 0 || Less(udid, b.udidHash) {
        return Okay;
      }
      var k := FindByRequest(r);
      if k < |insts| {
        insts := insts[k := insts[k].(state := Start)];
      }
      ret := e.hichainRet;
    }

    method GenerateKey(r: nat, conn: nat, b: Biz, peer: string, onOk: bool, onFail: bool, e: Env)
      returns (ret: Result)
      modifies this
      ensures (View(), ret) == GenApplyKey(old(View()), r, conn, b, peer, onOk, onFail, e)
    {
      ret := CreateInstance(r, conn, false, b, peer, onOk, onFail);
      if ret != Okay {
        return;
      }
      if !e.hashOk || !e.sendOk {
        DeleteInstance(r);
        return if !e.hashOk then CreateJsonErr else SendFail;
      }
      sent := sent + [DeviceId(r, Biz(udid, e.accountHash, b.kind))];
      ret := StartHichain(r, b, e);
      if ret != Okay {
        DeleteInstance(r);
      }
    }

    method DeviceIdReceived(r: nat, conn: nat, b: Biz, e: Env)
      modifies this
      ensures View() == RecvDeviceId(old(View()), r, conn, b, e)
    {
      var ret := CreateInstance(r, conn, true, b, "", false, false);
      if ret == Okay {
        ret := StartHichain(r, b, e);
      }
      if ret != Okay {
        GenFailed(r, ret);
      }
    }

    method CloseAckReceived(r: nat, e: Env)
      modifies this
      ensures View() == RecvCloseAck(old(View()), r, e)
    {
      var k := FindByRequest(r);
      if k == |insts| {
        return;
      }
      var who := insts[k].who;
      insts := insts[k := insts[k].(isRecvCloseAck := true)];
      history := history + [AckSeen(who)];
      if !who.isServer {
        if !e.sendOk {
          GenFailed(r, SendFail);
          return;
        }
        sent := sent + [CloseAck(r)];
      }
      GenSucceeded(r);
    }

    method AuthDataReceived(r: nat, e: Env)
      modifies this
      ensures View() == RecvAuthData(old(View()), r, e)
    {
      var k := FindByRequest(r);
      if k < |insts| && e.hichainRet != Okay {
        GenFailed(r, e.hichainRet);
      }
    }

    // ---------- hichain ----------

    method KeyReturnedByHichain(r: nat, key: seq<Byte>)
      modifies this
      ensures View() == SessionKeyReturned(old(View()), r, key)
    {
      if |key| > D2D_APPLY_KEY_LEN {
        return;
      }
      var k := FindByRequest(r);
      if k < |insts| {
        history := history + [KeyReturned(insts[k].who, key)];
        insts := insts[k := insts[k].(key := key, isRecvSessionKey := true)];
      }
    }

    method FinishedByHichain(r: nat, acct: string, e: Env)
      modifies this
      ensures View() == HichainFinished(old(View()), r, acct, e)
    {
      var k := FindByRequest(r);
      if k == |insts| {
        return;
      }
      var i := insts[k];
      if !AccountMatches(i.who, acct) {
        GenFailed(r, StrcmpErr);
        return;
      }
      insts := insts[k := i.(isRecvFinish := true)];
      history := history + [Finished(i.who, acct, e.user)];
      var (store', code) := Insert(store, i.who.biz, e.user, i.key, e.now, acct);
      if code != Ok {
        return;
      }
      store := store';
      history := history + [Stored(i.who, acct, e.user, i.key)];
      if i.who.isServer {
        if !e.sendOk {
          return;
        }
        sent := sent + [CloseAck(r)];
      }
      GenSucceeded(r);
    }

    method ConnectionLost(conn: nat)
      modifies this
      ensures View() == Disconnected(old(View()), conn)
    {
      var k := FindByConnection(conn);
      if k < |insts| {
        DeleteInstance(insts[k].who.requestId);
      }
    }
  }
}
