/** What single handlers of the negotiation do beyond keeping the invariant: who starts, what is refused and why, what
    a message leaves at its instance. */
module ApplyKeyEffects {
  import opened ApplyKeyStore
  import opened ApplyKeyNego
  import opened ApplyKeyNegoProps
  import opened ApplyKeyRuns
  import opened ApplyKeyAnswers
  import opened ApplyKeyProgress

  /** The strings agree up to `k`, where the first one ends or has the smaller character. */
  ghost predicate SmallerAt(a: string, b: string, k: nat) {
    k <= |a| && k < |b| && (forall i | 0 <= i < k :: a[i] == b[i]) && (k == |a| || a[k] < b[k])
  }

  lemma SmallerBehind(a: string, b: string, k: nat)
    requires a != [] && b != [] && a[0] == b[0]
    ensures SmallerAt(a, b, k + 1) <==> SmallerAt(a[1..], b[1..], k)
    ensures !SmallerAt(a, b, 0)
  {
    if SmallerAt(a[1..], b[1..], k) {
      forall i | 0 <= i < k + 1 ensures a[i] == b[i] {
        assert i > 0 ==> a[i] == a[1..][i - 1] && b[i] == b[1..][i - 1];
      }
    }
    if SmallerAt(a, b, k + 1) {
      forall i | 0 <= i < k ensures a[1..][i] == b[1..][i] {
        assert a[1..][i] == a[i + 1] && b[1..][i] == b[i + 1];
      }
    }
  }

  /** The comparison of the tie-break is the lexicographic one: at the first difference the smaller character decides,
      and a proper prefix is smaller. */
  lemma {:induction false} LessIsLexicographic(a: string, b: string)
    ensures Less(a, b) <==> exists k: nat :: SmallerAt(a, b, k)
  {
    if a == [] || b == [] || a[0] != b[0] {
      assert Less(a, b) ==> SmallerAt(a, b, 0);
      assert forall k: nat | SmallerAt(a, b, k) :: k == 0;
    } else {
      LessIsLexicographic(a[1..], b[1..]);
      if Less(a, b) {
        var k: nat :| SmallerAt(a[1..], b[1..], k);
        SmallerBehind(a, b, k);
      }
      if k: nat :| SmallerAt(a, b, k) {
        SmallerBehind(a, b, if k > 0 then k - 1 else 0);
      }
    }
  }

  /** This device starts hichain for a business exactly if no listed instance of it has started and the local udid hash
      is not the smaller one. */
  ghost predicate MayStart(n: Node, b: Biz) {
    && (forall i | 0 <= i < |n.insts| && n.insts[i].who.biz == b :: n.insts[i].state != Start)
    && !Less(n.udid, b.udidHash)
  }

  /** What a request returns, and that an accepted one has started exactly if it may. */
  lemma GenReturns(n: Node, x: Input)
    requires x.DoGen?
    ensures var (n', ret) := GenApplyKey(n, x.r, x.conn, x.b, x.peer, x.onOk, x.onFail, x.e);
            && ret == (if n.cnt >= 0x2000000 then InstanceFull
                       else if !x.e.hashOk then CreateJsonErr
                       else if !x.e.sendOk then SendFail
                       else if MayStart(n, x.b) then x.e.hichainRet
                       else Okay)
            && (ret.Okay? ==> n'.insts != [] && n'.insts[0].state == if MayStart(n, x.b) then Start else Unknow)
  {
    var DoGen(r, conn, b, peer, ok, fail, e) := x;
    var n1 := Create(n, r, conn, false, b, peer, ok, fail);
    assert n1.insts[1..] == n.insts;
    var n2 := Post(n1, DeviceId(r, Biz(n.udid, e.accountHash, b.kind)));
    HeadIsFound(n2, r);
    StartIff(n, n2, b);
    hide StartedCount, Less, PutStart, Remove, MayStart;
  }

  lemma StartIff(n: Node, n': Node, b: Biz)
    requires n'.insts != [] && n'.insts[1..] == n.insts && n'.insts[0].state == Unknow && n'.udid == n.udid
    ensures StartedCount(n'.insts, b) == 0 && !Less(n'.udid, b.udidHash) <==> MayStart(n, b)
  {
    assert StartedCount(n'.insts, b) == StartedCount(n.insts, b);
    hide Less;
  }

  /** The server side of a request: at the limit the request that is listed under that id fails; otherwise a new server
      instance is the head of the list, has started exactly if it may, and what hichain or the hash refuses fails it and
      its siblings. */
  lemma DeviceIdDoes(n: Node, r: nat, conn: nat, b: Biz, e: Env)
    ensures n.cnt >= 0x2000000 ==> Step(n, DoDeviceId(r, conn, b, e)) == Step(n, DoError(r, InstanceFull))
    ensures n.cnt < 0x2000000 ==>
              var n' := Step(n, DoDeviceId(r, conn, b, e));
              && |n'.insts| == |n.insts| + 1
              && IsIt(n'.insts[0], Who(n.nextSerial, r, true, b, ""), false, false)
              && n'.insts[0].connId == conn
              && (n'.insts[0].state == if e.hashOk && MayStart(n, b) then Start else Unknow)
              && n'.timers == n.timers + [r] && n'.sent == n.sent
              && var reason := if !e.hashOk then NodeInfoErr else if MayStart(n, b) then e.hichainRet else Okay;
              && (reason.Okay? ==> n'.results == n.results && n'.insts[1..] == n.insts)
              && (!reason.Okay? ==>
                    n'.results == n.results + [Queued(r, false, reason)] + ResultsFor(n.insts, b, false, reason))
  {
    hide Less;
    if n.cnt < 0x2000000 {
      var n1 := Create(n, r, conn, true, b, "", false, false);
      assert n1.insts[1..] == n.insts;
      HeadIsFound(n1, r);
      StartIff(n, n1, b);
      var (n2, ret) := TryStart(n1, r, b, e.hashOk, e.hichainRet);
      hide StartedCount, MayStart, Create, TryStart, PutStart;
      assert |n2.insts| == |n.insts| + 1 && n2.insts[1..] == n.insts;
      if !ret.Okay? {
        HeadFails(n2, r, ret);
      }
    }
  }

  lemma HeadFails(n: Node, r: nat, reason: Result)
    requires n.insts != [] && n.insts[0].who.requestId == r
    ensures var n', b := OnGenFailed(n, r, reason), n.insts[0].who.biz;
            && n' == n.(insts := n'.insts, results := n'.results)
            && |n'.insts| == |n.insts| && n'.insts[0] == n.insts[0]
            && n'.results == n.results + [Queued(r, false, reason)] + ResultsFor(n.insts[1..], b, false, reason)
  {
    assert Find(n.insts, r) == 0;
    var b := n.insts[0].who.biz;
    assert ResultsFor(n.insts, b, false, reason) ==
           [Queued(r, false, reason)] + ResultsFor(n.insts[1..], b, false, reason);
  }

  /** A session key is taken by the first instance of its request exactly if it is at most 32 bytes long. */
  lemma KeyIsTaken(n: Node, r: nat, key: seq<Byte>)
    ensures var n' := Step(n, DoSessionKey(r, key));
            if |key| <= 32 && Has(n, r) then
              var k := Find(n.insts, r);
              && n'.insts == n.insts[k := n.insts[k].(key := key, isRecvSessionKey := true)]
              && n' == n.(insts := n'.insts, history := n'.history)
            else n' == n
  {
    hide Find;
  }

  /** Data that hichain takes, or for a request that is not listed, changes nothing. */
  lemma AuthDataTaken(n: Node, r: nat, e: Env)
    requires e.hichainRet.Okay? || !Has(n, r)
    ensures Step(n, DoAuthData(r, e)) == n
  {
    hide Find;
  }

  /** Deleting a key and clearing them all: what a lookup finds afterwards; the negotiation itself is not touched. */
  lemma KeysGo(n: Node, b: Biz, user: int, b': Biz, user': int)
    requires PlainHashes(b) && PlainHashes(b')
    ensures var n' := Step(n, DoDeleteKey(b, user));
            && n' == n.(store := n'.store)
            && Get(n'.store, b', user') ==
                 if b == b' && user == user' && Get(n.store, b, user).Found? then Missing(KeyNotFound)
                 else Get(n.store, b', user')
    ensures var n' := Step(n, DoClearKeys); n' == n.(store := n'.store) && !Get(n'.store, b', user').Found?
  {
    OperationsAreSeparate(n.store, b, user, [], 0, "", b', user');
    hide MapKey, Delete;
  }

  /** All siblings of a success count as complete from then on, and everybody is told. */
  lemma SuccessMarksSiblings(n: Node, r: nat)
    requires Has(n, r)
    ensures var i, n' := n.insts[Find(n.insts, r)], OnGenSuccess(n, r);
            if !(i.isRecvSessionKey && i.isRecvFinish && i.isRecvCloseAck) then n' == n
            else
              && n'.results == n.results + ResultsFor(n.insts, i.who.biz, true, Okay) && |n'.insts| == |n.insts|
              && (forall j | 0 <= j < |n.insts| && n.insts[j].who.biz == i.who.biz ::
                    n'.insts[j] == n.insts[j].(isRecvSessionKey := true, isRecvFinish := true, isRecvCloseAck := true))
              && (forall j | 0 <= j < |n.insts| && n.insts[j].who.biz != i.who.biz :: n'.insts[j] == n.insts[j])
              && n' == n.(insts := n'.insts, results := n'.results)
  {
    hide Find, ResultsFor;
  }

  /** A failure marks nobody. */
  lemma FailureMarksNobody(n: Node, r: nat, reason: Result)
    requires Has(n, r)
    ensures OnGenFailed(n, r, reason) ==
              n.(results := n.results + ResultsFor(n.insts, n.insts[Find(n.insts, r)].who.biz, false, reason))
  {
    hide Find, ResultsFor;
    assert OnGenFailed(n, r, reason).insts == n.insts;
  }
}
