/** Two honest devices. The network is what each has ever sent: any message may be delivered at any
    time, any number of times, or never. hichain gives both ends of a request the same key. */
module ApplyKeyAgreement {
  import opened ApplyKeyStore
  import opened ApplyKeyNego
  import opened ApplyKeyNegoProps
  import opened ApplyKeyRuns

  datatype Pair = Pair(a: Node, b: Node)

  /** One device takes one step. */
  datatype Move = Move(onA: bool, input: Input)

  /** What honesty asks of a step at `self`: a new request has a request id no device has used and
      names the peer; a received message was sent by the peer; hichain's key is the agreed one. */
  ghost predicate Honest(self: Node, peer: Node, i: Input, agreed: nat -> seq<Byte>) {
    match i
    case DoGen(r, _, b, _, _, _, _) =>
      && b.udidHash == peer.udid
      && (forall w: Who | Created(w) in self.history || Created(w) in peer.history :: w.requestId != r)
    case DoDeviceId(r, _, b, _) => DeviceId(r, b) in peer.sent
    case DoCloseAck(r, _) => CloseAck(r) in peer.sent
    case DoSessionKey(r, key) => key == agreed(r)
    case _ => true
  }

  ghost predicate Allowed(s: Pair, m: Move, agreed: nat -> seq<Byte>) {
    if m.onA then Honest(s.a, s.b, m.input, agreed) else Honest(s.b, s.a, m.input, agreed)
  }

  function PairStep(s: Pair, m: Move): Pair {
    if m.onA then s.(a := Step(s.a, m.input)) else s.(b := Step(s.b, m.input))
  }

  ghost predicate HonestRun(s: Pair, moves: seq<Move>, agreed: nat -> seq<Byte>)
    decreases |moves|
  {
    moves == [] || (Allowed(s, moves[0], agreed) && HonestRun(PairStep(s, moves[0]), moves[1..], agreed))
  }

  function PairRun(s: Pair, moves: seq<Move>): Pair
    decreases |moves|
  {
    if moves == [] then s else PairRun(PairStep(s, moves[0]), moves[1..])
  }

  // ---------- what one step adds ----------

  /** The history and the sent messages only grow, and only as the input explains. */
  ghost predicate Gains(n: Node, i: Input, n': Node) {
    && n'.udid == n.udid
    && match i
       case DoGen(r, _, b, peer, _, _, e) =>
         && (n'.history == n.history || n'.history == n.history + [Created(Who(n.nextSerial, r, false, b, peer))])
         && (n'.sent == n.sent || n'.sent == n.sent + [DeviceId(r, Biz(n.udid, e.accountHash, b.kind))])
         && (n'.sent != n.sent ==> n'.history != n.history)
       case DoDeviceId(r, _, b, _) =>
         && (n'.history == n.history || n'.history == n.history + [Created(Who(n.nextSerial, r, true, b, ""))])
         && n'.sent == n.sent
       case DoCloseAck(r, _) =>
         && (n'.history == n.history || exists w: Who :: w.requestId == r && n'.history == n.history + [AckSeen(w)])
         && (n'.sent == n.sent || n'.sent == n.sent + [CloseAck(r)])
       case DoSessionKey(r, key) =>
         && (n'.history == n.history
             || exists w: Who :: w.requestId == r && n'.history == n.history + [KeyReturned(w, key)])
         && n'.sent == n.sent
       case DoFinished(r, acct, e) =>
         && (n'.history == n.history
             || (exists w: Who :: n'.history == n.history + [Finished(w, acct, e.user)])
             || (exists w: Who, k :: n'.history == n.history + [Finished(w, acct, e.user), Stored(w, acct, e.user, k)]))
         && (n'.sent == n.sent || n'.sent == n.sent + [CloseAck(r)])
       case _ => n'.history == n.history && n'.sent == n.sent
  }

  lemma CloseAckGains(n: Node, r: nat, e: Env)
    ensures Gains(n, DoCloseAck(r, e), RecvCloseAck(n, r, e))
  {
    if Has(n, r) {
      var w := n.insts[Find(n.insts, r)].who;
      assert w.requestId == r && PutAck(n, r).history == n.history + [AckSeen(w)];
    }
  }

  lemma FinishedGains(n: Node, r: nat, acct: string, e: Env)
    ensures Gains(n, DoFinished(r, acct, e), HichainFinished(n, r, acct, e))
  {
    if Has(n, r) {
      var i := n.insts[Find(n.insts, r)];
      var (n1, filed) := PutFinish(n, r, acct, e.user, e.now);
      assert filed ==> n1.history == n.history + [Finished(i.who, acct, e.user), Stored(i.who, acct, e.user, i.key)];
      assert !filed ==> n1.history == n.history + [Finished(i.who, acct, e.user)];
      assert OnGenSuccess(n1, r).history == n1.history;
    }
  }

  lemma SessionKeyGains(n: Node, r: nat, key: seq<Byte>)
    ensures Gains(n, DoSessionKey(r, key), SessionKeyReturned(n, r, key))
  {
    if Has(n, r) {
      var w := n.insts[Find(n.insts, r)].who;
      assert w.requestId == r && PutKey(n, r, key).history == n.history + [KeyReturned(w, key)];
    }
  }

  lemma GenGains(n: Node, i: Input)
    requires i.DoGen?
    ensures Gains(n, i, GenApplyKey(n, i.r, i.conn, i.b, i.peer, i.onOk, i.onFail, i.e).0)
  {
  }

  lemma DeviceIdGains(n: Node, i: Input)
    requires i.DoDeviceId?
    ensures Gains(n, i, RecvDeviceId(n, i.r, i.conn, i.b, i.e))
  {
  }

  lemma ResultGains(n: Node, q: nat, user: int)
    requires q < |n.results|
    ensures var n' := ResultServed(n, q, user);
            n'.history == n.history && n'.sent == n.sent && n'.udid == n.udid
  {
  }

  lemma FailedGains(n: Node, r: nat, reason: Result)
    ensures var n' := OnGenFailed(n, r, reason);
            n'.history == n.history && n'.sent == n.sent && n'.udid == n.udid
  {
  }

  lemma StepGains(n: Node, i: Input)
    ensures Gains(n, i, Step(n, i))
  {
    match i
    case DoGen(_, _, _, _, _, _, _) => GenGains(n, i);
    case DoDeviceId(_, _, _, _) => DeviceIdGains(n, i);
    case DoAuthData(r, e) => FailedGains(n, r, e.hichainRet);
    case DoCloseAck(r, e) => CloseAckGains(n, r, e);
    case DoUnknownData(r) => FailedGains(n, r, HandleDataFail);
    case DoSessionKey(r, key) => SessionKeyGains(n, r, key);
    case DoFinished(r, acct, e) => FinishedGains(n, r, acct, e);
    case DoError(r, code) => FailedGains(n, r, code);
    case DoDisconnect(conn) =>
    case DoTimer(t) =>
      if t < |n.timers| {
        FailedGains(n.(timers := n.timers[..t] + n.timers[t + 1..]), n.timers[t], StartTimeout);
      }
    case DoResult(q, user) => if q < |n.results| { ResultGains(n, q, user); }
    case DoDeleteKey(b, user) =>
    case DoClearKeys =>
    hide GenApplyKey, RecvDeviceId, RecvCloseAck, OnGenFailed, SessionKeyReturned, HichainFinished, ResultServed,
      Delete;
  }

  // ---------- the two-device invariant ----------

  /** What `n` knows about itself and its peer `p`. */
  ghost predicate Half(n: Node, p: Node, agreed: nat -> seq<Byte>) {
    // a server instance answers a request the peer made
    && (forall w: Who | Created(w) in n.history && w.isServer :: DeviceId(w.requestId, w.biz) in p.sent)
    // a request has one client device and one server device
    && (forall w: Who, v: Who | Created(w) in n.history && Created(v) in p.history && w.requestId == v.requestId ::
          w.isServer != v.isServer)
    && (forall w: Who, v: Who | Created(w) in n.history && Created(v) in n.history && w.requestId == v.requestId ::
          w.isServer == v.isServer && w.biz == v.biz)
    && (forall r, b: Biz, c: Biz | DeviceId(r, b) in n.sent && DeviceId(r, c) in n.sent :: b == c)
    // acks come from the peer, keys from hichain
    && (forall w: Who | AckSeen(w) in n.history :: CloseAck(w.requestId) in p.sent)
    && (forall w: Who, k | KeyReturned(w, k) in n.history :: k == agreed(w.requestId))
    // every instance is about the peer
    && (forall w: Who | Created(w) in n.history :: w.biz.udidHash == p.udid)
  }

  ghost predicate PairInv(s: Pair, agreed: nat -> seq<Byte>) {
    Inv(s.a) && Inv(s.b) && Half(s.a, s.b, agreed) && Half(s.b, s.a, agreed)
  }

  /** A server can only be created for a request of the peer, so its role and business are forced. */
  lemma ServerIsForced(n: Node, p: Node, agreed: nat -> seq<Byte>, r: nat, b: Biz)
    requires Inv(p) && Half(n, p, agreed) && Half(p, n, agreed)
    requires DeviceId(r, b) in p.sent
    ensures b.udidHash == p.udid
    ensures forall v: Who | Created(v) in p.history && v.requestId == r :: !v.isServer
    ensures forall w: Who | Created(w) in n.history && w.requestId == r :: w.isServer && w.biz == b
  {
    assert SentOk(p.udid, p.history, DeviceId(r, b));
    var c: Who :| Created(c) in p.history && c.requestId == r && !c.isServer;
    forall w: Who | Created(w) in n.history && w.requestId == r
      ensures w.isServer && w.biz == b
    {
      assert w.isServer != c.isServer;
    }
  }

  lemma HalfAfterGen(n: Node, p: Node, i: Input, n': Node, agreed: nat -> seq<Byte>)
    requires i.DoGen? && Inv(n) && Inv(p) && Half(n, p, agreed) && Half(p, n, agreed)
    requires Honest(n, p, i, agreed) && Gains(n, i, n')
    ensures Half(n', p, agreed) && Half(p, n', agreed)
  {
    forall m | m in n.sent && m.DeviceId?
      ensures m.requestId != i.r
    {
      assert SentOk(n.udid, n.history, m);
    }
    GenAdds(n, i, n');
    hide Inv, Gains;
    OwnHalfAfterGen(n, p, i, n', agreed);
    assert Half(p, n', agreed);
    hide Half;
  }

  lemma OwnHalfAfterGen(n: Node, p: Node, i: Input, n': Node, agreed: nat -> seq<Byte>)
    requires i.DoGen? && Half(n, p, agreed) && Honest(n, p, i, agreed) && Gains(n, i, n')
    requires forall m | m in n.sent && m.DeviceId? :: m.requestId != i.r
    ensures Half(n', p, agreed)
  {
    GenAdds(n, i, n');
    hide Gains;
  }

  lemma GenAdds(n: Node, i: Input, n': Node)
    requires i.DoGen? && Gains(n, i, n')
    ensures n'.udid == n.udid
    ensures forall e | e in n'.history :: e in n.history || e == Created(Who(n.nextSerial, i.r, false, i.b, i.peer))
    ensures forall m | m in n'.sent :: m in n.sent || m == DeviceId(i.r, Biz(n.udid, i.e.accountHash, i.b.kind))
    ensures forall e | e in n.history :: e in n'.history
    ensures forall m | m in n.sent :: m in n'.sent
  {
  }

  lemma DeviceIdAdds(n: Node, i: Input, n': Node)
    requires i.DoDeviceId? && Gains(n, i, n')
    ensures n'.udid == n.udid && n'.sent == n.sent
    ensures forall e | e in n'.history :: e in n.history || e == Created(Who(n.nextSerial, i.r, true, i.b, ""))
    ensures forall e | e in n.history :: e in n'.history
  {
  }

  lemma HalfAfterDeviceId(n: Node, p: Node, i: Input, n': Node, agreed: nat -> seq<Byte>)
    requires i.DoDeviceId? && Inv(p) && Half(n, p, agreed) && Half(p, n, agreed)
    requires Honest(n, p, i, agreed) && Gains(n, i, n')
    ensures Half(n', p, agreed) && Half(p, n', agreed)
  {
    ServerIsForced(n, p, agreed, i.r, i.b);
    DeviceIdAdds(n, i, n');
    hide Inv, Gains;
  }

  lemma HalfAfterOther(n: Node, p: Node, i: Input, n': Node, agreed: nat -> seq<Byte>)
    requires !i.DoGen? && !i.DoDeviceId? && Half(n, p, agreed) && Half(p, n, agreed)
    requires Honest(n, p, i, agreed) && Gains(n, i, n')
    ensures Half(n', p, agreed) && Half(p, n', agreed)
  {
    OtherGains(n, i, n');
    hide Gains;
  }

  /** What the other steps can add: a close-ack that came in, a key that was returned, messages sent. */
  lemma OtherGains(n: Node, i: Input, n': Node)
    requires !i.DoGen? && !i.DoDeviceId? && Gains(n, i, n')
    ensures n'.udid == n.udid
    ensures forall w: Who :: Created(w) in n'.history <==> Created(w) in n.history
    ensures forall w: Who | AckSeen(w) in n'.history :: AckSeen(w) in n.history || (i.DoCloseAck? && w.requestId == i.r)
    ensures forall w: Who, k | KeyReturned(w, k) in n'.history ::
              KeyReturned(w, k) in n.history || (i.DoSessionKey? && w.requestId == i.r && k == i.key)
    ensures forall m | m in n.sent :: m in n'.sent
    ensures forall m | m in n'.sent && m.DeviceId? :: m in n.sent
  {
  }

  lemma PairStepKeeps(s: Pair, m: Move, agreed: nat -> seq<Byte>)
    requires PairInv(s, agreed) && Allowed(s, m, agreed)
    ensures PairInv(PairStep(s, m), agreed)
  {
    var (n, p) := if m.onA then (s.a, s.b) else (s.b, s.a);
    var i := m.input;
    StepKeeps(n, i);
    StepGains(n, i);
    hide Inv, Half, Gains, Step, Honest;
    if i.DoGen? {
      HalfAfterGen(n, p, i, Step(n, i), agreed);
    } else if i.DoDeviceId? {
      HalfAfterDeviceId(n, p, i, Step(n, i), agreed);
    } else {
      HalfAfterOther(n, p, i, Step(n, i), agreed);
    }
  }

  lemma {:induction false} PairRunKeeps(s: Pair, moves: seq<Move>, agreed: nat -> seq<Byte>)
    requires PairInv(s, agreed) && HonestRun(s, moves, agreed)
    ensures PairInv(PairRun(s, moves), agreed)
    decreases |moves|
  {
    if moves != [] {
      PairStepKeeps(s, moves[0], agreed);
      PairRunKeeps(PairStep(s, moves[0]), moves[1..], agreed);
    }
  }

  // ---------- agreement ----------

  lemma {:induction false} LastKeyWasReturned(h: seq<Event>, w: Who)
    ensures LastKey(h, w) != [] ==> KeyReturned(w, LastKey(h, w)) in h
  {
    if h != [] {
      var e := h[|h| - 1];
      if !(e.KeyReturned? && e.who == w) {
        LastKeyWasReturned(h[..|h| - 1], w);
        assert forall x | x in h[..|h| - 1] :: x in h;
      }
    }
  }

  /** The server side of request `r` filed `key`. */
  ghost predicate ServerFiledKey(h: seq<Event>, r: nat, key: seq<Byte>) {
    exists v: Who, a, u :: Stored(v, a, u, key) in h && v.isServer && v.requestId == r
  }

  /** What an instance that completed by its own events tells about the other device. */
  ghost predicate Agreed(n: Node, p: Node, w: Who, agreed: nat -> seq<Byte>) {
    && KeyReturned(w, agreed(w.requestId)) in n.history
    && (if w.isServer then ClientAcked(p.history, w.requestId)
        else ServerFiledKey(p.history, w.requestId, agreed(w.requestId)))
  }

  lemma StoredWasReturned(p: Node, v: Who, a: string, u: int, k: seq<Byte>)
    requires Inv(p) && Stored(v, a, u, k) in p.history
    ensures KeyReturned(v, k) in p.history
  {
    var j :| 0 <= j < |p.history| && p.history[j] == Stored(v, a, u, k);
    assert FiledOk(p.history, j);
    hide Inv;
    LastKeyWasReturned(p.history[..j], v);
  }

  lemma OwnCompletionAgrees(n: Node, p: Node, w: Who, agreed: nat -> seq<Byte>)
    requires Inv(n) && Inv(p) && Half(n, p, agreed) && Half(p, n, agreed)
    requires OwnComplete(n.history, w)
    ensures Agreed(n, p, w, agreed)
  {
    var r := w.requestId;
    assert Created(w) in n.history;
    assert CloseAck(r) in p.sent;
    assert SentOk(p.udid, p.history, CloseAck(r));
    if ServerFiled(p.history, r) {
      var v: Who, a, u, k :| Stored(v, a, u, k) in p.history && v.requestId == r && v.isServer;
      assert Created(v) in p.history;
      StoredWasReturned(p, v, a, u, k);
    } else {
      var v: Who :| AckSeen(v) in p.history && v.requestId == r && !v.isServer;
      assert Created(v) in p.history;
    }
  }

  ghost function Start(ua: string, ub: string): Pair {
    Pair(Initial(ua), Initial(ub))
  }

  lemma StartHolds(ua: string, ub: string, agreed: nat -> seq<Byte>)
    ensures PairInv(Start(ua, ub), agreed)
  {
  }

  /** A success for a business: some instance of that business completed by its own events, and what
      that says about the peer holds. */
  ghost predicate Justified(n: Node, p: Node, b: Biz, agreed: nat -> seq<Byte>) {
    exists w: Who :: w.biz == b && OwnComplete(n.history, w) && Agreed(n, p, w, agreed)
  }

  lemma RootedIsJustified(n: Node, p: Node, b: Biz, agreed: nat -> seq<Byte>)
    requires Inv(n) && Inv(p) && Half(n, p, agreed) && Half(p, n, agreed)
    requires Rooted(n.history, b)
    ensures Justified(n, p, b, agreed)
  {
    var w: Who :| w.biz == b && OwnComplete(n.history, w);
    OwnCompletionAgrees(n, p, w, agreed);
  }

  /** Close-ack agreement, at every point of every honest run: an instance complete by its own events
      agrees with the peer, and every queued success and every success callback is justified by one. */
  lemma CloseAckAgreement(ua: string, ub: string, moves: seq<Move>, agreed: nat -> seq<Byte>, onA: bool)
    requires HonestRun(Start(ua, ub), moves, agreed)
    ensures var s := PairRun(Start(ua, ub), moves);
            var (n, p) := if onA then (s.a, s.b) else (s.b, s.a);
            && (forall w: Who | OwnComplete(n.history, w) :: Agreed(n, p, w, agreed))
            && (forall i | 0 <= i < |n.insts| && Complete(n.insts[i]) :: Justified(n, p, n.insts[i].who.biz, agreed))
            && (forall q | q in n.results && q.isSuccess ::
                  exists w: Who ::
                    Created(w) in n.history && w.requestId == q.requestId && Justified(n, p, w.biz, agreed))
            && (forall c | c in n.callbacks && c.outcome.Success? :: Justified(n, p, c.who.biz, agreed))
  {
    StartHolds(ua, ub, agreed);
    PairRunKeeps(Start(ua, ub), moves, agreed);
    var s := PairRun(Start(ua, ub), moves);
    var (n, p) := if onA then (s.a, s.b) else (s.b, s.a);
    AgreementHolds(n, p, agreed);
  }

  lemma AgreementHolds(n: Node, p: Node, agreed: nat -> seq<Byte>)
    requires Inv(n) && Inv(p) && Half(n, p, agreed) && Half(p, n, agreed)
    ensures forall w: Who | OwnComplete(n.history, w) :: Agreed(n, p, w, agreed)
    ensures forall i | 0 <= i < |n.insts| && Complete(n.insts[i]) :: Justified(n, p, n.insts[i].who.biz, agreed)
    ensures forall q | q in n.results && q.isSuccess ::
              exists w: Who :: Created(w) in n.history && w.requestId == q.requestId && Justified(n, p, w.biz, agreed)
    ensures forall c | c in n.callbacks && c.outcome.Success? :: Justified(n, p, c.who.biz, agreed)
  {
    assert IdsConsistent(n.history);
    forall w: Who | OwnComplete(n.history, w)
      ensures Agreed(n, p, w, agreed)
    {
      OwnCompletionAgrees(n, p, w, agreed);
    }
    forall i | 0 <= i < |n.insts| && Complete(n.insts[i])
      ensures Justified(n, p, n.insts[i].who.biz, agreed)
    {
      CompleteIsRooted(n, i);
      RootedIsJustified(n, p, n.insts[i].who.biz, agreed);
    }
    forall q | q in n.results && q.isSuccess
      ensures exists w: Who ::
                Created(w) in n.history && w.requestId == q.requestId && Justified(n, p, w.biz, agreed)
    {
      assert ResultOk(n.history, q.requestId);
      var w: Who :| Created(w) in n.history && w.requestId == q.requestId && Rooted(n.history, w.biz);
      RootedIsJustified(n, p, w.biz, agreed);
    }
    forall c | c in n.callbacks && c.outcome.Success?
      ensures Justified(n, p, c.who.biz, agreed)
    {
      RootedIsJustified(n, p, c.who.biz, agreed);
    }
  }

  lemma CompleteIsRooted(n: Node, i: nat)
    requires Inv(n) && i < |n.insts| && Complete(n.insts[i])
    ensures Rooted(n.history, n.insts[i].who.biz)
  {
    assert InstOk(n.history, n.nextSerial, n.insts[i]);
    if !Rooted(n.history, n.insts[i].who.biz) {
      assert OwnComplete(n.history, n.insts[i].who);
    }
  }

  // ---------- the tie-break ----------

  /** strcmp is a strict total order: of two different hashes exactly one device passes the test. */
  lemma {:induction false} TieBreakIsExclusive(a: string, b: string)
    requires a != b
    ensures Less(a, b) <==> !Less(b, a)
  {
    if a != [] && b != [] && a[0] == b[0] {
      assert a == [a[0]] + a[1..] && b == [b[0]] + b[1..];
      TieBreakIsExclusive(a[1..], b[1..]);
    }
  }

  /** Whatever requests cross, only the device with the greater udid hash ever starts hichain. */
  lemma OnlyOneDeviceStarts(ua: string, ub: string, moves: seq<Move>, agreed: nat -> seq<Byte>, i: nat)
    requires ua != ub && HonestRun(Start(ua, ub), moves, agreed)
    ensures var s := PairRun(Start(ua, ub), moves);
            if Less(ua, ub) then i < |s.a.insts| ==> !s.a.insts[i].state.Start?
            else i < |s.b.insts| ==> !s.b.insts[i].state.Start?
  {
    StartHolds(ua, ub, agreed);
    PairRunKeeps(Start(ua, ub), moves, agreed);
    UdidsStay(Start(ua, ub), moves);
    TieBreakIsExclusive(ua, ub);
    var s := PairRun(Start(ua, ub), moves);
    if i < |s.a.insts| {
      assert InstOk(s.a.history, s.a.nextSerial, s.a.insts[i]);
    }
    if i < |s.b.insts| {
      assert InstOk(s.b.history, s.b.nextSerial, s.b.insts[i]);
    }
  }

  lemma {:induction false} UdidsStay(s: Pair, moves: seq<Move>)
    ensures PairRun(s, moves).a.udid == s.a.udid && PairRun(s, moves).b.udid == s.b.udid
    decreases |moves|
  {
    if moves != [] {
      var m := moves[0];
      StepGains(if m.onA then s.a else s.b, m.input);
      hide Step;
      UdidsStay(PairStep(s, m), moves[1..]);
    }
  }
}
