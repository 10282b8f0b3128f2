/** What every run of one device keeps, whatever the network, hichain, the clock and the callers do. */
module ApplyKeyNegoProps {
  import opened ApplyKeyStore
  import opened ApplyKeyNego

  // ---------- reading the history ----------

  /** The key hichain returned last for an instance; empty if it returned none. */
  ghost function LastKey(h: seq<Event>, w: Who): seq<Byte> {
    if h == [] then []
    else
      var e := h[|h| - 1];
      if e.KeyReturned? && e.who == w then e.key else LastKey(h[..|h| - 1], w)
  }

  ghost predicate KeySeen(h: seq<Event>, w: Who) {
    exists k :: KeyReturned(w, k) in h
  }

  ghost predicate FinishSeen(h: seq<Event>, w: Who) {
    exists a, u :: Finished(w, a, u) in h
  }

  /** The instance saw its session key, its finish and its close-ack itself. */
  ghost predicate OwnComplete(h: seq<Event>, w: Who) {
    KeySeen(h, w) && FinishSeen(h, w) && AckSeen(w) in h
  }

  /** Some instance of the business completed by its own events. */
  ghost predicate Rooted(h: seq<Event>, b: Biz) {
    exists w: Who :: w.biz == b && OwnComplete(h, w)
  }

  /** Instances that share a request id belong to one business. */
  ghost predicate IdsConsistent(h: seq<Event>) {
    forall v: Who, w: Who | Created(v) in h && Created(w) in h && v.requestId == w.requestId :: v.biz == w.biz
  }

  // ---------- the invariant ----------

  ghost predicate InstOk(h: seq<Event>, next: nat, i: Inst) {
    && Created(i.who) in h
    && i.who.serial < next
    && i.key == LastKey(h, i.who)
    && (i.isRecvSessionKey ==> KeySeen(h, i.who) || Rooted(h, i.who.biz))
    && (i.isRecvFinish ==> FinishSeen(h, i.who) || Rooted(h, i.who.biz))
    && (i.isRecvCloseAck ==> AckSeen(i.who) in h || Rooted(h, i.who.biz))
  }

  ghost predicate ListOk(n: Node) {
    && n.cnt == |n.insts|
    && (forall i | 0 <= i < |n.insts| :: InstOk(n.history, n.nextSerial, n.insts[i]))
    && (forall i, j | 0 <= i < j < |n.insts| :: n.insts[i].who.serial != n.insts[j].who.serial)
  }

  /** At most one instance of a business has started hichain, and only where the tie-break allows it. */
  ghost predicate StartsOk(n: Node) {
    && (forall i, j | 0 <= i < j < |n.insts| && n.insts[i].state.Start? && n.insts[j].state.Start? ::
          n.insts[i].who.biz != n.insts[j].who.biz)
    && (forall i | 0 <= i < |n.insts| && n.insts[i].state.Start? :: !Less(n.udid, n.insts[i].who.biz.udidHash))
  }

  /** A key that was filed was the last full-length key returned, for a matching account. */
  ghost predicate FiledOk(h: seq<Event>, k: nat)
    requires k < |h|
  {
    h[k].Stored? ==>
      && |h[k].key| == D2D_APPLY_KEY_LEN
      && h[k].key == LastKey(h[..k], h[k].who)
      && AccountMatches(h[k].who, h[k].accountHash)
      && k > 0 && h[k - 1] == Finished(h[k].who, h[k].accountHash, h[k].user)
      && |MapKey(h[k].who.biz, h[k].user)| < KEY_LEN
  }

  ghost predicate HistoryOk(h: seq<Event>, next: nat) {
    && (forall e | e in h :: e.who.serial < next && Created(e.who) in h)
    && (forall k | 0 <= k < |h| :: FiledOk(h, k))
  }

  ghost predicate FiledAs(h: seq<Event>, slot: string, v: Value) {
    exists w: Who :: Stored(w, v.accountHash, v.userId, v.key) in h && slot == MapKey(w.biz, v.userId)
  }

  ghost predicate StoreOk(n: Node) {
    forall s | s in n.store :: FiledAs(n.history, s, n.store[s])
  }

  ghost predicate ResultOk(h: seq<Event>, r: nat) {
    exists w: Who :: Created(w) in h && w.requestId == r && Rooted(h, w.biz)
  }

  ghost predicate ResultsOk(n: Node) {
    forall q | q in n.results && q.isSuccess :: ResultOk(n.history, q.requestId)
  }

  ghost predicate KeyFiledFor(h: seq<Event>, b: Biz, key: seq<Byte>) {
    exists w: Who, a: string, u: int, lookup: int ::
      Stored(w, a, u, key) in h && MapKey(w.biz, u) == MapKey(b, lookup)
  }

  ghost predicate CallbacksOk(n: Node) {
    && (forall i, j | 0 <= i < j < |n.callbacks| :: n.callbacks[i].who.serial != n.callbacks[j].who.serial)
    && (forall c | c in n.callbacks :: c.who.serial < n.nextSerial)
    && (forall c, i | c in n.callbacks && 0 <= i < |n.insts| :: n.insts[i].who.serial != c.who.serial)
    && (forall c | c in n.callbacks && c.outcome.Success? ::
          && KeyFiledFor(n.history, c.who.biz, c.outcome.key)
          && (IdsConsistent(n.history) ==> Rooted(n.history, c.who.biz)))
  }

  /** Why a message was sent: a request names this device; a server acks after filing the key, a
      client after being acked. */
  ghost predicate SentOk(udid: string, h: seq<Event>, m: Wire) {
    match m
    case DeviceId(r, b) => b.udidHash == udid && exists w: Who :: Created(w) in h && w.requestId == r && !w.isServer
    case CloseAck(r) => ServerFiled(h, r) || ClientAcked(h, r)
  }

  ghost predicate ServerFiled(h: seq<Event>, r: nat) {
    exists w: Who, a: string, u: int, k: seq<Byte> :: Stored(w, a, u, k) in h && w.requestId == r && w.isServer
  }

  ghost predicate ClientAcked(h: seq<Event>, r: nat) {
    exists w: Who :: AckSeen(w) in h && w.requestId == r && !w.isServer
  }

  ghost predicate AllSentOk(n: Node) {
    forall m | m in n.sent :: SentOk(n.udid, n.history, m)
  }

  ghost predicate Inv(n: Node) {
    && ListOk(n)
    && StartsOk(n)
    && HistoryOk(n.history, n.nextSerial)
    && StoreOk(n)
    && ResultsOk(n)
    && CallbacksOk(n)
    && AllSentOk(n)
  }

  // ---------- a longer history keeps every fact ----------

  lemma LastKeyAppend(h: seq<Event>, e: Event, w: Who)
    ensures LastKey(h + [e], w) == if e.KeyReturned? && e.who == w then e.key else LastKey(h, w)
  {
    assert (h + [e])[..|h|] == h;
  }

  lemma RootedGrows(h: seq<Event>, e: Event)
    ensures forall w: Who | OwnComplete(h, w) :: OwnComplete(h + [e], w)
    ensures forall b: Biz | Rooted(h, b) :: Rooted(h + [e], b)
  {
    forall w: Who | OwnComplete(h, w)
      ensures OwnComplete(h + [e], w)
    {
      var k :| KeyReturned(w, k) in h;
      var a, u :| Finished(w, a, u) in h;
      assert KeyReturned(w, k) in h + [e] && Finished(w, a, u) in h + [e];
    }
  }

  lemma InstOkGrows(h: seq<Event>, next: nat, next': nat, i: Inst, e: Event)
    requires InstOk(h, next, i) && next <= next'
    requires !(e.KeyReturned? && e.who == i.who)
    ensures InstOk(h + [e], next', i)
  {
    LastKeyAppend(h, e, i.who);
    RootedGrows(h, e);
    if KeySeen(h, i.who) {
      var k :| KeyReturned(i.who, k) in h;
      assert KeyReturned(i.who, k) in h + [e];
    }
    if FinishSeen(h, i.who) {
      var a, u :| Finished(i.who, a, u) in h;
      assert Finished(i.who, a, u) in h + [e];
    }
  }

  lemma HistoryGrows(h: seq<Event>, next: nat, next': nat, e: Event)
    requires HistoryOk(h, next) && next <= next' && e.who.serial < next'
    requires e.Created? || Created(e.who) in h
    requires e.Stored? ==>
               && |e.key| == D2D_APPLY_KEY_LEN && e.key == LastKey(h, e.who)
               && AccountMatches(e.who, e.accountHash) && |MapKey(e.who.biz, e.user)| < KEY_LEN
               && h != [] && h[|h| - 1] == Finished(e.who, e.accountHash, e.user)
    ensures HistoryOk(h + [e], next')
  {
    var h' := h + [e];
    forall k | 0 <= k < |h'|
      ensures FiledOk(h', k)
    {
      if k < |h| {
        assert FiledOk(h, k) && h'[..k] == h[..k];
      } else {
        assert h'[..k] == h;
      }
    }
  }

  /** Everything but the list and its history only gains support from a longer history. */
  lemma RestGrows(n: Node, e: Event)
    requires StoreOk(n) && ResultsOk(n) && CallbacksOk(n) && AllSentOk(n)
    ensures var n' := n.(history := n.history + [e]);
            StoreOk(n') && ResultsOk(n') && CallbacksOk(n') && AllSentOk(n')
  {
    var h, h' := n.history, n.history + [e];
    RootedGrows(h, e);
    forall s | s in n.store
      ensures FiledAs(h', s, n.store[s])
    {
      var v := n.store[s];
      var w: Who :| Stored(w, v.accountHash, v.userId, v.key) in h && s == MapKey(w.biz, v.userId);
      assert Stored(w, v.accountHash, v.userId, v.key) in h';
    }
    forall q | q in n.results && q.isSuccess
      ensures ResultOk(h', q.requestId)
    {
      var w: Who :| Created(w) in h && w.requestId == q.requestId && Rooted(h, w.biz);
      assert Created(w) in h';
    }
    assert IdsConsistent(h') ==> IdsConsistent(h);
    forall c | c in n.callbacks && c.outcome.Success?
      ensures KeyFiledFor(h', c.who.biz, c.outcome.key)
    {
      var w: Who, a, u, l :| Stored(w, a, u, c.outcome.key) in h && MapKey(w.biz, u) == MapKey(c.who.biz, l);
      assert Stored(w, a, u, c.outcome.key) in h';
    }
    forall m | m in n.sent
      ensures SentOk(n.udid, h', m)
    {
      SentGrows(n.udid, h, e, m);
    }
  }

  lemma SentGrows(udid: string, h: seq<Event>, e: Event, m: Wire)
    requires SentOk(udid, h, m)
    ensures SentOk(udid, h + [e], m)
  {
    var h' := h + [e];
    match m
    case DeviceId(r, b) =>
      var w: Who :| Created(w) in h && w.requestId == r && !w.isServer;
      assert Created(w) in h';
    case CloseAck(r) =>
      if ServerFiled(h, r) {
        var w: Who, a, u, k :| Stored(w, a, u, k) in h && w.requestId == r && w.isServer;
        assert Stored(w, a, u, k) in h';
      } else {
        var w: Who :| AckSeen(w) in h && w.requestId == r && !w.isServer;
        assert AckSeen(w) in h';
      }
  }

  // ---------- every primitive keeps the invariant ----------

  lemma FreshInstOk(n: Node, i: Inst)
    requires HistoryOk(n.history, n.nextSerial) && i.who.serial == n.nextSerial && i.key == []
    requires !i.isRecvSessionKey && !i.isRecvFinish && !i.isRecvCloseAck
    ensures InstOk(n.history + [Created(i.who)], n.nextSerial + 1, i)
  {
    NoKeyYet(n.history, i.who);
    LastKeyAppend(n.history, Created(i.who), i.who);
  }

  lemma CreateKeeps(n: Node, r: nat, conn: nat, isServer: bool, b: Biz, peer: string, onOk: bool, onFail: bool)
    requires Inv(n)
    ensures Inv(Create(n, r, conn, isServer, b, peer, onOk, onFail))
  {
    var n' := Create(n, r, conn, isServer, b, peer, onOk, onFail);
    var e := Created(n'.insts[0].who);
    HistoryGrows(n.history, n.nextSerial, n'.nextSerial, e);
    RestKeeps(n, n', e);
    CreateKeepsInsts(n, n');
    CreateKeepsLists(n, n');
    hide Create, ListOk, StartsOk, StoreOk, ResultsOk, CallbacksOk, AllSentOk, HistoryOk;
  }

  lemma RestKeeps(n: Node, n': Node, e: Event)
    requires StoreOk(n) && ResultsOk(n) && CallbacksOk(n) && AllSentOk(n)
    requires n'.history == n.history + [e] && n'.store == n.store && n'.results == n.results
    requires n'.sent == n.sent && n'.udid == n.udid
    ensures StoreOk(n') && ResultsOk(n') && AllSentOk(n') && CallbacksOk(n.(history := n'.history))
  {
    RestGrows(n, e);
    hide CallbacksOk, FiledAs, ResultOk, SentOk;
  }

  lemma CreateKeepsInsts(n: Node, n': Node)
    requires ListOk(n) && HistoryOk(n.history, n.nextSerial) && n'.nextSerial == n.nextSerial + 1
    requires |n'.insts| == |n.insts| + 1 && n'.insts[1..] == n.insts
    requires n'.insts[0] == Inst(n'.insts[0].who, n'.insts[0].connId, Unknow, [], false, false, false,
                                 n'.insts[0].hasOnSuccess, n'.insts[0].hasOnFailed)
    requires n'.insts[0].who.serial == n.nextSerial && n'.history == n.history + [Created(n'.insts[0].who)]
    ensures forall i | 0 <= i < |n'.insts| :: InstOk(n'.history, n'.nextSerial, n'.insts[i])
    ensures forall i | 0 < i < |n'.insts| :: n'.insts[i] == n.insts[i - 1] && n'.insts[i].who.serial < n.nextSerial
  {
    FreshInstOk(n, n'.insts[0]);
    forall i | 0 < i < |n'.insts|
      ensures InstOk(n'.history, n'.nextSerial, n'.insts[i])
      ensures n'.insts[i] == n.insts[i - 1] && n'.insts[i].who.serial < n.nextSerial
    {
      assert n'.insts[i] == n'.insts[1..][i - 1];
      InstOkGrows(n.history, n.nextSerial, n'.nextSerial, n.insts[i - 1], Created(n'.insts[0].who));
    }
    hide InstOk;
  }

  lemma CreateKeepsLists(n: Node, n': Node)
    requires n'.cnt == n.cnt + 1 == |n.insts| + 1 == |n'.insts| && n'.nextSerial == n.nextSerial + 1
    requires StartsOk(n) && n'.udid == n.udid && n'.callbacks == n.callbacks
    requires forall i | 0 < i < |n'.insts| :: n'.insts[i] == n.insts[i - 1] && n'.insts[i].who.serial < n.nextSerial
    requires forall i, j | 0 <= i < j < |n.insts| :: n.insts[i].who.serial != n.insts[j].who.serial
    requires forall i | 0 <= i < |n'.insts| :: InstOk(n'.history, n'.nextSerial, n'.insts[i])
    requires n'.insts[0].who.serial == n.nextSerial && n'.insts[0].state == Unknow
    requires CallbacksOk(n.(history := n'.history))
    ensures ListOk(n') && StartsOk(n') && CallbacksOk(n')
  {
    hide InstOk, KeyFiledFor, Rooted, IdsConsistent;
    forall i, j | 0 <= i < j < |n'.insts|
      ensures n'.insts[i].who.serial != n'.insts[j].who.serial
      ensures n'.insts[i].state.Start? && n'.insts[j].state.Start? ==> n'.insts[i].who.biz != n'.insts[j].who.biz
    {
      assert n'.insts[j] == n.insts[j - 1];
      if i > 0 {
        assert n'.insts[i] == n.insts[i - 1];
      }
    }
  }

  lemma {:induction false} NoKeyYet(h: seq<Event>, w: Who)
    requires forall e | e in h :: e.who != w
    ensures LastKey(h, w) == []
  {
    if h != [] {
      assert h[|h| - 1] in h;
      NoKeyYet(h[..|h| - 1], w);
    }
  }

  lemma RemoveDropsOne(n: Node, r: nat)
    requires Has(n, r)
    ensures var k := Find(n.insts, r);
            var n' := Remove(n, r);
            && n' == n.(insts := n'.insts, cnt := n.cnt - 1)
            && |n'.insts| == |n.insts| - 1
            && (forall i | 0 <= i < |n'.insts| :: n'.insts[i] == n.insts[if i < k then i else i + 1])
  {
  }

  lemma RemoveKeepsStarts(n: Node, n': Node, k: nat)
    requires StartsOk(n) && n'.udid == n.udid && |n'.insts| == |n.insts| - 1
    requires forall i | 0 <= i < |n'.insts| :: n'.insts[i] == n.insts[if i < k then i else i + 1]
    ensures StartsOk(n')
  {
  }

  lemma RemoveKeepsList(n: Node, n': Node, k: nat)
    requires ListOk(n) && n' == n.(insts := n'.insts, cnt := n.cnt - 1) && |n'.insts| == |n.insts| - 1
    requires forall i | 0 <= i < |n'.insts| :: n'.insts[i] == n.insts[if i < k then i else i + 1]
    ensures ListOk(n')
  {
    hide InstOk;
  }

  lemma RemoveKeeps(n: Node, r: nat)
    requires Inv(n)
    ensures Inv(Remove(n, r))
  {
    if Has(n, r) {
      var k, n' := Find(n.insts, r), Remove(n, r);
      RemoveDropsOne(n, r);
      RemoveKeepsStarts(n, n', k);
      RemoveKeepsList(n, n', k);
      hide Remove, Find, ListOk, StartsOk, FiledAs, ResultOk, SentOk, KeyFiledFor, Rooted, IdsConsistent, HistoryOk;
    }
  }

  /** Writing one instance and recording it: the shared part of the three Set functions. */
  lemma UpdateKeeps(n: Node, k: nat, i': Inst, e: Event)
    requires Inv(n) && k < |n.insts|
    requires i'.who == n.insts[k].who && i'.state == n.insts[k].state && e.who == i'.who && !e.Created?
    requires InstOk(n.history + [e], n.nextSerial, i')
    requires HistoryOk(n.history + [e], n.nextSerial)
    ensures Inv(n.(insts := n.insts[k := i'], history := n.history + [e]))
  {
    var n' := n.(insts := n.insts[k := i'], history := n.history + [e]);
    RestKeeps(n, n', e);
    forall j | 0 <= j < |n'.insts|
      ensures InstOk(n'.history, n'.nextSerial, n'.insts[j])
    {
      if j != k {
        InstOkGrows(n.history, n.nextSerial, n.nextSerial, n.insts[j], e);
      }
    }
    SameInstsKeep(n.(history := n'.history), n');
    hide ListOk, StartsOk, StoreOk, ResultsOk, CallbacksOk, AllSentOk, HistoryOk, InstOk;
  }

  /** Rewriting instances in place leaves everything that only looks at who they are and who started. */
  lemma SameInstsKeep(n: Node, n': Node)
    requires n' == n.(insts := n'.insts) && n.cnt == |n.insts| == |n'.insts|
    requires forall j | 0 <= j < |n.insts| ::
               n'.insts[j].who == n.insts[j].who && n'.insts[j].state == n.insts[j].state
    requires forall j | 0 <= j < |n'.insts| :: InstOk(n'.history, n'.nextSerial, n'.insts[j])
    requires forall i, j | 0 <= i < j < |n.insts| :: n.insts[i].who.serial != n.insts[j].who.serial
    requires StartsOk(n) && CallbacksOk(n)
    ensures ListOk(n') && StartsOk(n') && CallbacksOk(n')
  {
    hide InstOk, KeyFiledFor, Rooted, IdsConsistent;
  }

  lemma PutKeyKeeps(n: Node, r: nat, key: seq<Byte>)
    requires Inv(n)
    ensures Inv(PutKey(n, r, key))
  {
    var k := Find(n.insts, r);
    if k < |n.insts| {
      var i := n.insts[k];
      var e := KeyReturned(i.who, key);
      LastKeyAppend(n.history, e, i.who);
      InstOkGrows(n.history, n.nextSerial, n.nextSerial, i.(key := LastKey(n.history, i.who)), Created(i.who));
      HistoryGrows(n.history, n.nextSerial, n.nextSerial, e);
      FlagsGrow(n.history, e, i);
      assert KeyReturned(i.who, key) in n.history + [e];
      UpdateKeeps(n, k, i.(key := key, isRecvSessionKey := true), e);
    }
  }

  lemma FlagsGrow(h: seq<Event>, e: Event, i: Inst)
    ensures KeySeen(h, i.who) || Rooted(h, i.who.biz) ==> KeySeen(h + [e], i.who) || Rooted(h + [e], i.who.biz)
    ensures FinishSeen(h, i.who) || Rooted(h, i.who.biz) ==> FinishSeen(h + [e], i.who) || Rooted(h + [e], i.who.biz)
  {
    RootedGrows(h, e);
    if KeySeen(h, i.who) {
      var k :| KeyReturned(i.who, k) in h;
      assert KeyReturned(i.who, k) in h + [e];
    }
    if FinishSeen(h, i.who) {
      var a, u :| Finished(i.who, a, u) in h;
      assert Finished(i.who, a, u) in h + [e];
    }
  }

  lemma PutAckKeeps(n: Node, r: nat)
    requires Inv(n) && Has(n, r)
    ensures Inv(PutAck(n, r))
  {
    var k := Find(n.insts, r);
    var i := n.insts[k];
    var e := AckSeen(i.who);
    InstOkGrows(n.history, n.nextSerial, n.nextSerial, i, e);
    HistoryGrows(n.history, n.nextSerial, n.nextSerial, e);
    UpdateKeeps(n, k, i.(isRecvCloseAck := true), e);
  }

  /** Filing the last returned key of an instance whose account matched. */
  lemma FileKeeps(n: Node, k: nat, acct: string, user: int, now: nat)
    requires Inv(n) && k < |n.insts| && |n.insts[k].key| == D2D_APPLY_KEY_LEN
    requires AccountMatches(n.insts[k].who, acct) && |MapKey(n.insts[k].who.biz, user)| < KEY_LEN
    requires n.history != [] && n.history[|n.history| - 1] == Finished(n.insts[k].who, acct, user)
    ensures var i := n.insts[k];
            Inv(n.(store := n.store[MapKey(i.who.biz, user) := Value(i.key, user, now, acct)],
                   history := n.history + [Stored(i.who, acct, user, i.key)]))
  {
    var i := n.insts[k];
    var f := Stored(i.who, acct, user, i.key);
    InstOkGrows(n.history, n.nextSerial, n.nextSerial, i, f);
    HistoryGrows(n.history, n.nextSerial, n.nextSerial, f);
    UpdateKeeps(n, k, i, f);
    assert n.insts[k := i] == n.insts;
    var n1 := n.(history := n.history + [f]);
    assert f in n1.history;
    var v := Value(i.key, user, now, acct);
    assert FiledAs(n1.history, MapKey(i.who.biz, user), v);
    hide Inv, FiledAs, MapKey;
    StoreGains(n1, MapKey(i.who.biz, user), v);
  }

  lemma StoreGains(n: Node, slot: string, v: Value)
    requires Inv(n) && FiledAs(n.history, slot, v)
    ensures Inv(n.(store := n.store[slot := v]))
  {
    hide FiledAs, InstOk, HistoryOk, ResultOk, KeyFiledFor, Rooted, IdsConsistent, SentOk, Less;
  }

  lemma MarkFinishKeeps(n: Node, k: nat, acct: string, user: int)
    requires Inv(n) && k < |n.insts|
    ensures var i := n.insts[k];
            Inv(n.(insts := n.insts[k := i.(isRecvFinish := true)],
                   history := n.history + [Finished(i.who, acct, user)]))
  {
    var i := n.insts[k];
    var e := Finished(i.who, acct, user);
    InstOkGrows(n.history, n.nextSerial, n.nextSerial, i, e);
    HistoryGrows(n.history, n.nextSerial, n.nextSerial, e);
    assert e in n.history + [e];
    UpdateKeeps(n, k, i.(isRecvFinish := true), e);
  }

  lemma PutFinishKeeps(n: Node, r: nat, acct: string, user: int, now: nat)
    requires Inv(n) && Has(n, r)
    requires AccountMatches(n.insts[Find(n.insts, r)].who, acct)
    ensures var i := n.insts[Find(n.insts, r)];
            var (n', filed) := PutFinish(n, r, acct, user, now);
            Inv(n') && (filed ==> Stored(i.who, acct, user, i.key) in n'.history)
  {
    var k := Find(n.insts, r);
    MarkFinishKeeps(n, k, acct, user);
    var i := n.insts[k];
    var n1 := n.(insts := n.insts[k := i.(isRecvFinish := true)],
                 history := n.history + [Finished(i.who, acct, user)]);
    if PutFinish(n, r, acct, user, now).1 {
      FileKeeps(n1, k, acct, user, now);
    }
  }

  lemma PutStartKeeps(n: Node, r: nat)
    requires Inv(n) && Has(n, r)
    requires StartedCount(n.insts, n.insts[Find(n.insts, r)].who.biz) == 0
    requires !Less(n.udid, n.insts[Find(n.insts, r)].who.biz.udidHash)
    ensures Inv(PutStart(n, r))
  {
    var k := Find(n.insts, r);
    var n' := PutStart(n, r);
    assert forall j | 0 <= j < |n.insts| && j != k :: n'.insts[j] == n.insts[j];
    assert InstOk(n.history, n.nextSerial, n.insts[k]);
  }

  lemma BroadcastKeeps(n: Node, b: Biz, isSuccess: bool, reason: Result)
    requires Inv(n)
    requires isSuccess ==> Rooted(n.history, b)
    ensures Inv(Broadcast(n, b, isSuccess, reason))
  {
    var n' := Broadcast(n, b, isSuccess, reason);
    forall i | 0 <= i < |n'.insts|
      ensures InstOk(n'.history, n'.nextSerial, n'.insts[i]) && n'.insts[i].who == n.insts[i].who
      ensures n'.insts[i].state == n.insts[i].state
    {
      assert InstOk(n.history, n.nextSerial, n.insts[i]);
    }
    forall q | q in n'.results && q.isSuccess
      ensures ResultOk(n'.history, q.requestId)
    {
      if q !in n.results {
        var i :| 0 <= i < |n.insts| && n.insts[i].who.biz == b && n.insts[i].who.requestId == q.requestId;
        assert InstOk(n.history, n.nextSerial, n.insts[i]);
      }
    }
  }

  /** A complete instance is complete by itself or through a sibling that was. */
  lemma OnGenSuccessKeeps(n: Node, r: nat)
    requires Inv(n)
    ensures Inv(OnGenSuccess(n, r))
  {
    var k := Find(n.insts, r);
    if k < |n.insts| && Complete(n.insts[k]) {
      var i := n.insts[k];
      assert InstOk(n.history, n.nextSerial, i);
      if !Rooted(n.history, i.who.biz) {
        assert OwnComplete(n.history, i.who);
      }
      BroadcastKeeps(n, i.who.biz, true, Okay);
    }
  }

  lemma OnGenFailedKeeps(n: Node, r: nat, reason: Result)
    requires Inv(n)
    ensures Inv(OnGenFailed(n, r, reason))
  {
    var k := Find(n.insts, r);
    if k < |n.insts| {
      BroadcastKeeps(n, n.insts[k].who.biz, false, reason);
    }
  }

  lemma PostKeeps(n: Node, m: Wire)
    requires Inv(n) && SentOk(n.udid, n.history, m)
    ensures Inv(Post(n, m))
  {
  }

  // ---------- every handler keeps the invariant ----------

  /** A freshly created instance is the one its own start finds. */
  lemma TryStartKeeps(n: Node, r: nat, b: Biz, hashOk: bool, hichainRet: Result)
    requires Inv(n) && n.insts != [] && n.insts[0].who.requestId == r && n.insts[0].who.biz == b
    ensures Inv(TryStart(n, r, b, hashOk, hichainRet).0)
  {
    if hashOk && StartedCount(n.insts, b) == 0 && !Less(n.udid, b.udidHash) {
      PutStartKeeps(n, r);
    }
  }

  lemma GenApplyKeyKeeps(n: Node, r: nat, conn: nat, b: Biz, peer: string, onOk: bool, onFail: bool, e: Env)
    requires Inv(n)
    ensures Inv(GenApplyKey(n, r, conn, b, peer, onOk, onFail, e).0)
  {
    if n.cnt < MAX_INSTANCE_CNT {
      CreateKeeps(n, r, conn, false, b, peer, onOk, onFail);
      var n1 := Create(n, r, conn, false, b, peer, onOk, onFail);
      RemoveKeeps(n1, r);
      if e.hashOk && e.sendOk {
        assert Created(n1.insts[0].who) in n1.history;
        var m := DeviceId(r, Biz(n.udid, e.accountHash, b.kind));
        PostKeeps(n1, m);
        var n2 := Post(n1, m);
        TryStartKeeps(n2, r, b, e.hashOk, e.hichainRet);
        RemoveKeeps(TryStart(n2, r, b, e.hashOk, e.hichainRet).0, r);
      }
      hide Inv, Create, Remove, TryStart;
    }
  }

  lemma RecvDeviceIdKeeps(n: Node, r: nat, conn: nat, b: Biz, e: Env)
    requires Inv(n)
    ensures Inv(RecvDeviceId(n, r, conn, b, e))
  {
    if n.cnt >= MAX_INSTANCE_CNT {
      OnGenFailedKeeps(n, r, InstanceFull);
    } else {
      CreateKeeps(n, r, conn, true, b, "", false, false);
      var n1 := Create(n, r, conn, true, b, "", false, false);
      TryStartKeeps(n1, r, b, e.hashOk, e.hichainRet);
      var (n2, ret) := TryStart(n1, r, b, e.hashOk, e.hichainRet);
      OnGenFailedKeeps(n2, r, ret);
      hide Inv, Create, TryStart, OnGenFailed;
    }
  }

  lemma RecvAuthDataKeeps(n: Node, r: nat, e: Env)
    requires Inv(n)
    ensures Inv(RecvAuthData(n, r, e))
  {
    OnGenFailedKeeps(n, r, e.hichainRet);
  }

  lemma SessionKeyKeeps(n: Node, r: nat, key: seq<Byte>)
    requires Inv(n)
    ensures Inv(SessionKeyReturned(n, r, key))
  {
    PutKeyKeeps(n, r, key);
  }

  lemma DeleteKeyKeeps(n: Node, b: Biz, user: int)
    requires Inv(n)
    ensures Inv(n.(store := Delete(n.store, b, user).0))
  {
    ShrinkStoreKeeps(n, Delete(n.store, b, user).0);
  }

  lemma RecvCloseAckKeeps(n: Node, r: nat, e: Env)
    requires Inv(n)
    ensures Inv(RecvCloseAck(n, r, e))
  {
    if Has(n, r) {
      var w := n.insts[Find(n.insts, r)].who;
      PutAckKeeps(n, r);
      var n1 := PutAck(n, r);
      assert AckSeen(w) in n1.history;
      OnGenSuccessKeeps(n1, r);
      OnGenFailedKeeps(n1, r, SendFail);
      if !w.isServer {
        PostKeeps(n1, CloseAck(r));
        OnGenSuccessKeeps(Post(n1, CloseAck(r)), r);
      }
    }
  }

  lemma HichainFinishedKeeps(n: Node, r: nat, acct: string, e: Env)
    requires Inv(n)
    ensures Inv(HichainFinished(n, r, acct, e))
  {
    if Has(n, r) {
      OnGenFailedKeeps(n, r, StrcmpErr);
      var i := n.insts[Find(n.insts, r)];
      if AccountMatches(i.who, acct) {
        PutFinishKeeps(n, r, acct, e.user, e.now);
        var (n1, filed) := PutFinish(n, r, acct, e.user, e.now);
        OnGenSuccessKeeps(n1, r);
        if filed && i.who.isServer {
          assert ServerFiled(n1.history, r);
          PostKeeps(n1, CloseAck(r));
          OnGenSuccessKeeps(Post(n1, CloseAck(r)), r);
        }
      }
    }
  }

  /** The instance that gets the callback leaves the list in the same step. */
  lemma CallAndRemoveKeeps(n: Node, r: nat, o: Outcome)
    requires Inv(n) && Has(n, r)
    requires var i := n.insts[Find(n.insts, r)];
             o.Success? ==>
               && KeyFiledFor(n.history, i.who.biz, o.key)
               && (IdsConsistent(n.history) ==> Rooted(n.history, i.who.biz))
    ensures var i := n.insts[Find(n.insts, r)];
            Inv(Remove(n.(callbacks := n.callbacks + [Called(i.who, o)]), r))
  {
    var k := Find(n.insts, r);
    var w := n.insts[k].who;
    RemoveKeeps(n, r);
    RemoveDropsOne(n, r);
    var n1 := Remove(n, r);
    var n2 := Remove(n.(callbacks := n.callbacks + [Called(w, o)]), r);
    assert n2 == n1.(callbacks := n.callbacks + [Called(w, o)]);
    assert w.serial < n.nextSerial by {
      assert InstOk(n.history, n.nextSerial, n.insts[k]);
    }
    NewCallKeeps(n1, n2, Called(w, o));
  }

  lemma NewCallKeeps(n: Node, n': Node, c: Called)
    requires Inv(n) && n' == n.(callbacks := n.callbacks + [c])
    requires c.who.serial < n.nextSerial
    requires forall d | d in n.callbacks :: d.who.serial != c.who.serial
    requires forall i | 0 <= i < |n.insts| :: n.insts[i].who.serial != c.who.serial
    requires c.outcome.Success? ==>
               && KeyFiledFor(n.history, c.who.biz, c.outcome.key)
               && (IdsConsistent(n.history) ==> Rooted(n.history, c.who.biz))
    ensures Inv(n')
  {
    hide InstOk, FiledAs, ResultOk, SentOk, KeyFiledFor, Rooted, IdsConsistent, HistoryOk;
    assert CallbacksOk(n');
  }

  lemma HandleResultKeeps(n: Node, res: Queued, user: int)
    requires Inv(n) && Has(n, res.requestId)
    requires res.isSuccess ==> ResultOk(n.history, res.requestId)
    ensures Inv(HandleResult(n, n.insts[Find(n.insts, res.requestId)], res, user))
  {
    var r := res.requestId;
    var i := n.insts[Find(n.insts, r)];
    RemoveKeeps(n, r);
    RemoveKeeps(Remove(n, r), r);
    if res.isSuccess && i.hasOnSuccess && Get(n.store, i.who.biz, user).Found? {
      var v := Get(n.store, i.who.biz, user).value;
      SuccessIsRooted(n, i, v, user);
      CallAndRemoveKeeps(n, r, Success(v.key));
    } else if !res.isSuccess {
      CallAndRemoveKeeps(n, r, Failed(res.reason));
    }
  }

  lemma SuccessIsRooted(n: Node, i: Inst, v: Value, user: int)
    requires Inv(n) && i in n.insts && ResultOk(n.history, i.who.requestId)
    requires Get(n.store, i.who.biz, user) == Found(v)
    ensures KeyFiledFor(n.history, i.who.biz, v.key)
    ensures IdsConsistent(n.history) ==> Rooted(n.history, i.who.biz)
  {
    var k :| 0 <= k < |n.insts| && n.insts[k] == i;
    assert InstOk(n.history, n.nextSerial, n.insts[k]);
    var w: Who :| Created(w) in n.history && w.requestId == i.who.requestId && Rooted(n.history, w.biz);
    var s := MapKey(i.who.biz, user);
    assert FiledAs(n.history, s, n.store[s]);
    var x: Who :| Stored(x, v.accountHash, v.userId, v.key) in n.history && s == MapKey(x.biz, v.userId);
    assert Stored(x, v.accountHash, v.userId, v.key) in n.history && MapKey(x.biz, v.userId) == MapKey(i.who.biz, user);
  }

  lemma ResultServedKeeps(n: Node, q: nat, user: int)
    requires Inv(n) && q < |n.results|
    ensures Inv(ResultServed(n, q, user))
  {
    var res := n.results[q];
    assert res in n.results;
    var n1 := n.(results := n.results[..q] + n.results[q + 1..]);
    assert forall x | x in n1.results :: x in n.results;
    assert Inv(n1);
    if Has(n1, res.requestId) {
      HandleResultKeeps(n1, res, user);
    }
  }

  lemma DisconnectedKeeps(n: Node, conn: nat)
    requires Inv(n)
    ensures Inv(Disconnected(n, conn))
  {
    var k := FindConn(n.insts, conn);
    if k < |n.insts| {
      RemoveKeeps(n, n.insts[k].who.requestId);
    }
  }

  lemma TimerFiredKeeps(n: Node, t: nat)
    requires Inv(n) && t < |n.timers|
    ensures Inv(TimerFired(n, t))
  {
    var n1 := n.(timers := n.timers[..t] + n.timers[t + 1..]);
    assert Inv(n1);
    OnGenFailedKeeps(n1, n.timers[t], StartTimeout);
  }

  lemma ShrinkStoreKeeps(n: Node, s: Store)
    requires Inv(n)
    requires forall k | k in s :: k in n.store && s[k] == n.store[k]
    ensures Inv(n.(store := s))
  {
    var n' := n.(store := s);
    assert forall k | k in s :: FiledAs(n.history, k, n.store[k]);
    assert StoreOk(n');
  }

  /** The instance existed and is no longer in the list. */
  ghost predicate Gone(n: Node, serial: nat) {
    serial < n.nextSerial && forall i | 0 <= i < |n.insts| :: n.insts[i].who.serial != serial
  }

  ghost predicate CalledBack(n: Node, serial: nat) {
    exists i :: 0 <= i < |n.callbacks| && n.callbacks[i].who.serial == serial
  }

  ghost predicate SameNode(i: Inst, j: Inst) {
    i.who == j.who && i.hasOnSuccess == j.hasOnSuccess && i.hasOnFailed == j.hasOnFailed
  }

  /** The same nodes in the same places, and nobody called. */
  ghost predicate SameNodes(n: Node, n': Node) {
    && n'.nextSerial == n.nextSerial && n'.callbacks == n.callbacks && |n'.insts| == |n.insts|
    && forall i | 0 <= i < |n.insts| :: SameNode(n.insts[i], n'.insts[i])
  }

  lemma SameNodesKeepGone(n: Node, n': Node, serial: nat)
    requires Gone(n, serial) && SameNodes(n, n')
    ensures Gone(n', serial)
  {
  }

  lemma PutsKeepNodes(n: Node, r: nat, key: seq<Byte>, acct: string, user: int, now: nat)
    ensures SameNodes(n, PutKey(n, r, key)) && SameNodes(n, PutStart(n, r))
    ensures Has(n, r) ==> SameNodes(n, PutAck(n, r)) && SameNodes(n, PutFinish(n, r, acct, user, now).0)
  {
  }

  lemma ResultsKeepNodes(n: Node, r: nat, reason: Result)
    ensures SameNodes(n, OnGenSuccess(n, r)) && SameNodes(n, OnGenFailed(n, r, reason))
  {
  }

  lemma CloseAckKeepsNodes(n: Node, r: nat, e: Env)
    ensures SameNodes(n, RecvCloseAck(n, r, e))
  {
    hide PutAck, OnGenSuccess, OnGenFailed, Find;
    if Has(n, r) {
      PutsKeepNodes(n, r, [], "", 0, 0);
      var n1 := PutAck(n, r);
      ResultsKeepNodes(n1, r, SendFail);
      ResultsKeepNodes(Post(n1, CloseAck(r)), r, SendFail);
    }
  }

  lemma FinishedKeepsNodes(n: Node, r: nat, acct: string, e: Env)
    ensures SameNodes(n, HichainFinished(n, r, acct, e))
  {
    ResultsKeepNodes(n, r, StrcmpErr);
    if Has(n, r) {
      PutsKeepNodes(n, r, [], acct, e.user, e.now);
      var n1 := PutFinish(n, r, acct, e.user, e.now).0;
      ResultsKeepNodes(n1, r, SendFail);
      ResultsKeepNodes(Post(n1, CloseAck(r)), r, SendFail);
    }
    hide PutFinish, OnGenSuccess, OnGenFailed, AccountMatches;
  }

  lemma RemoveKeepsGone(n: Node, r: nat, serial: nat)
    requires Gone(n, serial)
    ensures Gone(Remove(n, r), serial) && Remove(n, r).callbacks == n.callbacks
  {
  }

  lemma GenKeepsGone(n: Node, r: nat, conn: nat, b: Biz, peer: string, onOk: bool, onFail: bool, e: Env, serial: nat)
    requires Gone(n, serial)
    ensures var n' := GenApplyKey(n, r, conn, b, peer, onOk, onFail, e).0;
            Gone(n', serial) && n'.callbacks == n.callbacks
  {
    if n.cnt < MAX_INSTANCE_CNT {
      var n1 := Create(n, r, conn, false, b, peer, onOk, onFail);
      assert Gone(n1, serial);
      RemoveKeepsGone(n1, r, serial);
      var n2 := Post(n1, DeviceId(r, Biz(n.udid, e.accountHash, b.kind)));
      PutsKeepNodes(n2, r, [], "", 0, 0);
      var n3 := TryStart(n2, r, b, e.hashOk, e.hichainRet).0;
      SameNodesKeepGone(n2, n3, serial);
      RemoveKeepsGone(n3, r, serial);
    }
  }

  lemma DeviceIdKeepsGone(n: Node, r: nat, conn: nat, b: Biz, e: Env, serial: nat)
    requires Gone(n, serial)
    ensures var n' := RecvDeviceId(n, r, conn, b, e);
            Gone(n', serial) && n'.callbacks == n.callbacks
  {
    ResultsKeepNodes(n, r, InstanceFull);
    if n.cnt < MAX_INSTANCE_CNT {
      var n1 := Create(n, r, conn, true, b, "", false, false);
      assert Gone(n1, serial);
      PutsKeepNodes(n1, r, [], "", 0, 0);
      var (n2, ret) := TryStart(n1, r, b, e.hashOk, e.hichainRet);
      SameNodesKeepGone(n1, n2, serial);
      ResultsKeepNodes(n2, r, ret);
      hide TryStart, Create;
    }
    hide OnGenFailed;
  }

  lemma HandleResultKeepsGone(n: Node, i: Inst, res: Queued, user: int, serial: nat)
    requires Gone(n, serial) && i.who.serial != serial
    ensures var n' := HandleResult(n, i, res, user);
            && Gone(n', serial)
            && (n'.callbacks == n.callbacks || exists o :: n'.callbacks == n.callbacks + [Called(i.who, o)])
  {
    var r := i.who.requestId;
    RemoveKeepsGone(n, r, serial);
    RemoveKeepsGone(Remove(n, r), r, serial);
    var found := Get(n.store, i.who.biz, user);
    var o := if res.isSuccess && found.Found? then Success(found.value.key) else Failed(res.reason);
    var called := n.(callbacks := n.callbacks + [Called(i.who, o)]);
    RemoveKeepsGone(called, r, serial);
    hide Remove, Get, Gone;
  }

  lemma ResultKeepsGone(n: Node, q: nat, user: int, serial: nat)
    requires Gone(n, serial) && q < |n.results|
    ensures var n' := ResultServed(n, q, user);
            Gone(n', serial) && (CalledBack(n', serial) ==> CalledBack(n, serial))
  {
    var res := n.results[q];
    var n1 := n.(results := n.results[..q] + n.results[q + 1..]);
    var k := Find(n1.insts, res.requestId);
    if k < |n1.insts| {
      HandleResultKeepsGone(n1, n1.insts[k], res, user, serial);
      hide HandleResult;
    }
  }
}
