/** Whether a device that completed holds the key itself. Completing needs a session key, a finish and a
    close-ack in any order; filing happens only inside a finish. */
module ApplyKeyOwnKey {
  import opened ApplyKeyStore
  import opened ApplyKeyNego
  import opened ApplyKeyNegoProps
  import opened ApplyKeyRuns
  import opened ApplyKeyAgreement

  /** The event at `k` is a finish that meets a full-length key and a slot name that fits. */
  ghost predicate FilesAt(h: seq<Event>, k: nat)
    requires k < |h|
  {
    h[k].Finished? && |LastKey(h[..k], h[k].who)| == D2D_APPLY_KEY_LEN && |MapKey(h[k].who.biz, h[k].user)| < KEY_LEN
  }

  ghost predicate AllFiled(h: seq<Event>) {
    forall k | 0 <= k < |h| && FilesAt(h, k) :: k + 1 < |h| && h[k + 1].Stored? && h[k + 1].who == h[k].who
  }

  lemma AllFiledGrows(h: seq<Event>, e: Event)
    requires AllFiled(h) && (e.Finished? ==> !FilesAt(h + [e], |h|))
    ensures AllFiled(h + [e])
  {
    var h' := h + [e];
    forall k | 0 <= k < |h'| && FilesAt(h', k) ensures k + 1 < |h'| && h'[k + 1].Stored? && h'[k + 1].who == h'[k].who {
      if k < |h| {
        assert h'[..k] == h[..k];
        assert FilesAt(h, k);
      }
    }
  }

  lemma FiledFinishKeeps(h: seq<Event>, f: Event, e: Event)
    requires AllFiled(h) && f.Finished? && e.Stored? && e.who == f.who
    ensures AllFiled(h + [f, e])
  {
    var h' := h + [f, e];
    forall k | 0 <= k < |h'| && FilesAt(h', k) ensures k + 1 < |h'| && h'[k + 1].Stored? && h'[k + 1].who == h'[k].who {
      if k < |h| {
        assert h'[..k] == h[..k];
        assert FilesAt(h, k);
      }
    }
  }

  lemma FinishHistory(n: Node, r: nat, acct: string, e: Env)
    requires Has(n, r)
    ensures var i, (n1, filed) := n.insts[Find(n.insts, r)], PutFinish(n, r, acct, e.user, e.now);
            n1.history == n.history + if filed then [Finished(i.who, acct, e.user), Stored(i.who, acct, e.user, i.key)]
                                      else [Finished(i.who, acct, e.user)]
  {
    hide MapKey, Find;
  }

  lemma FinishedFiles(n: Node, r: nat, acct: string, e: Env)
    requires Inv(n) && AllFiled(n.history)
    ensures AllFiled(HichainFinished(n, r, acct, e).history)
  {
    if Has(n, r) {
      var i := n.insts[Find(n.insts, r)];
      assert i.key == LastKey(n.history, i.who) by {
        assert InstOk(n.history, n.nextSerial, i);
      }
      hide Inv;
      var f := Finished(i.who, acct, e.user);
      var (n1, filed) := PutFinish(n, r, acct, e.user, e.now);
      FinishHistory(n, r, acct, e);
      hide PutFinish;
      assert forall m, x :: OnGenSuccess(m, x).history == m.history;
      assert OnGenFailed(n, r, StrcmpErr).history == n.history;
      hide OnGenSuccess, OnGenFailed, AccountMatches, MapKey;
      if filed {
        FiledFinishKeeps(n.history, f, Stored(i.who, acct, e.user, i.key));
      } else {
        assert (n.history + [f])[..|n.history|] == n.history;
        AllFiledGrows(n.history, f);
      }
      hide AllFiled;
    }
  }

  lemma StepFiles(n: Node, i: Input)
    requires Inv(n) && AllFiled(n.history)
    ensures AllFiled(Step(n, i).history)
  {
    if i.DoFinished? {
      FinishedFiles(n, i.r, i.acct, i.e);
    } else {
      StepGains(n, i);
      OneEventAdded(n, i, Step(n, i));
      hide Step, Gains;
      var h, h' := n.history, Step(n, i).history;
      if h' != h {
        var e := h'[|h|];
        AllFiledGrows(h, e);
      }
    }
  }

  lemma OneEventAdded(n: Node, i: Input, n': Node)
    requires Gains(n, i, n') && !i.DoFinished?
    ensures n'.history == n.history
            || (|n'.history| == |n.history| + 1 && n'.history == n.history + [n'.history[|n.history|]]
                && !n'.history[|n.history|].Finished?)
  {
  }

  lemma {:induction false} RunFiles(n: Node, inputs: seq<Input>)
    requires Inv(n) && AllFiled(n.history)
    ensures AllFiled(Run(n, inputs).history)
    decreases |inputs|
  {
    if inputs != [] {
      StepKeeps(n, inputs[0]);
      StepFiles(n, inputs[0]);
      hide Inv, AllFiled, Step;
      RunFiles(Step(n, inputs[0]), inputs[1..]);
    }
  }

  ghost predicate StoredItself(h: seq<Event>, w: Who) {
    exists a, u, key :: Stored(w, a, u, key) in h
  }

  /** On any device in any run, an instance has filed a key itself if and only if some finish of it came while the
      key hichain had last returned was full length, and the slot name of the time fitted. */
  lemma OwnKeyStoredIff(udid: string, inputs: seq<Input>, w: Who)
    ensures var h := Run(Initial(udid), inputs).history;
            StoredItself(h, w) <==> exists k | 0 <= k < |h| :: h[k].who == w && FilesAt(h, k)
  {
    RunKeeps(Initial(udid), inputs);
    RunFiles(Initial(udid), inputs);
    StoredItselfIff(Run(Initial(udid), inputs).history, Run(Initial(udid), inputs).nextSerial, w);
    hide Run, AllFiled, StoredItself, FilesAt;
  }

  lemma StoredItselfIff(h: seq<Event>, next: nat, w: Who)
    requires HistoryOk(h, next) && AllFiled(h)
    ensures StoredItself(h, w) <==> exists k | 0 <= k < |h| :: h[k].who == w && FilesAt(h, k)
  {
    if StoredItself(h, w) {
      var a, u, key :| Stored(w, a, u, key) in h;
      var k :| 0 <= k < |h| && h[k] == Stored(w, a, u, key);
      assert FiledOk(h, k);
      assert h[..k] == h[..k - 1] + [h[k - 1]];
      LastKeyAppend(h[..k - 1], h[k - 1], w);
      assert FilesAt(h, k - 1);
    }
    if k :| 0 <= k < |h| && h[k].who == w && FilesAt(h, k) {
      var e := h[k + 1];
      assert e in h && e == Stored(w, e.accountHash, e.user, e.key);
    }
  }

  lemma {:induction false} LastKeyIsAgreed(h: seq<Event>, w: Who, key: seq<Byte>)
    requires forall k | KeyReturned(w, k) in h :: k == key
    ensures LastKey(h, w) == if KeySeen(h, w) then key else []
  {
    if h != [] {
      var g, e := h[..|h| - 1], h[|h| - 1];
      assert h == g + [e];
      if e.KeyReturned? && e.who == w {
        assert KeyReturned(w, e.key) in h;
      } else {
        LastKeyIsAgreed(g, w, key);
        assert forall k :: KeyReturned(w, k) in h <==> KeyReturned(w, k) in g;
      }
    }
  }

  /** Some finish of the instance came after its session key, for a user whose slot name fits. */
  ghost predicate FinishAfterKey(h: seq<Event>, w: Who) {
    exists k | 0 <= k < |h| :: h[k].Finished? && h[k].who == w && KeySeen(h[..k], w)
                               && |MapKey(w.biz, h[k].user)| < KEY_LEN
  }

  /** In every honest run, a client that completed by its own events has stored the agreed key itself if and only if
      one of its finishes came after its session key with a slot name that fits; the server has stored it anyway. */
  lemma ClientStoresKeyIff(ua: string, ub: string, moves: seq<Move>, agreed: nat -> seq<Byte>, onA: bool, w: Who)
    requires HonestRun(ApplyKeyAgreement.Start(ua, ub), moves, agreed) && !w.isServer
    requires var s := PairRun(ApplyKeyAgreement.Start(ua, ub), moves);
             OwnComplete((if onA then s.a else s.b).history, w)
    ensures var s := PairRun(ApplyKeyAgreement.Start(ua, ub), moves);
            var (n, p) := if onA then (s.a, s.b) else (s.b, s.a);
            && ServerFiledKey(p.history, w.requestId, agreed(w.requestId))
            && (StoredItself(n.history, w) <==> FinishAfterKey(n.history, w))
            && (forall a, u, key | Stored(w, a, u, key) in n.history :: key == agreed(w.requestId))
  {
    var start := ApplyKeyAgreement.Start(ua, ub);
    StartHolds(ua, ub, agreed);
    PairRunKeeps(start, moves, agreed);
    PairRunFiles(start, moves, agreed);
    var s := PairRun(start, moves);
    var (n, p) := if onA then (s.a, s.b) else (s.b, s.a);
    hide PairRun, HonestRun, AllFiled, Inv, Half;
    OwnCompletionAgrees(n, p, w, agreed);
    OwnKey(n, p, w, agreed);
  }

  lemma FiledIsFullLength(h: seq<Event>, next: nat, r: nat, key: seq<Byte>)
    requires HistoryOk(h, next) && ServerFiledKey(h, r, key)
    ensures |key| == D2D_APPLY_KEY_LEN
  {
    var v: Who, a, u :| Stored(v, a, u, key) in h && v.isServer && v.requestId == r;
    var j :| 0 <= j < |h| && h[j] == Stored(v, a, u, key);
    assert FiledOk(h, j);
  }

  /** With one key ever returned for the request, what was last returned is that key or nothing. */
  lemma KeysAgree(n: Node, p: Node, w: Who, agreed: nat -> seq<Byte>, k: nat)
    requires Half(n, p, agreed) && k <= |n.history|
    ensures var g := n.history[..k]; LastKey(g, w) == if KeySeen(g, w) then agreed(w.requestId) else []
  {
    assert forall x | x in n.history[..k] :: x in n.history;
    LastKeyIsAgreed(n.history[..k], w, agreed(w.requestId));
  }

  lemma OwnKey(n: Node, p: Node, w: Who, agreed: nat -> seq<Byte>)
    requires Inv(n) && Inv(p) && Half(n, p, agreed) && AllFiled(n.history)
    requires ServerFiledKey(p.history, w.requestId, agreed(w.requestId))
    ensures StoredItself(n.history, w) <==> FinishAfterKey(n.history, w)
    ensures forall a, u, key | Stored(w, a, u, key) in n.history :: key == agreed(w.requestId)
  {
    var h, key := n.history, agreed(w.requestId);
    assert HistoryOk(h, n.nextSerial) && HistoryOk(p.history, p.nextSerial);
    hide Inv, Half, AllFiled, LastKey, KeySeen, ServerFiledKey;
    FiledIsFullLength(p.history, p.nextSerial, w.requestId, key);
    StoredItselfIff(h, n.nextSerial, w);
    forall k | 0 <= k < |h| ensures LastKey(h[..k], w) == if KeySeen(h[..k], w) then key else [] {
      KeysAgree(n, p, w, agreed, k);
    }
    forall a, u, x | Stored(w, a, u, x) in h ensures x == key {
      var k :| 0 <= k < |h| && h[k] == Stored(w, a, u, x);
      assert FiledOk(h, k);
    }
    hide HistoryOk, StoredItself, MapKey;
  }

  lemma {:induction false} PairRunFiles(s: Pair, moves: seq<Move>, agreed: nat -> seq<Byte>)
    requires PairInv(s, agreed) && HonestRun(s, moves, agreed) && AllFiled(s.a.history) && AllFiled(s.b.history)
    ensures AllFiled(PairRun(s, moves).a.history) && AllFiled(PairRun(s, moves).b.history)
    decreases |moves|
  {
    if moves != [] {
      var m := moves[0];
      PairStepKeeps(s, m, agreed);
      StepFiles(if m.onA then s.a else s.b, m.input);
      hide Inv, Half, AllFiled, Step, Allowed;
      PairRunFiles(PairStep(s, m), moves[1..], agreed);
    }
  }
}
