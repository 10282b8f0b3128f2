/** Nobody waits for ever: what is listed is always matched by timers and queued results, and a failure reaches
    every instance of its business. */
module ApplyKeyProgress {
  import opened ApplyKeyStore
  import opened ApplyKeyNego
  import opened ApplyKeyNegoProps
  import opened ApplyKeyRuns
  import opened ApplyKeyAnswers

  // ---------- counting by request ----------

  ghost function Listed(insts: seq<Inst>, r: nat): nat {
    if insts == [] then 0 else (if insts[0].who.requestId == r then 1 else 0) + Listed(insts[1..], r)
  }

  ghost function OfBiz(insts: seq<Inst>, b: Biz, r: nat): nat {
    if insts == [] then 0
    else (if insts[0].who.biz == b && insts[0].who.requestId == r then 1 else 0) + OfBiz(insts[1..], b, r)
  }

  ghost function Queue(qs: seq<Queued>, r: nat): nat {
    if qs == [] then 0 else (if qs[0].requestId == r then 1 else 0) + Queue(qs[1..], r)
  }

  ghost function Timers(ts: seq<nat>, r: nat): nat {
    if ts == [] then 0 else (if ts[0] == r then 1 else 0) + Timers(ts[1..], r)
  }

  lemma {:induction false} ListedCat(a: seq<Inst>, b: seq<Inst>, r: nat)
    ensures Listed(a + b, r) == Listed(a, r) + Listed(b, r)
  {
    if a == [] {
      assert a + b == b;
    } else {
      assert (a + b)[1..] == a[1..] + b;
      ListedCat(a[1..], b, r);
    }
  }

  lemma ListedCut(insts: seq<Inst>, k: nat, r: nat)
    requires k < |insts|
    ensures Listed(insts[..k] + insts[k + 1..], r) ==
              Listed(insts, r) - (if insts[k].who.requestId == r then 1 else 0)
  {
    ListedCat(insts[..k], insts[k..], r);
    ListedCat(insts[..k], insts[k + 1..], r);
    assert insts == insts[..k] + insts[k..] && insts[k..][1..] == insts[k + 1..];
  }

  lemma {:induction false} ListedSame(a: seq<Inst>, b: seq<Inst>, r: nat)
    requires |a| == |b| && forall i | 0 <= i < |a| :: SameNode(a[i], b[i])
    ensures Listed(a, r) == Listed(b, r)
  {
    if a != [] {
      assert SameNode(a[0], b[0]);
      assert forall i | 0 <= i < |a| - 1 :: a[1..][i] == a[i + 1] && b[1..][i] == b[i + 1];
      ListedSame(a[1..], b[1..], r);
    }
  }

  lemma {:induction false} NoneListed(insts: seq<Inst>, r: nat)
    ensures Listed(insts, r) == 0 <==> forall i | 0 <= i < |insts| :: insts[i].who.requestId != r
  {
    if insts != [] {
      NoneListed(insts[1..], r);
      assert forall i | 0 <= i < |insts| - 1 :: insts[1..][i] == insts[i + 1];
      assert forall i | 0 < i < |insts| :: insts[i] == insts[1..][i - 1];
    }
  }

  lemma {:induction false} QueueCat(a: seq<Queued>, b: seq<Queued>, r: nat)
    ensures Queue(a + b, r) == Queue(a, r) + Queue(b, r)
  {
    if a == [] {
      assert a + b == b;
    } else {
      assert (a + b)[1..] == a[1..] + b;
      QueueCat(a[1..], b, r);
    }
  }

  lemma QueueCut(qs: seq<Queued>, k: nat, r: nat)
    requires k < |qs|
    ensures Queue(qs[..k] + qs[k + 1..], r) == Queue(qs, r) - (if qs[k].requestId == r then 1 else 0)
  {
    QueueCat(qs[..k], qs[k..], r);
    QueueCat(qs[..k], qs[k + 1..], r);
    assert qs == qs[..k] + qs[k..] && qs[k..][1..] == qs[k + 1..];
  }

  lemma QueueGrows(a: seq<Queued>, b: seq<Queued>, r: nat)
    requires a <= b
    ensures Queue(a, r) <= Queue(b, r)
  {
    QueueCat(a, b[|a|..], r);
    assert b == a + b[|a|..];
  }

  lemma {:induction false} TimersCat(a: seq<nat>, b: seq<nat>, r: nat)
    ensures Timers(a + b, r) == Timers(a, r) + Timers(b, r)
  {
    if a == [] {
      assert a + b == b;
    } else {
      assert (a + b)[1..] == a[1..] + b;
      TimersCat(a[1..], b, r);
    }
  }

  lemma TimersCut(ts: seq<nat>, k: nat, r: nat)
    requires k < |ts|
    ensures Timers(ts[..k] + ts[k + 1..], r) == Timers(ts, r) - (if ts[k] == r then 1 else 0)
  {
    TimersCat(ts[..k], ts[k..], r);
    TimersCat(ts[..k], ts[k + 1..], r);
    assert ts == ts[..k] + ts[k..] && ts[k..][1..] == ts[k + 1..];
  }

  /** A broadcast queues one result for every instance of the business. */
  lemma {:induction false} BroadcastQueues(insts: seq<Inst>, b: Biz, isSuccess: bool, reason: Result, r: nat)
    ensures Queue(ResultsFor(insts, b, isSuccess, reason), r) == OfBiz(insts, b, r)
  {
    if insts != [] {
      BroadcastQueues(insts[1..], b, isSuccess, reason, r);
      var rest := ResultsFor(insts[1..], b, isSuccess, reason);
      if insts[0].who.biz == b {
        assert ([Queued(insts[0].who.requestId, isSuccess, reason)] + rest)[1..] == rest;
      }
    }
  }

  /** All listed instances of the request are of the business. */
  ghost predicate Belongs(insts: seq<Inst>, r: nat, b: Biz) {
    forall i | 0 <= i < |insts| && insts[i].who.requestId == r :: insts[i].who.biz == b
  }

  lemma {:induction false} OfBizCounts(insts: seq<Inst>, b: Biz, r: nat)
    ensures Belongs(insts, r, b) ==> OfBiz(insts, b, r) == Listed(insts, r)
    ensures (exists i :: 0 <= i < |insts| && insts[i].who.biz == b && insts[i].who.requestId == r) ==>
              OfBiz(insts, b, r) > 0
  {
    if insts != [] {
      OfBizCounts(insts[1..], b, r);
      assert forall i | 0 <= i < |insts| - 1 :: insts[1..][i] == insts[i + 1];
      assert forall i | 0 < i < |insts| :: insts[i] == insts[1..][i - 1];
      assert Belongs(insts, r, b) ==> Belongs(insts[1..], r, b);
    }
  }

  // ---------- what the handlers do to the counts ----------

  lemma SameListed(n: Node, n': Node, r: nat)
    requires SameNodes(n, n')
    ensures Listed(n'.insts, r) == Listed(n.insts, r)
  {
    ListedSame(n.insts, n'.insts, r);
  }

  lemma FailedCounts(n: Node, r0: nat, reason: Result, r: nat)
    ensures var n' := OnGenFailed(n, r0, reason);
            && n'.timers == n.timers && Listed(n'.insts, r) == Listed(n.insts, r)
            && Queue(n'.results, r) >= Queue(n.results, r)
            && (r0 == r && Has(n, r) ==> Queue(n'.results, r) > Queue(n.results, r))
            && (Has(n, r0) && Belongs(n.insts, r, n.insts[Find(n.insts, r0)].who.biz) ==>
                  Queue(n'.results, r) >= Queue(n.results, r) + Listed(n.insts, r))
  {
    ResultsKeepNodes(n, r0, reason);
    SameListed(n, OnGenFailed(n, r0, reason), r);
    hide SameNodes;
    if Has(n, r0) {
      var k := Find(n.insts, r0);
      var b := n.insts[k].who.biz;
      var more := ResultsFor(n.insts, b, false, reason);
      QueueCat(n.results, more, r);
      BroadcastQueues(n.insts, b, false, reason, r);
      OfBizCounts(n.insts, b, r);
      assert n.insts[k].who.biz == b && n.insts[k].who.requestId == r0;
    }
    hide Queue, Listed, OfBiz, ResultsFor, Belongs;
  }

  lemma RemoveCounts(n: Node, r0: nat, r: nat)
    ensures var n' := Remove(n, r0);
            && n'.timers == n.timers && n'.results == n.results
            && Listed(n'.insts, r) == Listed(n.insts, r) - (if r0 == r && Has(n, r) then 1 else 0)
  {
    if Has(n, r0) {
      ListedCut(n.insts, Find(n.insts, r0), r);
    }
    hide Listed;
  }

  lemma CreateCounts(n: Node, r0: nat, conn: nat, isServer: bool, b: Biz, peer: string, onOk: bool, onFail: bool,
                     r: nat)
    ensures var n' := Create(n, r0, conn, isServer, b, peer, onOk, onFail);
            && n'.results == n.results
            && Listed(n'.insts, r) == Listed(n.insts, r) + (if r0 == r then 1 else 0)
            && Timers(n'.timers, r) == Timers(n.timers, r) + (if r0 == r then 1 else 0)
  {
    var n' := Create(n, r0, conn, isServer, b, peer, onOk, onFail);
    assert n'.insts[1..] == n.insts;
    TimersCat(n.timers, [r0], r);
  }

  lemma TryStartCounts(n: Node, r0: nat, b: Biz, e: Env, r: nat)
    ensures var n' := TryStart(n, r0, b, e.hashOk, e.hichainRet).0;
            n'.timers == n.timers && n'.results == n.results && Listed(n'.insts, r) == Listed(n.insts, r)
  {
    TryStartKeepsNodes(n, r0, b, e);
    SameListed(n, TryStart(n, r0, b, e.hashOk, e.hichainRet).0, r);
    hide Listed, SameNodes;
  }

  /** Neither side of the balance: how much more is listed than timers and queued results can answer. */
  ghost predicate Balanced(n: Node, r: nat) {
    Listed(n.insts, r) <= Timers(n.timers, r) + Queue(n.results, r)
  }

  /** Queued results alone can answer all that is listed. */
  ghost predicate Covered(n: Node, r: nat) {
    Listed(n.insts, r) <= Queue(n.results, r)
  }

  ghost predicate Creates(x: Input, r: nat) {
    (x.DoGen? || x.DoDeviceId?) && x.r == r
  }

  /** What a step does to the three counts. */
  ghost predicate Counts(n: Node, n': Node, r: nat, timers: int, queue: int, listed: int) {
    && Timers(n'.timers, r) >= Timers(n.timers, r) + timers
    && Queue(n'.results, r) >= Queue(n.results, r) + queue
    && Listed(n'.insts, r) <= Listed(n.insts, r) + listed
  }

  lemma GenCounts(n: Node, x: Input, r: nat)
    requires x.DoGen?
    ensures Counts(n, Step(n, x), r, 0, 0, 0) || (x.r == r && Counts(n, Step(n, x), r, 1, 0, 1))
  {
    hide Create, TryStart, Remove, Listed, Timers, Queue, Find;
    var DoGen(r0, conn, b, peer, ok, fail, e) := x;
    if n.cnt < MAX_INSTANCE_CNT {
      var n1 := Create(n, r0, conn, false, b, peer, ok, fail);
      CreateCounts(n, r0, conn, false, b, peer, ok, fail, r);
      RemoveCounts(n1, r0, r);
      var n2 := Post(n1, DeviceId(r0, Biz(n.udid, e.accountHash, b.kind)));
      TryStartCounts(n2, r0, b, e, r);
      RemoveCounts(TryStart(n2, r0, b, e.hashOk, e.hichainRet).0, r0, r);
    }
  }

  lemma DeviceIdCounts(n: Node, x: Input, r: nat)
    requires x.DoDeviceId?
    ensures Counts(n, Step(n, x), r, 0, 0, 0) || (x.r == r && Counts(n, Step(n, x), r, 1, 0, 1))
  {
    hide Create, TryStart, OnGenFailed, Listed, Timers, Queue, Find;
    var DoDeviceId(r0, conn, b, e) := x;
    FailedCounts(n, r0, InstanceFull, r);
    if n.cnt < MAX_INSTANCE_CNT {
      var n1 := Create(n, r0, conn, true, b, "", false, false);
      CreateCounts(n, r0, conn, true, b, "", false, false, r);
      var (n2, ret) := TryStart(n1, r0, b, e.hashOk, e.hichainRet);
      TryStartCounts(n1, r0, b, e, r);
      FailedCounts(n2, r0, ret, r);
    }
  }

  lemma TimerCounts(n: Node, t: nat, r: nat)
    requires t < |n.timers|
    ensures var n' := Step(n, DoTimer(t));
            if n.timers[t] == r then Counts(n, n', r, -1, if Has(n, r) then 1 else 0, 0) else Counts(n, n', r, 0, 0, 0)
  {
    hide OnGenFailed, Listed, Timers, Queue, Find;
    TimersCut(n.timers, t, r);
    FailedCounts(n.(timers := n.timers[..t] + n.timers[t + 1..]), n.timers[t], StartTimeout, r);
  }

  lemma ResultCounts(n: Node, q: nat, user: int, r: nat)
    requires q < |n.results|
    ensures var n' := Step(n, DoResult(q, user));
            if n.results[q].requestId == r then Counts(n, n', r, 0, -1, if Has(n, r) then -1 else 0)
            else Counts(n, n', r, 0, 0, 0)
  {
    ServedIsTold(n, q, user);
    hide Step, Listed, Timers, Queue, Find, Remove, Told;
    QueueCut(n.results, q, r);
    var r0 := n.results[q].requestId;
    RemoveCounts(n, r0, r);
    RemoveCounts(Remove(n, r0), r0, r);
    RemoveIs(n, r0);
  }

  lemma OthersQueue(n: Node, x: Input)
    requires !x.DoGen? && !x.DoDeviceId? && !x.DoResult? && !x.DoDisconnect? && !x.DoTimer?
    ensures var n' := Step(n, x); n'.timers == n.timers && n.results <= n'.results
  {
    hide OnGenFailed, OnGenSuccess, AccountMatches, PutFinish, PutAck, PutKey, Delete;
    match x
    case DoAuthData(r, e) => ResultsQueue(n, r, e.hichainRet);
    case DoUnknownData(r) => ResultsQueue(n, r, HandleDataFail);
    case DoError(r, code) => ResultsQueue(n, r, code);
    case DoCloseAck(r, e) =>
      if Has(n, r) {
        PutsQueue(n, r, [], "", 0, 0);
        ResultsQueue(PutAck(n, r), r, SendFail);
        ResultsQueue(Post(PutAck(n, r), CloseAck(r)), r, SendFail);
      }
    case DoFinished(r, acct, e) =>
      ResultsQueue(n, r, StrcmpErr);
      if Has(n, r) {
        PutsQueue(n, r, [], acct, e.user, e.now);
        var n1 := PutFinish(n, r, acct, e.user, e.now).0;
        ResultsQueue(n1, r, SendFail);
        ResultsQueue(Post(n1, CloseAck(r)), r, SendFail);
      }
    case DoSessionKey(r, key) => PutsQueue(n, r, key, "", 0, 0);
    case _ =>
  }

  lemma ResultsQueue(n: Node, r: nat, reason: Result)
    ensures var n' := OnGenFailed(n, r, reason); n'.timers == n.timers && n.results <= n'.results
    ensures var n' := OnGenSuccess(n, r); n'.timers == n.timers && n.results <= n'.results
  {
  }

  lemma PutsQueue(n: Node, r: nat, key: seq<Byte>, acct: string, user: int, now: nat)
    ensures var n' := PutKey(n, r, key); n'.timers == n.timers && n'.results == n.results
    ensures Has(n, r) ==> var n' := PutAck(n, r); n'.timers == n.timers && n'.results == n.results
    ensures Has(n, r) ==>
              var n' := PutFinish(n, r, acct, user, now).0; n'.timers == n.timers && n'.results == n.results
  {
  }

  lemma StepCounts(n: Node, x: Input, r: nat)
    ensures Balanced(n, r) ==> Balanced(Step(n, x), r)
    ensures Covered(n, r) && !Creates(x, r) ==> Covered(Step(n, x), r)
  {
    hide Step, Listed, Timers, Queue, Find, Remove;
    NoneListed(n.insts, r);
    FoundIfAny(n.insts, r);
    match x
    case DoGen(_, _, _, _, _, _, _) => GenCounts(n, x, r);
    case DoDeviceId(_, _, _, _) => DeviceIdCounts(n, x, r);
    case DoTimer(t) =>
      if t < |n.timers| {
        TimerCounts(n, t, r);
      } else {
        NothingHappens(n, x);
      }
    case DoResult(q, user) =>
      if q < |n.results| {
        ResultCounts(n, q, user, r);
      } else {
        NothingHappens(n, x);
      }
    case DoDisconnect(conn) => DisconnectCounts(n, conn, r);
    case _ =>
      OthersKeepNodes(n, x);
      OthersQueue(n, x);
      SameListed(n, Step(n, x), r);
      QueueGrows(n.results, Step(n, x).results, r);
  }

  lemma FoundIfAny(insts: seq<Inst>, r: nat)
    ensures Find(insts, r) == |insts| <==> forall i | 0 <= i < |insts| :: insts[i].who.requestId != r
  {
  }

  lemma NothingHappens(n: Node, x: Input)
    requires (x.DoTimer? && x.t >= |n.timers|) || (x.DoResult? && x.q >= |n.results|)
    ensures Step(n, x) == n
  {
  }

  lemma DisconnectCounts(n: Node, conn: nat, r: nat)
    ensures Counts(n, Step(n, DoDisconnect(conn)), r, 0, 0, 0)
  {
    hide Listed, Timers, Queue, Remove, Find, FindConn;
    var k := FindConn(n.insts, conn);
    if k < |n.insts| {
      RemoveCounts(n, n.insts[k].who.requestId, r);
    }
  }

  // ---------- over whole runs ----------

  lemma {:induction false} RunBalanced(n: Node, inputs: seq<Input>, r: nat)
    requires Balanced(n, r)
    ensures Balanced(Run(n, inputs), r)
    decreases |inputs|
  {
    hide Step, Balanced;
    if inputs != [] {
      StepCounts(n, inputs[0], r);
      RunBalanced(Step(n, inputs[0]), inputs[1..], r);
    }
  }

  lemma {:induction false} RunCovered(n: Node, inputs: seq<Input>, r: nat)
    requires Covered(n, r) && forall x | x in inputs :: !Creates(x, r)
    ensures Covered(Run(n, inputs), r)
    decreases |inputs|
  {
    hide Step, Covered, Creates;
    if inputs != [] {
      StepCounts(n, inputs[0], r);
      RunCovered(Step(n, inputs[0]), inputs[1..], r);
    }
  }

  /** In every run whatever, with ids used as often as anybody likes: every listed instance of a request has a timer of
      that request still running or a result of it still queued. So when no timer runs and no result is queued, the
      list is empty: no request is ever left behind. */
  lemma NobodyIsStranded(udid: string, inputs: seq<Input>, r: nat)
    ensures var n := Run(Initial(udid), inputs);
            && Listed(n.insts, r) <= Timers(n.timers, r) + Queue(n.results, r)
            && (n.timers == [] && n.results == [] ==> n.insts == [])
  {
    var n := Run(Initial(udid), inputs);
    RunBalanced(Initial(udid), inputs, r);
    if n.timers == [] && n.results == [] && n.insts != [] {
      var r0 := n.insts[0].who.requestId;
      RunBalanced(Initial(udid), inputs, r0);
      NoneListed(n.insts, r0);
    }
    hide Run;
  }

  /** A timer, an error or a message names a listed request and fails it with this reason. */
  ghost predicate Fails(n: Node, x: Input, r: nat, reason: Result) {
    && Has(n, r)
    && match x
       case DoTimer(t) => t < |n.timers| && n.timers[t] == r && reason == StartTimeout
       case DoError(r', code) => r' == r && reason == code
       case DoUnknownData(r') => r' == r && reason == HandleDataFail
       case DoAuthData(r', e) => r' == r && !e.hichainRet.Okay? && reason == e.hichainRet
       case DoFinished(r', acct, e) =>
         r' == r && !AccountMatches(n.insts[Find(n.insts, r)].who, acct) && reason == StrcmpErr
       case DoCloseAck(r', e) =>
         r' == r && !n.insts[Find(n.insts, r)].who.isServer && !e.sendOk && reason == SendFail
       case _ => false
  }

  lemma FailsIs(n: Node, x: Input, r: nat, reason: Result)
    requires Fails(n, x, r, reason)
    ensures Step(n, x) == OnGenFailed(Named(n, x), r, reason) && SameNodes(n, Named(n, x))
  {
    if x.DoCloseAck? {
      PutsKeepNodes(n, r, [], "", 0, 0);
    }
    hide OnGenFailed, AccountMatches, PutAck;
  }

  /** The state the failure is told from: the timer is used up, the close-ack has been seen. */
  ghost function Named(n: Node, x: Input): Node {
    if x.DoTimer? && x.t < |n.timers| then n.(timers := n.timers[..x.t] + n.timers[x.t + 1..])
    else if x.DoCloseAck? && Has(n, x.r) then PutAck(n, x.r)
    else n
  }

  /** A failure of a listed request reaches every instance of its business. Once the queued results have been served,
      such an instance is gone, if no instance with its id is of another business and none was created meanwhile; and
      unless a disconnect or a missing key dropped it, it was served a result. Then an instance with both callbacks has
      been called back exactly once: with the reason, if the first result served to it was a failure, and otherwise
      with a success. */
  lemma {:induction false} FailureReachesAll(udid: string, before: seq<Input>, x: Input, r: nat, reason: Result,
                                             w: Who, onOk: bool, onFail: bool, after: seq<Input>)
    requires var n := Run(Initial(udid), before);
             && Fails(n, x, r, reason) && Waits(n, w, onOk, onFail)
             && w.biz == n.insts[Find(n.insts, r)].who.biz && Belongs(n.insts, w.requestId, w.biz)
    requires forall y | y in after :: !Creates(y, w.requestId)
    requires Run(Step(Run(Initial(udid), before), x), after).results == []
    ensures var n1 := Step(Run(Initial(udid), before), x);
            var n2 := Run(n1, after);
            && Gone(n2, w.serial)
            && (NoneDrops(n1, after, w.requestId) ==>
                  && FirstServed(n1, after, w).Served?
                  && ToldJust(n2, w.serial, FirstServed(n1, after, w).told)
                  && var res := FirstServed(n1, after, w).res;
                  && res.requestId == w.requestId
                  && (onFail && !res.isSuccess ==>
                        CallCount(n2.callbacks, w.serial) == 1 && Called(w, Failed(res.reason)) in n2.callbacks)
                  && (onOk && res.isSuccess ==>
                        && CallCount(n2.callbacks, w.serial) == 1
                        && exists key :: Called(w, Success(key)) in n2.callbacks))
  {
    var n := Run(Initial(udid), before);
    RunKeeps(Initial(udid), before);
    hide Run, Waits, Fails, Listed, Queue, Inv, Find, Belongs, NoneDrops, ToldJust;
    var n1 := Step(n, x);
    StepKeeps(n, x);
    FailsIs(n, x, r, reason);
    FailureCovers(n, x, r, reason, w.requestId);
    RunCovered(n1, after, w.requestId);
    var n2 := Run(n1, after);
    assert Queue(n2.results, w.requestId) == 0 by { EmptyQueue(w.requestId); }
    NoneListed(n2.insts, w.requestId);
    FailedStillWaits(n, x, r, reason, w, onOk, onFail);
    FirstServedDecides(n1, after, w, onOk, onFail);
    NotListedNotWaiting(n2, w, onOk, onFail);
    if NoneDrops(n1, after, w.requestId) {
      ServedSays(n1, after, w, onOk, onFail);
      JustThat(n2, w, FirstServed(n1, after, w).told);
    }
  }

  lemma JustThat(n: Node, w: Who, told: seq<Called>)
    requires ToldJust(n, w.serial, told)
    ensures told != [] ==> told[0] in n.callbacks && CallCount(n.callbacks, w.serial) == 1
  {
  }

  /** What the first served result says. */
  lemma {:induction false} ServedSays(n: Node, inputs: seq<Input>, w: Who, onOk: bool, onFail: bool)
    requires Inv(n) && Waits(n, w, onOk, onFail) && NoneDrops(n, inputs, w.requestId)
    requires FirstServed(n, inputs, w).Served?
    ensures var Served(told, res) := FirstServed(n, inputs, w);
            && res.requestId == w.requestId
            && (onFail && !res.isSuccess ==> told == [Called(w, Failed(res.reason))])
            && (onOk && res.isSuccess ==> exists key :: told == [Called(w, Success(key))])
    decreases |inputs|
  {
    var x := inputs[0];
    InvSerials(n);
    StepKeeps(n, x);
    StepOutcomes(n, x, w, onOk, onFail);
    hide Step, Inv, Serials;
    if ServesIt(n, x, w) {
      ServedOnceSays(n, x, w, onOk, onFail);
    } else if Waits(Step(n, x), w, onOk, onFail) {
      ServedSays(Step(n, x), inputs[1..], w, onOk, onFail);
    }
  }

  lemma ServedOnceSays(n: Node, x: Input, w: Who, onOk: bool, onFail: bool)
    requires Serials(n) && Waits(n, w, onOk, onFail) && ServesIt(n, x, w) && !Drops(n, x, w.requestId)
    ensures var res := n.results[x.q];
            var told := Told(n, n.insts[Find(n.insts, res.requestId)], res, x.user);
            && res.requestId == w.requestId
            && (onFail && !res.isSuccess ==> told == [Called(w, Failed(res.reason))])
            && (onOk && res.isSuccess ==> exists key :: told == [Called(w, Success(key))])
  {
    hide MapKey;
    var res := n.results[x.q];
    var k := Find(n.insts, res.requestId);
    assert n.insts[k].who.requestId == res.requestId;
    var i :| 0 <= i < |n.insts| && IsIt(n.insts[i], w, onOk, onFail);
    assert i == k;
    hide Find;
    if onOk && res.isSuccess {
      var told := Told(n, n.insts[k], res, x.user);
      assert told == [Called(w, Success(told[0].outcome.key))];
    }
  }

  lemma EmptyQueue(r: nat)
    ensures Queue([], r) == 0
  {
  }

  lemma NotListedNotWaiting(n: Node, w: Who, onOk: bool, onFail: bool)
    requires forall i | 0 <= i < |n.insts| :: n.insts[i].who.requestId != w.requestId
    ensures !Waits(n, w, onOk, onFail)
  {
  }

  lemma FailureCovers(n: Node, x: Input, r: nat, reason: Result, s: nat)
    requires Fails(n, x, r, reason) && Belongs(n.insts, s, n.insts[Find(n.insts, r)].who.biz)
    ensures Covered(Step(n, x), s)
  {
    FailsIs(n, x, r, reason);
    var m := Named(n, x);
    SameFound(n.insts, m.insts, r);
    hide Step, OnGenFailed, Listed, Queue, Find, Named;
    FailedCounts(m, r, reason, s);
  }

  lemma {:induction false} SameFound(a: seq<Inst>, b: seq<Inst>, r: nat)
    requires |a| == |b| && forall i | 0 <= i < |a| :: SameNode(a[i], b[i])
    ensures Find(a, r) == Find(b, r)
  {
    if a != [] {
      assert SameNode(a[0], b[0]);
      SameFound(a[1..], b[1..], r);
    }
  }

  lemma FailedStillWaits(n: Node, x: Input, r: nat, reason: Result, w: Who, onOk: bool, onFail: bool)
    requires Fails(n, x, r, reason) && Waits(n, w, onOk, onFail)
    ensures Waits(Step(n, x), w, onOk, onFail)
  {
    hide Step, Waits;
    OthersKeepNodes(n, x);
    SameNodesWait(n, Step(n, x), w, onOk, onFail);
  }

  // ---------- when an id is used again ----------

  /** An accepted request is the new head of the list, with its callbacks and nothing seen yet. */
  lemma AcceptedIsHead(n: Node, x: Input)
    requires x.DoGen? && GenApplyKey(n, x.r, x.conn, x.b, x.peer, x.onOk, x.onFail, x.e).1.Okay?
    ensures var n' := Step(n, x);
            && |n'.insts| == |n.insts| + 1 && n'.insts[1..] == n.insts
            && IsIt(n'.insts[0], Who(n.nextSerial, x.r, false, x.b, x.peer), x.onOk, x.onFail)
            && n'.insts[0].connId == x.conn && n'.insts[0].key == []
            && !n'.insts[0].isRecvSessionKey && !n'.insts[0].isRecvFinish && !n'.insts[0].isRecvCloseAck
            && n'.timers == n.timers + [x.r]
            && n'.sent == n.sent + [DeviceId(x.r, Biz(n.udid, x.e.accountHash, x.b.kind))]
            && n'.results == n.results && n'.callbacks == n.callbacks && n'.store == n.store
  {
    var DoGen(r, conn, b, peer, ok, fail, e) := x;
    var n1 := Create(n, r, conn, false, b, peer, ok, fail);
    assert n1.insts[1..] == n.insts;
    var n2 := Post(n1, DeviceId(r, Biz(n.udid, e.accountHash, b.kind)));
    HeadIsFound(n2, r);
    assert n2.insts[0 := n2.insts[0].(state := Start)][1..] == n.insts;
    hide PutStart, StartedCount, Less, Remove;
  }

  /** Why no instance with the id may be created meanwhile: the new one takes the result, and the one that failed is
      still listed, untold, with nothing queued. */
  lemma NewInstanceTakesTheResult(udid: string, r: nat, b: Biz, peer: string, code: Result, user: int, e: Env)
    requires e.hashOk && e.sendOk && e.hichainRet.Okay?
    ensures var gen := DoGen(r, 0, b, peer, true, true, e);
            var n := Run(Initial(udid), [gen, DoError(r, code), gen, DoResult(0, user)]);
            && n.results == [] && Waits(n, Who(0, r, false, b, peer), true, true)
            && n.callbacks == [Called(Who(1, r, false, b, peer), Failed(code))]
  {
    var gen, err, serve := DoGen(r, 0, b, peer, true, true, e), DoError(r, code), DoResult(0, user);
    var n0 := Initial(udid);
    TryStartOkay(n0, gen);
    AcceptedIsHead(n0, gen);
    var n1 := Step(n0, gen);
    ErrorQueues(n1, r, b, code);
    var n2 := Step(n1, err);
    TryStartOkay(n2, gen);
    AcceptedIsHead(n2, gen);
    CreatedSerial(n0, gen);
    var n3 := Step(n2, gen);
    assert Find(n3.insts, r) == 0;
    ServedIsTold(n3, 0, user);
    var n4 := Step(n3, serve);
    hide Step;
    assert n4.insts == n2.insts && n4.results == [];
    assert IsIt(n4.insts[0], Who(0, r, false, b, peer), true, true);
    RunFour(n0, gen, err, gen, serve);
  }

  lemma CreatedSerial(n: Node, x: Input)
    requires x.DoGen? && n.cnt < MAX_INSTANCE_CNT
    ensures Step(n, x).nextSerial == n.nextSerial + 1
  {
    hide StartedCount, Less, Find;
  }

  lemma TryStartOkay(n: Node, x: Input)
    requires x.DoGen? && x.e.hashOk && x.e.sendOk && x.e.hichainRet.Okay? && n.cnt < MAX_INSTANCE_CNT
    ensures GenApplyKey(n, x.r, x.conn, x.b, x.peer, x.onOk, x.onFail, x.e).1.Okay?
    ensures Step(n, x).cnt == n.cnt + 1
  {
    hide StartedCount, Less, Find, Remove;
  }

  lemma ErrorQueues(n: Node, r: nat, b: Biz, code: Result)
    requires |n.insts| == 1 && n.insts[0].who.requestId == r && n.insts[0].who.biz == b && n.results == []
    ensures Step(n, DoError(r, code)) == n.(results := [Queued(r, false, code)])
  {
    assert Find(n.insts, r) == 0;
    assert n.insts[1..] == [];
    assert ResultsFor(n.insts, b, false, code) == [Queued(r, false, code)];
    assert MarkAll(n.insts, b, false) == n.insts;
  }

  lemma RunFour(n: Node, x: Input, y: Input, z: Input, u: Input)
    ensures Run(n, [x, y, z, u]) == Step(Step(Step(Step(n, x), y), z), u)
  {
    hide Step;
    assert [x, y, z, u][1..] == [y, z, u] && [y, z, u][1..] == [z, u];
    RunTwo(Step(Step(n, x), y), z, u);
  }

  lemma RunTwo(n: Node, x: Input, y: Input)
    ensures Run(n, [x, y]) == Step(Step(n, x), y)
  {
    hide Step;
    assert [x, y][1..] == [y] && [y][1..] == [];
    assert Run(Step(n, x), [y]) == Step(Step(n, x), y);
  }
}
