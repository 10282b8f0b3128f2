/** What the callers of the negotiation are told: by which served result, with what, and that nobody is left
    waiting. */
module ApplyKeyAnswers {
  import opened ApplyKeyStore
  import opened ApplyKeyNego
  import opened ApplyKeyNegoProps
  import opened ApplyKeyRuns

  // ---------- one served result ----------

  /** What serving a result tells an instance: a failure its reason, a success the stored key; each only if the
      callback is there, and a success only if the slot is filled. */
  ghost function Told(n: Node, i: Inst, res: Queued, user: int): seq<Called> {
    var slot := MapKey(i.who.biz, user);
    if !res.isSuccess && i.hasOnFailed then [Called(i.who, Failed(res.reason))]
    else if res.isSuccess && i.hasOnSuccess && |slot| < 100 && slot in n.store then
      [Called(i.who, Success(n.store[slot].key))]
    else []
  }

  /** A success that finds no key; the source then deletes once more than usual. */
  ghost predicate KeyMissing(n: Node, i: Inst, res: Queued, user: int) {
    res.isSuccess && i.hasOnSuccess && Told(n, i, res, user) == []
  }

  /** Serving a result takes exactly that result off the queue. If its request is listed, the first instance of the
      request is told and leaves the list, and nothing else changes, but for a second deletion when a success finds no
      key. */
  lemma ServedIsTold(n: Node, q: nat, user: int)
    requires q < |n.results|
    ensures var res, k := n.results[q], Find(n.insts, n.results[q].requestId);
            var n' := Step(n, DoResult(q, user));
            var rest := n.results[..q] + n.results[q + 1..];
            if k == |n.insts| then n' == n.(results := rest)
            else
              && n' == n.(results := rest, callbacks := n.callbacks + Told(n, n.insts[k], res, user),
                          insts := n'.insts, cnt := n'.cnt)
              && (if KeyMissing(n, n.insts[k], res, user)
                  then n'.insts == Remove(Remove(n, res.requestId), res.requestId).insts
                  else n'.insts == n.insts[..k] + n.insts[k + 1..])
  {
    hide Find, MapKey;
  }

  // ---------- one instance over a run ----------

  /** The instance is listed, with these callbacks. */
  ghost predicate Waits(n: Node, w: Who, onOk: bool, onFail: bool) {
    exists i :: 0 <= i < |n.insts| && IsIt(n.insts[i], w, onOk, onFail)
  }

  ghost predicate IsIt(i: Inst, w: Who, onOk: bool, onFail: bool) {
    i.who == w && i.hasOnSuccess == onOk && i.hasOnFailed == onFail
  }

  /** The input serves a result to this very instance. */
  ghost predicate ServesIt(n: Node, x: Input, w: Who) {
    x.DoResult? && x.q < |n.results| &&
    var k := Find(n.insts, n.results[x.q].requestId);
    k < |n.insts| && n.insts[k].who == w
  }

  datatype Answer = NoAnswer | Served(told: seq<Called>, res: Queued)

  /** The first result that is served to an instance, and what it tells. */
  ghost function FirstServed(n: Node, inputs: seq<Input>, w: Who): Answer
    decreases |inputs|
  {
    if inputs == [] then NoAnswer
    else if ServesIt(n, inputs[0], w) then
      var res := n.results[inputs[0].q];
      Served(Told(n, n.insts[Find(n.insts, res.requestId)], res, inputs[0].user), res)
    else FirstServed(Step(n, inputs[0]), inputs[1..], w)
  }

  lemma SameNodesWait(n: Node, n': Node, w: Who, onOk: bool, onFail: bool)
    requires Waits(n, w, onOk, onFail) && SameNodes(n, n')
    ensures Waits(n', w, onOk, onFail)
  {
    var i :| 0 <= i < |n.insts| && IsIt(n.insts[i], w, onOk, onFail);
    assert SameNode(n.insts[i], n'.insts[i]);
  }

  /** The same list, or the same behind one new node. */
  lemma CreateWaits(n: Node, n': Node, w: Who, onOk: bool, onFail: bool)
    requires Waits(n, w, onOk, onFail) && |n'.insts| == |n.insts| + 1
    requires forall i | 0 <= i < |n.insts| :: SameNode(n.insts[i], n'.insts[i + 1])
    ensures Waits(n', w, onOk, onFail)
  {
    var i :| 0 <= i < |n.insts| && IsIt(n.insts[i], w, onOk, onFail);
    assert SameNode(n.insts[i], n'.insts[i + 1]);
  }

  lemma GenWaits(n: Node, x: Input, w: Who, onOk: bool, onFail: bool)
    requires x.DoGen? && Waits(n, w, onOk, onFail)
    ensures var n' := Step(n, x); Waits(n', w, onOk, onFail) && n'.callbacks == n.callbacks
  {
    hide Waits, Create, TryStart, Remove;
    var DoGen(r, conn, b, peer, ok, fail, e) := x;
    if !GenApplyKey(n, r, conn, b, peer, ok, fail, e).1.Okay? {
      RefusedRequestLeavesNothing(n, r, conn, b, peer, ok, fail, e);
      hide GenApplyKey;
      SameListWaits(Step(n, x), n, w, onOk, onFail);
    } else {
      var n1 := Create(n, r, conn, false, b, peer, ok, fail);
      CreatedBehind(n, r, conn, false, b, peer, ok, fail);
      CreateWaits(n, n1, w, onOk, onFail);
      var n2 := Post(n1, DeviceId(r, Biz(n.udid, e.accountHash, b.kind)));
      SameListWaits(n2, n1, w, onOk, onFail);
      TryStartKeepsNodes(n2, r, b, e);
      SameNodesWait(n2, TryStart(n2, r, b, e.hashOk, e.hichainRet).0, w, onOk, onFail);
    }
  }

  lemma DeviceIdWaits(n: Node, x: Input, w: Who, onOk: bool, onFail: bool)
    requires x.DoDeviceId? && Waits(n, w, onOk, onFail)
    ensures var n' := Step(n, x); Waits(n', w, onOk, onFail) && n'.callbacks == n.callbacks
  {
    hide Waits, OnGenFailed, Create, TryStart;
    var DoDeviceId(r, conn, b, e) := x;
    if n.cnt >= MAX_INSTANCE_CNT {
      ResultsKeepNodes(n, r, InstanceFull);
      SameNodesWait(n, OnGenFailed(n, r, InstanceFull), w, onOk, onFail);
    } else {
      var n1 := Create(n, r, conn, true, b, "", false, false);
      CreatedBehind(n, r, conn, true, b, "", false, false);
      CreateWaits(n, n1, w, onOk, onFail);
      var (n2, ret) := TryStart(n1, r, b, e.hashOk, e.hichainRet);
      TryStartKeepsNodes(n1, r, b, e);
      SameNodesWait(n1, n2, w, onOk, onFail);
      if !ret.Okay? {
        ResultsKeepNodes(n2, r, ret);
        SameNodesWait(n2, OnGenFailed(n2, r, ret), w, onOk, onFail);
      }
    }
  }

  lemma CreatedBehind(n: Node, r: nat, conn: nat, isServer: bool, b: Biz, peer: string, onOk: bool, onFail: bool)
    ensures var n' := Create(n, r, conn, isServer, b, peer, onOk, onFail);
            && n'.callbacks == n.callbacks && |n'.insts| == |n.insts| + 1
            && forall i | 0 <= i < |n.insts| :: SameNode(n.insts[i], n'.insts[i + 1])
  {
  }

  lemma TryStartKeepsNodes(n: Node, r: nat, b: Biz, e: Env)
    ensures SameNodes(n, TryStart(n, r, b, e.hashOk, e.hichainRet).0)
  {
    PutsKeepNodes(n, r, [], "", 0, 0);
    hide PutStart;
  }

  /** List nodes have their own serials, all given out already. */
  ghost predicate Serials(n: Node) {
    && (forall i, j | 0 <= i < j < |n.insts| :: n.insts[i].who.serial != n.insts[j].who.serial)
    && (forall i | 0 <= i < |n.insts| :: n.insts[i].who.serial < n.nextSerial)
  }

  lemma InvSerials(n: Node)
    requires Inv(n)
    ensures Serials(n)
    ensures forall c, i | c in n.callbacks && 0 <= i < |n.insts| :: n.insts[i].who.serial != c.who.serial
  {
    hide StoreOk, ResultsOk, AllSentOk, HistoryOk, StartsOk;
  }

  function Cut(insts: seq<Inst>, k: nat): seq<Inst>
    requires k < |insts|
  {
    insts[..k] + insts[k + 1..]
  }

  lemma CutAt(insts: seq<Inst>, k: nat, j: nat)
    requires k < |insts| && j < |insts| - 1
    ensures |Cut(insts, k)| == |insts| - 1 && Cut(insts, k)[j] == insts[if j < k then j else j + 1]
  {
  }

  lemma CutSerials(n: Node, k: nat)
    requires Serials(n) && k < |n.insts|
    ensures Serials(n.(insts := Cut(n.insts, k)))
    ensures Gone(n.(insts := Cut(n.insts, k)), n.insts[k].who.serial)
  {
    var m := Cut(n.insts, k);
    forall j | 0 <= j < |n.insts| - 1 ensures |m| == |n.insts| - 1 && m[j] == n.insts[if j < k then j else j + 1] {
      CutAt(n.insts, k, j);
    }
    assert |m| == |n.insts| - 1;
    hide Cut;
  }

  lemma CutWaits(n: Node, k: nat, w: Who, onOk: bool, onFail: bool)
    requires k < |n.insts| && n.insts[k].who != w && Waits(n, w, onOk, onFail)
    ensures Waits(n.(insts := Cut(n.insts, k)), w, onOk, onFail)
  {
    var i :| 0 <= i < |n.insts| && IsIt(n.insts[i], w, onOk, onFail);
    CutAt(n.insts, k, if i < k then i else i - 1);
  }

  /** Deleting the first instance of a request: every other one stays. */
  lemma RemoveWaits(n: Node, r: nat, w: Who, onOk: bool, onFail: bool)
    requires Serials(n) && Waits(n, w, onOk, onFail)
    ensures var n', k := Remove(n, r), Find(n.insts, r);
            && Serials(n')
            && if k < |n.insts| && n.insts[k].who == w then Gone(n', w.serial) else Waits(n', w, onOk, onFail)
  {
    var k := Find(n.insts, r);
    if k < |n.insts| {
      assert Remove(n, r) == n.(insts := Cut(n.insts, k), cnt := n.cnt - 1);
      hide Find, Cut, Remove;
      CutSerials(n, k);
      if n.insts[k].who != w {
        CutWaits(n, k, w, onOk, onFail);
      }
    }
  }

  /** The input deletes an instance of the request without telling it anything: a disconnect, or a success that
      finds no key. */
  ghost predicate Drops(n: Node, x: Input, r: nat) {
    || (x.DoDisconnect? && var k := FindConn(n.insts, x.conn); k < |n.insts| && n.insts[k].who.requestId == r)
    || (x.DoResult? && x.q < |n.results| && n.results[x.q].requestId == r &&
        var k := Find(n.insts, r); k < |n.insts| && KeyMissing(n, n.insts[k], n.results[x.q], x.user))
  }

  /** What one step can do to a waiting instance: leave it waiting and untold; serve it a result, and then it is told
      what the result says and is gone; or drop it untold. */
  ghost predicate Outcomes(n: Node, x: Input, n': Node, w: Who, onOk: bool, onFail: bool) {
    if ServesIt(n, x, w) then
      var res := n.results[x.q];
      && n'.callbacks == n.callbacks + Told(n, n.insts[Find(n.insts, res.requestId)], res, x.user)
      && Gone(n', w.serial)
    else
      && (Waits(n', w, onOk, onFail) || (Gone(n', w.serial) && Drops(n, x, w.requestId)))
      && (n'.callbacks == n.callbacks
          || exists c: Called :: n'.callbacks == n.callbacks + [c] && c.who.serial != w.serial)
  }

  lemma ResultOutcomes(n: Node, x: Input, w: Who, onOk: bool, onFail: bool)
    requires x.DoResult? && x.q < |n.results| && Serials(n) && Waits(n, w, onOk, onFail)
    ensures Outcomes(n, x, Step(n, x), w, onOk, onFail)
  {
    hide Step, Told, Remove, Find, Serials, Waits, Gone;
    var res := n.results[x.q];
    var r, k := res.requestId, Find(n.insts, res.requestId);
    ServedIsTold(n, x.q, x.user);
    var n' := Step(n, x);
    if k < |n.insts| {
      RemoveIs(n, r);
      RemoveWaits(n, r, w, onOk, onFail);
      if n.insts[k].who == w {
        TwiceGone(n, r, w.serial);
        var m := if KeyMissing(n, n.insts[k], res, x.user) then Remove(Remove(n, r), r) else Remove(n, r);
        SameListGone(n', m, w.serial);
      } else {
        SerialsTell(n, k, w, onOk, onFail);
        ToldIsOne(n, n.insts[k], res, x.user);
        RemoveWaits(Remove(n, r), r, w, onOk, onFail);
        OthersOutcome(n, x, n', w, onOk, onFail, k);
      }
    } else {
      SameListWaits(n', n, w, onOk, onFail);
    }
  }

  /** The result goes to another instance. */
  lemma OthersOutcome(n: Node, x: Input, n': Node, w: Who, onOk: bool, onFail: bool, k: nat)
    requires x.DoResult? && x.q < |n.results| && k == Find(n.insts, n.results[x.q].requestId) < |n.insts|
    requires n.insts[k].who != w && n.insts[k].who.serial != w.serial
    requires var r, told := n.results[x.q].requestId, Told(n, n.insts[k], n.results[x.q], x.user);
             && n'.callbacks == n.callbacks + told
             && (told == [] || exists c: Called :: told == [c] && c.who == n.insts[k].who)
             && n'.nextSerial == n.nextSerial
             && Waits(Remove(n, r), w, onOk, onFail)
             && (if KeyMissing(n, n.insts[k], n.results[x.q], x.user)
                 then n'.insts == Remove(Remove(n, r), r).insts
                 else n'.insts == Remove(n, r).insts)
    requires var m := Remove(n, n.results[x.q].requestId);
             var m', j := Remove(m, n.results[x.q].requestId), Find(m.insts, n.results[x.q].requestId);
             && m'.nextSerial == n.nextSerial
             && if j < |m.insts| && m.insts[j].who == w then Gone(m', w.serial) else Waits(m', w, onOk, onFail)
    ensures Outcomes(n, x, n', w, onOk, onFail)
  {
    hide Told, Remove;
  }

  lemma ToldIsOne(n: Node, i: Inst, res: Queued, user: int)
    ensures var told := Told(n, i, res, user); told == [] || exists c: Called :: told == [c] && c.who == i.who
  {
    hide MapKey;
    var told := Told(n, i, res, user);
    if told != [] {
      assert told == [told[0]] && told[0].who == i.who;
    }
  }

  lemma RemoveIs(n: Node, r: nat)
    ensures var k, n' := Find(n.insts, r), Remove(n, r);
            && n'.nextSerial == n.nextSerial && Remove(n', r).nextSerial == n.nextSerial
            && (k < |n.insts| ==> n'.insts == n.insts[..k] + n.insts[k + 1..])
  {
  }

  lemma SameListGone(n: Node, m: Node, serial: nat)
    requires n.insts == m.insts && n.nextSerial == m.nextSerial && Gone(m, serial)
    ensures Gone(n, serial)
  {
  }

  lemma SameListWaits(n: Node, m: Node, w: Who, onOk: bool, onFail: bool)
    requires n.insts == m.insts && Waits(m, w, onOk, onFail)
    ensures Waits(n, w, onOk, onFail)
  {
  }

  lemma TwiceGone(n: Node, r: nat, serial: nat)
    requires Gone(Remove(n, r), serial)
    ensures Gone(Remove(Remove(n, r), r), serial)
  {
    RemoveKeepsGone(Remove(n, r), r, serial);
  }

  lemma SerialsTell(n: Node, k: nat, w: Who, onOk: bool, onFail: bool)
    requires Serials(n) && Waits(n, w, onOk, onFail) && k < |n.insts|
    ensures n.insts[k].who.serial == w.serial <==> n.insts[k].who == w
  {
    var i :| 0 <= i < |n.insts| && IsIt(n.insts[i], w, onOk, onFail);
  }

  lemma StepOutcomes(n: Node, x: Input, w: Who, onOk: bool, onFail: bool)
    requires Serials(n) && Waits(n, w, onOk, onFail)
    ensures Outcomes(n, x, Step(n, x), w, onOk, onFail)
  {
    hide Waits, Serials, GenApplyKey, RecvDeviceId, RecvCloseAck, OnGenFailed, PutKey, HichainFinished, Remove,
      ResultServed, Delete, Find, FindConn;
    var n' := Step(n, x);
    match x
    case DoGen(_, _, _, _, _, _, _) => GenWaits(n, x, w, onOk, onFail);
    case DoDeviceId(_, _, _, _) => DeviceIdWaits(n, x, w, onOk, onFail);
    case DoResult(q, user) =>
      if q < |n.results| {
        ResultOutcomes(n, x, w, onOk, onFail);
      }
    case DoDisconnect(conn) =>
      var k := FindConn(n.insts, conn);
      if k < |n.insts| {
        RemoveWaits(n, n.insts[k].who.requestId, w, onOk, onFail);
        RemoveCalls(n, n.insts[k].who.requestId);
        FoundIsOf(n.insts, n.insts[k].who.requestId);
      }
    case _ =>
      OthersKeepNodes(n, x);
      SameNodesWait(n, n', w, onOk, onFail);
  }

  lemma RemoveCalls(n: Node, r: nat)
    ensures Remove(n, r).callbacks == n.callbacks
  {
  }

  lemma FoundIsOf(insts: seq<Inst>, r: nat)
    ensures var k := Find(insts, r); k < |insts| ==> insts[k].who.requestId == r
  {
  }

  /** Every other handler leaves the nodes in place and calls nobody. */
  lemma OthersKeepNodes(n: Node, x: Input)
    requires !x.DoGen? && !x.DoDeviceId? && !x.DoResult? && !x.DoDisconnect?
    ensures SameNodes(n, Step(n, x))
  {
    hide RecvCloseAck, OnGenFailed, PutKey, HichainFinished, Delete;
    match x
    case DoAuthData(r, e) => ResultsKeepNodes(n, r, e.hichainRet);
    case DoCloseAck(r, e) => CloseAckKeepsNodes(n, r, e);
    case DoUnknownData(r) => ResultsKeepNodes(n, r, HandleDataFail);
    case DoSessionKey(r, key) => PutsKeepNodes(n, r, key, "", 0, 0);
    case DoFinished(r, acct, e) => FinishedKeepsNodes(n, r, acct, e);
    case DoError(r, code) => ResultsKeepNodes(n, r, code);
    case DoTimer(t) =>
      if t < |n.timers| {
        ResultsKeepNodes(n.(timers := n.timers[..t] + n.timers[t + 1..]), n.timers[t], StartTimeout);
      }
    case DoDeleteKey(b, user) =>
    case DoClearKeys =>
  }

  /** No input of the run drops an instance of the request untold. */
  ghost predicate NoneDrops(n: Node, inputs: seq<Input>, r: nat)
    decreases |inputs|
  {
    inputs == [] || (!Drops(n, inputs[0], r) && NoneDrops(Step(n, inputs[0]), inputs[1..], r))
  }

  /** What an instance has been told in the end is what the served result told it, or nothing. */
  ghost predicate ToldJust(n: Node, serial: nat, told: seq<Called>) {
    if told == [] then CallCount(n.callbacks, serial) == 0
    else |told| == 1 && told[0] in n.callbacks && CallCount(n.callbacks, serial) == 1
  }

  lemma NotTold(n: Node, serial: nat)
    requires Inv(n) && !CalledBack(n, serial)
    ensures ToldJust(n, serial, [])
  {
    CallsDistinct(n);
    hide Inv;
    DistinctCalls(n.callbacks, serial);
  }

  lemma WaitingIsUntold(n: Node, w: Who, onOk: bool, onFail: bool)
    requires Inv(n) && Waits(n, w, onOk, onFail)
    ensures !CalledBack(n, w.serial)
  {
    InvSerials(n);
    hide Inv;
    var i :| 0 <= i < |n.insts| && IsIt(n.insts[i], w, onOk, onFail);
    assert forall c | 0 <= c < |n.callbacks| :: n.callbacks[c] in n.callbacks;
  }

  lemma GoneAppends(n: Node, x: Input, serial: nat)
    requires Gone(n, serial)
    ensures n.callbacks <= Step(n, x).callbacks
  {
    hide GenApplyKey, RecvDeviceId, Remove, ResultServed;
    match x
    case DoGen(r, conn, b, peer, onOk, onFail, e) => GenKeepsGone(n, r, conn, b, peer, onOk, onFail, e, serial);
    case DoDeviceId(r, conn, b, e) => DeviceIdKeepsGone(n, r, conn, b, e, serial);
    case DoResult(q, user) => if q < |n.results| { ServedIsTold(n, q, user); hide Step; }
    case DoDisconnect(conn) =>
      var k := FindConn(n.insts, conn);
      if k < |n.insts| { RemoveCalls(n, n.insts[k].who.requestId); }
    case _ => OthersKeepNodes(n, x); hide Step;
  }

  /** Once gone, nothing is added and nothing lost. */
  lemma {:induction false} GoneKeepsTold(n: Node, inputs: seq<Input>, serial: nat, told: seq<Called>)
    requires Inv(n) && Gone(n, serial) && ToldJust(n, serial, told)
    ensures Gone(Run(n, inputs), serial) && ToldJust(Run(n, inputs), serial, told)
    decreases |inputs|
  {
    if inputs != [] {
      hide Step, Inv, Gone;
      var n' := Step(n, inputs[0]);
      StepKeeps(n, inputs[0]);
      StepKeepsGone(n, inputs[0], serial);
      GoneAppends(n, inputs[0], serial);
      ToldStays(n, n', serial, told);
      GoneKeepsTold(n', inputs[1..], serial, told);
    }
  }

  lemma ToldStays(n: Node, n': Node, serial: nat, told: seq<Called>)
    requires Inv(n) && Inv(n') && ToldJust(n, serial, told) && n.callbacks <= n'.callbacks
    requires CalledBack(n', serial) ==> CalledBack(n, serial)
    ensures ToldJust(n', serial, told)
  {
    CallsDistinct(n);
    CallsDistinct(n');
    hide Inv;
    DistinctCalls(n.callbacks, serial);
    DistinctCalls(n'.callbacks, serial);
    if told != [] {
      var c :| 0 <= c < |n.callbacks| && n.callbacks[c] == told[0];
      assert n'.callbacks[c] == told[0];
    }
  }

  /** In every run, for every waiting instance: the first result served to it decides. It is told exactly what that
      result says, once, and is gone; before that it has been told nothing, and it leaves the list unserved only
      where a disconnect or a missing key drops an instance of its request. */
  lemma {:induction false} FirstServedDecides(n: Node, inputs: seq<Input>, w: Who, onOk: bool, onFail: bool)
    requires Inv(n) && Waits(n, w, onOk, onFail)
    ensures var n' := Run(n, inputs);
            match FirstServed(n, inputs, w)
            case NoAnswer =>
              && ToldJust(n', w.serial, [])
              && (Waits(n', w, onOk, onFail) || (Gone(n', w.serial) && !NoneDrops(n, inputs, w.requestId)))
            case Served(told, res) => Gone(n', w.serial) && ToldJust(n', w.serial, told)
    decreases |inputs|
  {
    hide Inv, Waits, Gone, Step, ToldJust, Told, Drops;
    WaitingIsUntold(n, w, onOk, onFail);
    NotTold(n, w.serial);
    if inputs != [] {
      var x := inputs[0];
      var n' := Step(n, x);
      InvSerials(n);
      StepKeeps(n, x);
      StepOutcomes(n, x, w, onOk, onFail);
      if ServesIt(n, x, w) {
        var res := n.results[x.q];
        var i := n.insts[Find(n.insts, res.requestId)];
        ToldIsOne(n, i, res, x.user);
        JustTold(n, n', w, Told(n, i, res, x.user));
        GoneKeepsTold(n', inputs[1..], w.serial, Told(n, i, res, x.user));
      } else if Waits(n', w, onOk, onFail) {
        FirstServedDecides(n', inputs[1..], w, onOk, onFail);
      } else {
        StillUntold(n, n', w.serial);
        NotTold(n', w.serial);
        GoneKeepsTold(n', inputs[1..], w.serial, []);
        GoneIsNotServed(n', inputs[1..], w);
      }
    }
  }

  lemma JustTold(n: Node, n': Node, w: Who, told: seq<Called>)
    requires Inv(n') && !CalledBack(n, w.serial) && n'.callbacks == n.callbacks + told
    requires told == [] || exists c: Called :: told == [c] && c.who == w
    ensures ToldJust(n', w.serial, told)
  {
    CallsDistinct(n');
    hide Inv;
    DistinctCalls(n'.callbacks, w.serial);
    if told == [] {
      assert n'.callbacks == n.callbacks;
    } else {
      assert n'.callbacks[|n.callbacks|] == told[0];
    }
  }

  lemma StillUntold(n: Node, n': Node, serial: nat)
    requires !CalledBack(n, serial)
    requires n'.callbacks == n.callbacks
             || exists c: Called :: n'.callbacks == n.callbacks + [c] && c.who.serial != serial
    ensures !CalledBack(n', serial)
  {
  }

  lemma {:induction false} GoneIsNotServed(n: Node, inputs: seq<Input>, w: Who)
    requires Gone(n, w.serial)
    ensures FirstServed(n, inputs, w) == NoAnswer
    decreases |inputs|
  {
    if inputs != [] {
      assert !ServesIt(n, inputs[0], w);
      StepKeepsGone(n, inputs[0], w.serial);
      hide Step, Gone;
      GoneIsNotServed(Step(n, inputs[0]), inputs[1..], w);
    }
  }
}
