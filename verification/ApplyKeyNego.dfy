/** One device's side of the apply-key negotiation (auth_apply_key_process.c) as a state machine:
    the instance list, the queued results, the timers that are never cancelled, the key store and
    what the device has sent. Every handler is one atomic step. Request ids may repeat: `serial`
    stands for the identity of the allocated list node. */
module ApplyKeyNego {
  import opened ApplyKeyStore

  const MAX_INSTANCE_CNT := 0x2000000
  const D2D_ACCOUNT_HASH_STR_LEN := 11
  const SHA_256_HEX_HASH_LEN := 65

  datatype Result =
    | Okay
    | InstanceFull
    | InstanceNotFound
    | CreateJsonErr
    | NodeInfoErr
    | SendFail
    | StrcmpErr
    | HandleDataFail
    | StartTimeout
    | Hichain(code: int)

  datatype StartState = Wait | Start | Unknow

  /** The fields of an instance that never change after it is created. */
  datatype Who = Who(serial: nat, requestId: nat, isServer: bool, biz: Biz, peerAccountHash: string)

  datatype Inst = Inst(
    who: Who,
    connId: nat,
    state: StartState,
    key: seq<Byte>,
    isRecvSessionKey: bool,
    isRecvFinish: bool,
    isRecvCloseAck: bool,
    hasOnSuccess: bool,
    hasOnFailed: bool)

  datatype Queued = Queued(requestId: nat, isSuccess: bool, reason: Result)

  datatype Outcome = Success(key: seq<Byte>) | Failed(reason: Result)

  datatype Called = Called(who: Who, outcome: Outcome)

  /** What goes over the wire: the first message of a request, and the close-ack. */
  datatype Wire = DeviceId(requestId: nat, biz: Biz) | CloseAck(requestId: nat)

  /** What happened to an instance, in order. */
  datatype Event =
    | Created(who: Who)
    | KeyReturned(who: Who, key: seq<Byte>)
    | Finished(who: Who, accountHash: string, user: int)
    | Stored(who: Who, accountHash: string, user: int, key: seq<Byte>)
    | AckSeen(who: Who)

  datatype Node = Node(
    udid: string,
    insts: seq<Inst>,
    cnt: int,
    nextSerial: nat,
    results: seq<Queued>,
    timers: seq<nat>,
    store: Store,
    callbacks: seq<Called>,
    sent: seq<Wire>,
    history: seq<Event>)

  function Initial(udid: string): Node {
    Node(udid, [], 0, 0, [], [], map[], [], [], [])
  }

  // ---------- list primitives ----------

  /** The first instance of a request, as every list walk finds it; |insts| if there is none. */
  function Find(insts: seq<Inst>, r: nat): (k: nat)
    ensures k <= |insts|
    ensures k < |insts| ==> insts[k].who.requestId == r
    ensures forall j | 0 <= j < k :: insts[j].who.requestId != r
  {
    if insts == [] || insts[0].who.requestId == r then 0 else 1 + Find(insts[1..], r)
  }

  predicate Has(n: Node, r: nat) {
    Find(n.insts, r) < |n.insts|
  }

  function FindConn(insts: seq<Inst>, c: nat): (k: nat)
    ensures k <= |insts|
    ensures k < |insts| ==> insts[k].connId == c
    ensures forall j | 0 <= j < k :: insts[j].connId != c
  {
    if insts == [] || insts[0].connId == c then 0 else 1 + FindConn(insts[1..], c)
  }

  /** GetSameApplyKeyInstanceNum. */
  function StartedCount(insts: seq<Inst>, b: Biz): (c: nat)
    ensures c == 0 <==> forall i | 0 <= i < |insts| :: !(insts[i].who.biz == b && insts[i].state.Start?)
  {
    if insts == [] then 0
    else (if insts[0].who.biz == b && insts[0].state.Start? then 1 else 0) + StartedCount(insts[1..], b)
  }

  /** CreateApplyKeyNegoInstance: the new node goes to the head of the list and starts a timer. */
  function Create(n: Node, r: nat, conn: nat, isServer: bool, b: Biz, peer: string, onOk: bool, onFail: bool): Node
  {
    var who := Who(n.nextSerial, r, isServer, b, peer);
    n.(insts := [Inst(who, conn, Unknow, [], false, false, false, onOk, onFail)] + n.insts,
       cnt := n.cnt + 1,
       nextSerial := n.nextSerial + 1,
       timers := n.timers + [r],
       history := n.history + [Created(who)])
  }

  /** DeleteApplyKeyNegoInstance: the first node of the request, if any. */
  function Remove(n: Node, r: nat): Node {
    var k := Find(n.insts, r);
    if k == |n.insts| then n
    else n.(insts := n.insts[..k] + n.insts[k + 1..], cnt := n.cnt - 1)
  }

  /** SetNegoInfoRecvSessionKey. */
  function PutKey(n: Node, r: nat, key: seq<Byte>): Node {
    var k := Find(n.insts, r);
    if k == |n.insts| then n
    else n.(insts := n.insts[k := n.insts[k].(key := key, isRecvSessionKey := true)],
            history := n.history + [KeyReturned(n.insts[k].who, key)])
  }

  /** SetNegoInfoRecvFinish: the flag is set before the key is filed and stays set if filing fails. */
  function PutFinish(n: Node, r: nat, acct: string, user: int, now: nat): (Node, bool)
    requires Has(n, r)
  {
    var k := Find(n.insts, r);
    var i := n.insts[k];
    var (store', code) := Insert(n.store, i.who.biz, user, i.key, now, acct);
    var marked := n.(insts := n.insts[k := i.(isRecvFinish := true)],
                     history := n.history + [Finished(i.who, acct, user)]);
    if code.Ok? then
      (marked.(store := store', history := marked.history + [Stored(i.who, acct, user, i.key)]), true)
    else
      (marked, false)
  }

  /** SetNegoInfoRecvCloseAck. */
  function PutAck(n: Node, r: nat): Node
    requires Has(n, r)
  {
    var k := Find(n.insts, r);
    n.(insts := n.insts[k := n.insts[k].(isRecvCloseAck := true)],
       history := n.history + [AckSeen(n.insts[k].who)])
  }

  /** SetApplyKeyStartState with GEN_APPLY_KEY_STATE_START. */
  function PutStart(n: Node, r: nat): Node {
    var k := Find(n.insts, r);
    if k == |n.insts| then n
    else n.(insts := n.insts[k := n.insts[k].(state := Start)])
  }

  function Post(n: Node, m: Wire): Node {
    n.(sent := n.sent + [m])
  }

  // ---------- results ----------

  function Mark(i: Inst, b: Biz, isSuccess: bool): Inst {
    if i.who.biz == b && isSuccess
    then i.(isRecvSessionKey := true, isRecvFinish := true, isRecvCloseAck := true)
    else i
  }

  function MarkAll(insts: seq<Inst>, b: Biz, isSuccess: bool): (m: seq<Inst>)
    ensures |m| == |insts|
    ensures forall i | 0 <= i < |insts| :: m[i] == Mark(insts[i], b, isSuccess)
  {
    if insts == [] then [] else [Mark(insts[0], b, isSuccess)] + MarkAll(insts[1..], b, isSuccess)
  }

  function ResultsFor(insts: seq<Inst>, b: Biz, isSuccess: bool, reason: Result): (q: seq<Queued>)
    ensures forall x | x in q ::
              x.isSuccess == isSuccess && x.reason == reason
              && exists i :: 0 <= i < |insts| && insts[i].who.biz == b && insts[i].who.requestId == x.requestId
  {
    if insts == [] then []
    else
      var rest := ResultsFor(insts[1..], b, isSuccess, reason);
      assert forall i | 0 <= i < |insts[1..]| :: insts[1..][i] == insts[i + 1];
      if insts[0].who.biz == b then [Queued(insts[0].who.requestId, isSuccess, reason)] + rest else rest
  }

  /** UpdateAllGenCbCallback: every instance of the business gets the same result queued. */
  function Broadcast(n: Node, b: Biz, isSuccess: bool, reason: Result): Node {
    n.(insts := MarkAll(n.insts, b, isSuccess),
       results := n.results + ResultsFor(n.insts, b, isSuccess, reason))
  }

  predicate Complete(i: Inst) {
    i.isRecvSessionKey && i.isRecvFinish && i.isRecvCloseAck
  }

  function OnGenSuccess(n: Node, r: nat): Node {
    var k := Find(n.insts, r);
    if k == |n.insts| || !Complete(n.insts[k]) then n
    else Broadcast(n, n.insts[k].who.biz, true, Okay)
  }

  function OnGenFailed(n: Node, r: nat, reason: Result): Node {
    var k := Find(n.insts, r);
    if k == |n.insts| then n else Broadcast(n, n.insts[k].who.biz, false, reason)
  }

  // ---------- the tie-break ----------

  /** strcmp(a, b) < 0. */
  predicate Less(a: string, b: string) {
    if b == [] then false
    else if a == [] then true
    else if a[0] != b[0] then a[0] < b[0]
    else Less(a[1..], b[1..])
  }

  /** The part StartApplyKeyHichain and ProcessApplyKeyDeviceId share. */
  function TryStart(n: Node, r: nat, b: Biz, hashOk: bool, hichainRet: Result): (Node, Result) {
    if !hashOk then (n, NodeInfoErr)
    else if StartedCount(n.insts, b) > 0 || Less(n.udid, b.udidHash) then (n, Okay)
    else (PutStart(n, r), hichainRet)
  }

  // ---------- handlers ----------

  /** What the platform answers during one handler. */
  datatype Env = Env(
    accountHash: string, // local account short hash
    hashOk: bool,        // the local hashes could be computed
    sendOk: bool,        // ConnPostBytes
    hichainRet: Result,  // startLightAccountAuth or processLightAccountAuth
    user: int,           // foreground account
    now: nat)

  /** AuthGenApplyKey. */
  function GenApplyKey(n: Node, r: nat, conn: nat, b: Biz, peer: string, onOk: bool, onFail: bool, e: Env)
    : (Node, Result)
  {
    if n.cnt >= MAX_INSTANCE_CNT then (n, InstanceFull)
    else
      var n1 := Create(n, r, conn, false, b, peer, onOk, onFail);
      if !e.hashOk then (Remove(n1, r), CreateJsonErr)
      else if !e.sendOk then (Remove(n1, r), SendFail)
      else
        var n2 := Post(n1, DeviceId(r, Biz(n.udid, e.accountHash, b.kind)));
        var (n3, ret) := TryStart(n2, r, b, e.hashOk, e.hichainRet);
        if ret.Okay? then (n3, Okay) else (Remove(n3, r), ret)
  }

  /** ProcessApplyKeyDeviceId inside ApplyKeyMsgHandler. */
  function RecvDeviceId(n: Node, r: nat, conn: nat, b: Biz, e: Env): Node {
    if n.cnt >= MAX_INSTANCE_CNT then OnGenFailed(n, r, InstanceFull)
    else
      var n1 := Create(n, r, conn, true, b, "", false, false);
      var (n2, ret) := TryStart(n1, r, b, e.hashOk, e.hichainRet);
      if ret.Okay? then n2 else OnGenFailed(n2, r, ret)
  }

  /** ProcessApplyKeyData inside ApplyKeyMsgHandler. */
  function RecvAuthData(n: Node, r: nat, e: Env): Node {
    if !Has(n, r) then n
    else if e.hichainRet.Okay? then n
    else OnGenFailed(n, r, e.hichainRet)
  }

  /** ProcessApplyKeyCloseAckData inside ApplyKeyMsgHandler. */
  function RecvCloseAck(n: Node, r: nat, e: Env): Node {
    if !Has(n, r) then n
    else
      var isServer := n.insts[Find(n.insts, r)].who.isServer;
      var n1 := PutAck(n, r);
      if isServer then OnGenSuccess(n1, r)
      else if !e.sendOk then OnGenFailed(n1, r, SendFail)
      else OnGenSuccess(Post(n1, CloseAck(r)), r)
  }

  /** OnSessionKeyReturned. */
  function SessionKeyReturned(n: Node, r: nat, key: seq<Byte>): Node {
    if |key| > D2D_APPLY_KEY_LEN then n else PutKey(n, r, key)
  }

  function Take(s: string, n: nat): string {
    if |s| <= n then s else s[..n]
  }

  /** CheckAccountHashWithHichain; strncmp compares at most the given number of characters. */
  predicate AccountMatches(w: Who, acct: string) {
    if w.isServer
    then Take(acct, D2D_ACCOUNT_HASH_STR_LEN - 1) == Take(w.biz.accountHash, D2D_ACCOUNT_HASH_STR_LEN - 1)
    else Take(acct, SHA_256_HEX_HASH_LEN) == Take(w.peerAccountHash, SHA_256_HEX_HASH_LEN)
  }

  /** OnFinished, once the returned account id has been hashed to `acct`. */
  function HichainFinished(n: Node, r: nat, acct: string, e: Env): Node {
    if !Has(n, r) then n
    else
      var who := n.insts[Find(n.insts, r)].who;
      if !AccountMatches(who, acct) then OnGenFailed(n, r, StrcmpErr)
      else
        var (n1, filed) := PutFinish(n, r, acct, e.user, e.now);
        if !filed then n1
        else if !who.isServer then OnGenSuccess(n1, r)
        else if !e.sendOk then n1
        else OnGenSuccess(Post(n1, CloseAck(r)), r)
  }

  /** OnCommDisconnected: finds by connection, deletes by request, tells nobody. */
  function Disconnected(n: Node, conn: nat): Node {
    var k := FindConn(n.insts, conn);
    if k == |n.insts| then n else Remove(n, n.insts[k].who.requestId)
  }

  function TimerFired(n: Node, t: nat): Node
    requires t < |n.timers|
  {
    OnGenFailed(n.(timers := n.timers[..t] + n.timers[t + 1..]), n.timers[t], StartTimeout)
  }

  /** HandleAsyncNegoResult on the copied instance; a missing key deletes once more than the end does. */
  function HandleResult(n: Node, i: Inst, res: Queued, user: int): Node {
    var r := i.who.requestId;
    if res.isSuccess then
      if !i.hasOnSuccess then Remove(n, r)
      else
        match Get(n.store, i.who.biz, user)
        case Missing(_) => Remove(Remove(n, r), r)
        case Found(v) => Remove(n.(callbacks := n.callbacks + [Called(i.who, Success(v.key))]), r)
    else if !i.hasOnFailed then Remove(n, r)
    else Remove(n.(callbacks := n.callbacks + [Called(i.who, Failed(res.reason))]), r)
  }

  /** AsyncCallbackGenResultReceived. */
  function ResultServed(n: Node, q: nat, user: int): Node
    requires q < |n.results|
  {
    var res := n.results[q];
    var n1 := n.(results := n.results[..q] + n.results[q + 1..]);
    var k := Find(n1.insts, res.requestId);
    if k == |n1.insts| then n1 else HandleResult(n1, n1.insts[k], res, user)
  }

  /** Everything that can happen at one device. The looper may serve timers and results in any order. */
  datatype Input =
    | DoGen(r: nat, conn: nat, b: Biz, peer: string, onOk: bool, onFail: bool, e: Env)
    | DoDeviceId(r: nat, conn: nat, b: Biz, e: Env)
    | DoAuthData(r: nat, e: Env)
    | DoCloseAck(r: nat, e: Env)
    | DoUnknownData(r: nat)
    | DoSessionKey(r: nat, key: seq<Byte>)
    | DoFinished(r: nat, acct: string, e: Env)
    | DoError(r: nat, code: Result)
    | DoDisconnect(conn: nat)
    | DoTimer(t: nat)
    | DoResult(q: nat, user: int)
    | DoDeleteKey(b: Biz, user: int)
    | DoClearKeys

  function Step(n: Node, i: Input): Node {
    match i
    case DoGen(r, conn, b, peer, onOk, onFail, e) => GenApplyKey(n, r, conn, b, peer, onOk, onFail, e).0
    case DoDeviceId(r, conn, b, e) => RecvDeviceId(n, r, conn, b, e)
    case DoAuthData(r, e) => RecvAuthData(n, r, e)
    case DoCloseAck(r, e) => RecvCloseAck(n, r, e)
    case DoUnknownData(r) => OnGenFailed(n, r, HandleDataFail)
    case DoSessionKey(r, key) => SessionKeyReturned(n, r, key)
    case DoFinished(r, acct, e) => HichainFinished(n, r, acct, e)
    case DoError(r, code) => OnGenFailed(n, r, code)
    case DoDisconnect(conn) => Disconnected(n, conn)
    case DoTimer(t) => if t < |n.timers| then TimerFired(n, t) else n
    case DoResult(q, user) => if q < |n.results| then ResultServed(n, q, user) else n
    case DoDeleteKey(b, user) => n.(store := Delete(n.store, b, user).0)
    case DoClearKeys => n.(store := map[])
  }

  function Run(n: Node, inputs: seq<Input>): Node
    decreases |inputs|
  {
    if inputs == [] then n else Run(Step(n, inputs[0]), inputs[1..])
  }
}
