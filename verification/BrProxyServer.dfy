/** The BR proxy server (br_proxy_server_manager.c) as a state machine over its session, proxy and
    data lists. Every handler is one atomic step. What the platform answers (the caller's identity,
    the foreground user, whether the channel opens, whether a process runs) is a parameter. */
module BrProxyServer {

  type Byte = x: int | 0 <= x < 256

  const INVALID_CHANNEL_ID := -1
  const INVALID_REQ_ID := 10000000
  const SEND_MAX_LEN := 4 * 1024 * 1024

  datatype Base = Base(brMac: string, uuid: string)

  /** ServerBrProxyChannelInfo. */
  datatype Session = Session(
    base: Base, pid: int, uid: int, token: int, channelId: int, appIndex: int, userId: int, requestId: nat,
    isReceiveCbSet: bool, isStateCbSet: bool)

  /** BrProxyInfo. */
  datatype Proxy = Proxy(
    base: Base, appIndex: int, userId: int, bundle: string, ability: string, uid: int, pid: int,
    channelId: int, requestId: nat,
    isEnable: bool, isConnected: bool, isVirtual: bool, isRecovery: bool, isLast: bool)

  /** ServerDataInfo. */
  datatype Item = Item(base: Base, userId: int, data: seq<Byte>)

  /** One ClientIpcBrProxyReceivedData call. */
  datatype Delivery = Delivery(item: Item, pid: int, channelId: int)

  datatype Ret = OK | NotFind | InvalidChannelId | TokenErr | InvalidParam | GetUserErr | OpenErr

  /** `received` and `delivered` record what was accepted into the data list and handed to clients. */
  datatype Srv = Srv(
    sessions: seq<Session>, sessionCnt: int,
    proxies: seq<Proxy>, proxyCnt: int,
    items: seq<Item>, itemCnt: int,
    lastChannelId: int,
    received: seq<Item>, delivered: seq<Delivery>)

  function Initial(): Srv {
    Srv([], 0, [], 0, [], 0, 0, [], [])
  }

  // ---------- list walks: every one stops at the first match ----------

  datatype SessionPick =
    | ByChannel(channelId: int)
    | ByRequest(requestId: nat)
    | ByPid(pid: int)
    | ByCaller(base: Base, callerPid: int)
    | ByLink(linkBase: Base, linkRequest: nat)
    | ByListener(clientBase: Base, clientRequest: nat)
    | ByProcess(procBase: Base, procRequest: nat, procPid: int)

  predicate PicksSession(k: SessionPick, s: Session) {
    match k
    case ByChannel(c) => s.channelId == c
    case ByRequest(r) => s.requestId == r
    case ByPid(p) => s.pid == p
    case ByCaller(b, p) => s.base == b && s.pid == p
    case ByLink(b, r) => s.base == b && s.requestId == r
    case ByListener(b, r) => s.base == b && s.isReceiveCbSet && s.requestId == r
    case ByProcess(b, r, p) => s.base == b && s.requestId == r && s.pid == p
  }

  function FindSession(ss: seq<Session>, k: SessionPick): (i: nat)
    ensures i <= |ss|
    ensures i < |ss| ==> PicksSession(k, ss[i])
    ensures forall j | 0 <= j < i :: !PicksSession(k, ss[j])
  {
    if ss == [] || PicksSession(k, ss[0]) then 0 else 1 + FindSession(ss[1..], k)
  }

  datatype ProxyPick =
    | ByOwner(base: Base, appIndex: int, userId: int)
    | ByBaseRequest(reqBase: Base, requestId: nat)
    | ByAppRequest(appBase: Base, app: int, appRequest: nat)
    | ByRequestOnly(anyRequest: nat)
    | ByLastConnect(user: int)

  predicate PicksProxy(k: ProxyPick, p: Proxy) {
    match k
    case ByOwner(b, a, u) => p.base == b && p.appIndex == a && p.userId == u
    case ByBaseRequest(b, r) => p.base == b && p.requestId == r
    case ByAppRequest(b, a, r) => p.base == b && p.appIndex == a && p.requestId == r
    case ByRequestOnly(r) => p.requestId == r
    case ByLastConnect(u) => p.userId == u && p.isLast
  }

  function FindProxy(ps: seq<Proxy>, k: ProxyPick): (i: nat)
    ensures i <= |ps|
    ensures i < |ps| ==> PicksProxy(k, ps[i])
    ensures forall j | 0 <= j < i :: !PicksProxy(k, ps[j])
  {
    if ps == [] || PicksProxy(k, ps[0]) then 0 else 1 + FindProxy(ps[1..], k)
  }

  predicate HasSession(s: Srv, k: SessionPick) {
    FindSession(s.sessions, k) < |s.sessions|
  }

  predicate HasProxy(s: Srv, k: ProxyPick) {
    FindProxy(s.proxies, k) < |s.proxies|
  }

  /** GetChannelInfo with no address: by channel id, else by request id, else nothing matches. */
  function ChannelInfo(ss: seq<Session>, channelId: int, requestId: nat): (i: nat)
    ensures i <= |ss|
  {
    if channelId != INVALID_CHANNEL_ID then FindSession(ss, ByChannel(channelId))
    else if requestId != INVALID_REQ_ID then FindSession(ss, ByRequest(requestId))
    else |ss|
  }

  // ---------- primitives ----------

  function DeleteSession(s: Srv, k: SessionPick): Srv {
    var i := FindSession(s.sessions, k);
    if i == |s.sessions| then s
    else s.(sessions := s.sessions[..i] + s.sessions[i + 1..], sessionCnt := s.sessionCnt - 1)
  }

  function SetProxy(s: Srv, i: nat, p: Proxy): Srv
    requires i < |s.proxies|
  {
    s.(proxies := s.proxies[i := p])
  }

  /** SetCurrentConnect with isVirtualConnect = true. */
  function MakeVirtual(s: Srv, b: Base, r: nat): Srv {
    var i := FindProxy(s.proxies, ByBaseRequest(b, r));
    if i == |s.proxies| then s else SetProxy(s, i, s.proxies[i].(isVirtual := true))
  }

  /** UpdateConnectState. */
  function SetConnected(s: Srv, b: Base, r: nat, connected: bool): Srv {
    var i := FindProxy(s.proxies, ByBaseRequest(b, r));
    if i == |s.proxies| then s
    else
      var p := s.proxies[i];
      SetProxy(s, i, if connected then p.(isConnected := true, isVirtual := false, isRecovery := false)
                     else p.(isConnected := false))
  }

  /** ServerDisableProxyFromList. */
  function DisableProxy(s: Srv, r: nat): Srv {
    var i := FindProxy(s.proxies, ByRequestOnly(r));
    if i == |s.proxies| then s
    else SetProxy(s, i, s.proxies[i].(isConnected := false, isEnable := false, isLast := false))
  }

  // ---------- opening ----------

  datatype Caller = Caller(
    pid: int, uid: int, token: int, userId: int, appIndex: int, bundle: string, ability: string)

  /** ServerAddProxyToList: an existing proxy of the owner is refreshed, else a new one is put first. */
  function AddProxy(s: Srv, b: Base, c: Caller): Srv {
    var i := FindProxy(s.proxies, ByOwner(b, c.appIndex, c.userId));
    if i < |s.proxies| then
      SetProxy(s, i, s.proxies[i].(uid := c.uid, pid := c.pid, isRecovery := false,
                                   bundle := c.bundle, ability := c.ability))
    else
      s.(proxies := [Proxy(b, c.appIndex, c.userId, c.bundle, c.ability, c.uid, c.pid, 0, 0,
                           false, false, false, false, false)] + s.proxies,
         proxyCnt := s.proxyCnt + 1)
  }

  /** ServerAddChannelToList: a session of the caller is reopened, else a new one is put first. */
  function AddSession(s: Srv, b: Base, c: Caller, channelId: int, r: nat, userOk: bool): (Srv, Ret) {
    var i := FindSession(s.sessions, ByCaller(b, c.pid));
    if i < |s.sessions| then (s.(sessions := s.sessions[i := s.sessions[i].(requestId := r)]), OK)
    else if !userOk then (s, GetUserErr)
    else
      (s.(sessions := [Session(b, c.pid, c.uid, c.token, channelId, c.appIndex, c.userId, r, false, false)]
                      + s.sessions,
          sessionCnt := s.sessionCnt + 1), OK)
  }

  /** UpdateBrProxyRequestId for the foreground user. */
  function SetRequest(s: Srv, b: Base, appIndex: int, user: int, r: nat): Srv {
    var i := FindProxy(s.proxies, ByOwner(b, appIndex, user));
    if i == |s.proxies| then s else SetProxy(s, i, s.proxies[i].(requestId := r))
  }

  /** What the platform answers while a channel is opened. */
  datatype Env = Env(user: int, newRequest: nat, userOk: bool, openOk: bool)

  /** ConnectPeerDevice. */
  function Connect(s: Srv, b: Base, c: Caller, e: Env): (Srv, Ret) {
    var i := FindProxy(s.proxies, ByOwner(b, c.appIndex, e.user));
    if i == |s.proxies| then (s, NotFind)
    else
      var oldRequest := s.proxies[i].requestId;
      var s1 := SetRequest(s, b, c.appIndex, e.user, e.newRequest).(lastChannelId := s.lastChannelId + 1);
      var (s2, ret) := AddSession(s1, b, c, s1.lastChannelId, e.newRequest, e.userOk);
      if ret != OK then (SetRequest(s2, b, c.appIndex, e.user, oldRequest), ret)
      else if !e.openOk then
        (DeleteSession(SetRequest(s2, b, c.appIndex, e.user, oldRequest), ByChannel(s1.lastChannelId)), OpenErr)
      else (s2, OK)
  }

  /** UpdateServerAndNotifyOpened, the path of a caller that is not the foreground user. */
  function OpenInBackground(s: Srv, b: Base, c: Caller, e: Env): (Srv, Ret) {
    var i := FindProxy(s.proxies, ByOwner(b, c.appIndex, c.userId));
    if i == |s.proxies| then (s, NotFind)
    else
      var p := s.proxies[i];
      var s1 := if p.isEnable then s
                else SetProxy(s, i, p.(isLast := true, requestId := e.newRequest, channelId := s.lastChannelId + 1))
                     .(lastChannelId := s.lastChannelId + 1);
      var q := s1.proxies[i];
      var (s2, ret) := AddSession(s1, b, c, q.channelId, q.requestId, e.userOk);
      if ret != OK then (s2, ret) else (MakeVirtual(s2, b, q.requestId), OK)
  }

  /** TransOpenBrProxy. */
  function Open(s: Srv, b: Base, c: Caller, e: Env): (Srv, Ret) {
    var s1 := AddProxy(s, b, c);
    if e.user != c.userId then OpenInBackground(s1, b, c, e) else Connect(s1, b, c, e)
  }

  /** MarkLastConnect. */
  function MarkLast(ps: seq<Proxy>, b: Base, r: nat): (m: seq<Proxy>)
    ensures |m| == |ps|
    ensures forall i | 0 <= i < |ps| :: m[i] == ps[i].(isLast := PicksProxy(ByBaseRequest(b, r), ps[i]))
  {
    if ps == [] then []
    else [ps[0].(isLast := PicksProxy(ByBaseRequest(b, r), ps[0]))] + MarkLast(ps[1..], b, r)
  }

  /** UpdateBrProxy with a channel id. */
  function EnableProxy(s: Srv, b: Base, appIndex: int, r: nat, channelId: int): Srv {
    var i := FindProxy(s.proxies, ByAppRequest(b, appIndex, r));
    if i == |s.proxies| then s
    else SetProxy(s, i, s.proxies[i].(isEnable := true, channelId := channelId))
  }

  /** OnOpenSuccess. */
  function OpenSucceeded(s: Srv, b: Base, r: nat, user: int): Srv {
    var i := ChannelInfo(s.sessions, INVALID_CHANNEL_ID, r);
    if i == |s.sessions| || !HasProxy(s, ByBaseRequest(b, r)) then s
    else
      var node := s.sessions[i];
      if user != s.proxies[FindProxy(s.proxies, ByBaseRequest(b, r))].userId then MakeVirtual(s, b, r)
      else if !HasSession(s, ByLink(b, r)) then s
      else
        var s1 := s.(proxies := MarkLast(s.proxies, b, r));
        if !HasProxy(s1, ByAppRequest(node.base, node.appIndex, r)) then s1
        else SetConnected(EnableProxy(s1, node.base, node.appIndex, r, node.channelId), b, r, true)
  }

  /** OnOpenFail. */
  function OpenFailed(s: Srv, r: nat): Srv {
    var i := ChannelInfo(s.sessions, INVALID_CHANNEL_ID, r);
    if i == |s.sessions| then s
    else
      var node := s.sessions[i];
      var j := FindProxy(s.proxies, ByBaseRequest(node.base, node.requestId));
      if j < |s.proxies| && s.proxies[j].isEnable then MakeVirtual(s, node.base, r)
      else if j < |s.proxies| && s.proxies[j].isRecovery then s
      else DeleteSession(s, ByChannel(node.channelId))
  }

  // ---------- closing ----------

  /** TransCloseBrProxy; an inner call skips the token check. */
  function Close(s: Srv, channelId: int, inner: bool, token: int): (Srv, Ret) {
    var i := ChannelInfo(s.sessions, channelId, INVALID_REQ_ID);
    if i == |s.sessions| then (s, if channelId != INVALID_CHANNEL_ID then InvalidChannelId else NotFind)
    else if !inner && token != s.sessions[i].token then (s, TokenErr)
    else (DeleteSession(DisableProxy(s, s.sessions[i].requestId), ByChannel(channelId)), OK)
  }

  /** The loop of CloseAllConnect: `n` times close whatever session is first. */
  function CloseFirst(s: Srv, n: nat): Srv
    decreases n
  {
    if n == 0 || s.sessions == [] then s
    else CloseFirst(Close(s, s.sessions[0].channelId, true, 0).0, n - 1)
  }

  /** CloseAllConnect with CloseAllBrProxy. */
  function CloseAll(s: Srv): Srv {
    var s1 := CloseFirst(s, if s.sessionCnt < 0 then 0 else s.sessionCnt);
    s1.(proxies := [], proxyCnt := s1.proxyCnt - |s1.proxies|)
  }

  /** UninstallHandler keeps the sessions of other applications. */
  function Survivors(ss: seq<Session>, appIndex: int, userId: int): (r: seq<Session>)
    ensures |r| <= |ss|
    ensures forall x | x in r :: x in ss && !(x.appIndex == appIndex && x.userId == userId)
    ensures forall x | x in ss && !(x.appIndex == appIndex && x.userId == userId) :: x in r
  {
    if ss == [] then []
    else if ss[0].appIndex == appIndex && ss[0].userId == userId then Survivors(ss[1..], appIndex, userId)
    else [ss[0]] + Survivors(ss[1..], appIndex, userId)
  }

  function Uninstall(s: Srv, appIndex: int, userId: int): Srv {
    var left := Survivors(s.sessions, appIndex, userId);
    s.(sessions := left, sessionCnt := s.sessionCnt - (|s.sessions| - |left|))
  }

  /** CloseConnectByPid, when the Bluetooth permission of a process is revoked. */
  function PermissionRevoked(s: Srv, pid: int): Srv {
    var i := FindSession(s.sessions, ByPid(pid));
    if i == |s.sessions| then s else Close(s, s.sessions[i].channelId, true, 0).0
  }

  /** The list effect of BrProxyUserSwitch. */
  function UserSwitched(s: Srv, user: int): Srv {
    var i := FindProxy(s.proxies, ByLastConnect(user));
    if i == |s.proxies| then s else SetProxy(s, i, s.proxies[i].(isRecovery := true))
  }

  // ---------- data ----------

  predicate Mine(x: Item, b: Base, user: int) {
    x.base == b && x.userId == user
  }

  /** The items of one (brMac, uuid, user) in list order. */
  function Pending(xs: seq<Item>, b: Base, user: int): (q: seq<Item>)
    ensures |q| <= |xs|
    ensures forall x | x in q :: Mine(x, b, user)
  {
    if xs == [] then []
    else if Mine(xs[0], b, user) then [xs[0]] + Pending(xs[1..], b, user)
    else Pending(xs[1..], b, user)
  }

  function Others(xs: seq<Item>, b: Base, user: int): (q: seq<Item>)
    ensures |q| <= |xs|
    ensures forall x | x in q :: !Mine(x, b, user)
  {
    if xs == [] then []
    else if Mine(xs[0], b, user) then Others(xs[1..], b, user)
    else [xs[0]] + Others(xs[1..], b, user)
  }

  function Handed(xs: seq<Item>, pid: int, channelId: int): (d: seq<Delivery>)
    ensures |d| == |xs|
    ensures forall i | 0 <= i < |xs| :: d[i] == Delivery(xs[i], pid, channelId)
  {
    if xs == [] then [] else [Delivery(xs[0], pid, channelId)] + Handed(xs[1..], pid, channelId)
  }

  /** CleanUpDataListWithSameMac: hand over everything pending for the current user, oldest first. */
  function Drain(s: Srv, b: Base, user: int, pid: int, channelId: int): Srv {
    var q := Pending(s.items, b, user);
    s.(items := Others(s.items, b, user),
       itemCnt := s.itemCnt - |q|,
       delivered := s.delivered + Handed(q, pid, channelId))
  }

  function AddItem(s: Srv, x: Item): Srv {
    s.(items := s.items + [x], itemCnt := s.itemCnt + 1, received := s.received + [x])
  }

  /** OnDataReceived; `runningPid` is the running process of the proxy's application, if any. */
  function DataReceived(s: Srv, b: Base, r: nat, data: seq<Byte>, user: int, running: bool, runningPid: int): Srv {
    if |data| == 0 || |data| > SEND_MAX_LEN then s
    else
      var s1 := AddItem(s, Item(b, user, data));
      if HasProxy(s, ByBaseRequest(b, r)) && running && HasSession(s, ByProcess(b, r, runningPid))
         && HasSession(s, ByListener(b, r))
      then
        var c := s.sessions[FindSession(s.sessions, ByListener(b, r))];
        Drain(s1, b, user, c.pid, c.channelId)
      else s1
  }

  datatype Listener = DataReceive | ChannelState | Other

  /** TransSetListenerState. */
  function SetListener(s: Srv, channelId: int, kind: Listener, enable: bool, token: int, user: int): (Srv, Ret) {
    var i := ChannelInfo(s.sessions, channelId, INVALID_REQ_ID);
    if i == |s.sessions| then (s, if channelId != INVALID_CHANNEL_ID then InvalidChannelId else NotFind)
    else if token != s.sessions[i].token then (s, TokenErr)
    else
      var c := s.sessions[i];
      match kind
      case Other => (s, InvalidParam)
      case ChannelState => (s.(sessions := s.sessions[i := c.(isStateCbSet := enable)]), OK)
      case DataReceive =>
        var s1 := s.(sessions := s.sessions[i := c.(isReceiveCbSet := enable)]);
        (if enable then Drain(s1, c.base, user, c.pid, channelId) else s1, OK)
  }

  // ---------- runs ----------

  datatype Op =
    | OpOpen(b: Base, c: Caller, e: Env)
    | OpOpenSucceeded(b: Base, r: nat, user: int)
    | OpOpenFailed(r: nat)
    | OpClose(channelId: int, token: int)
    | OpSetListener(channelId: int, kind: Listener, enable: bool, token: int, user: int)
    | OpData(b: Base, r: nat, data: seq<Byte>, user: int, running: bool, runningPid: int)
    | OpDisconnected(b: Base, r: nat, unpaired: bool)
    | OpReconnected(b: Base, r: nat)
    | OpUserSwitched(user: int)
    | OpUninstall(appIndex: int, userId: int)
    | OpClientDied(pid: int)
    | OpRevoked(pid: int)

  function Step(s: Srv, op: Op): Srv {
    match op
    case OpOpen(b, c, e) => Open(s, b, c, e).0
    case OpOpenSucceeded(b, r, user) => OpenSucceeded(s, b, r, user)
    case OpOpenFailed(r) => OpenFailed(s, r)
    case OpClose(ch, token) => Close(s, ch, false, token).0
    case OpSetListener(ch, kind, enable, token, user) => SetListener(s, ch, kind, enable, token, user).0
    case OpData(b, r, data, user, running, pid) => DataReceived(s, b, r, data, user, running, pid)
    case OpDisconnected(b, r, unpaired) => SetConnected(if unpaired then CloseAll(s) else s, b, r, false)
    case OpReconnected(b, r) => SetConnected(s, b, r, true)
    case OpUserSwitched(user) => UserSwitched(s, user)
    case OpUninstall(appIndex, userId) => Uninstall(s, appIndex, userId)
    case OpClientDied(pid) => DeleteSession(s, ByPid(pid))
    case OpRevoked(pid) => PermissionRevoked(s, pid)
  }

  function Run(s: Srv, ops: seq<Op>): Srv
    decreases |ops|
  {
    if ops == [] then s else Run(Step(s, ops[0]), ops[1..])
  }
}
