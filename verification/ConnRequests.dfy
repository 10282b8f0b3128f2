/** Connect requests of the authentication connection layer: the request list, the connect timeout and
    the result events, all served from one looper queue. */
module ConnRequests {
  import opened Looper

  const CONNECT_TIMEOUT_US := 11000 * 1000

  datatype Ret = OK | CONN_FAIL | CONN_TIMEOUT

  datatype Link = Wifi | Usb | SessionKey | Session | Unknown

  datatype Event = Timeout(id: nat) | Cmd(id: nat, link: Link) | Result(fd: int, ret: Ret, viaSessionKey: bool)

  datatype Req = Req(id: nat, fd: int, link: Link)

  /** One call of onConnectResult; `conn` is the connection id, as link type and fd. */
  datatype Note = Note(id: nat, ret: Ret, conn: Conn)
  datatype Conn = NoConn | Conn(link: Link, fd: int)

  /** `made` records every request ever put on the list. */
  datatype St = St(q: seq<Msg<Event>>, reqs: seq<Req>, notes: seq<Note>, made: seq<Req>)

  function Initial(): St {
    St([], [], [], [])
  }

  // ---------- the list ----------

  function FindId(reqs: seq<Req>, id: nat): (i: nat)
    ensures i <= |reqs|
    ensures i < |reqs| ==> reqs[i].id == id
    ensures forall j | 0 <= j < i :: reqs[j].id != id
  {
    if reqs == [] || reqs[0].id == id then 0 else 1 + FindId(reqs[1..], id)
  }

  function FindFd(reqs: seq<Req>, fd: int): (i: nat)
    ensures i <= |reqs|
    ensures i < |reqs| ==> reqs[i].fd == fd
    ensures forall j | 0 <= j < i :: reqs[j].fd != fd
  {
    if reqs == [] || reqs[0].fd == fd then 0 else 1 + FindFd(reqs[1..], fd)
  }

  function Del(reqs: seq<Req>, i: nat): seq<Req> {
    if i < |reqs| then reqs[..i] + reqs[i + 1..] else reqs
  }

  function Notify(s: St, n: Note): St {
    s.(notes := s.notes + [n])
  }

  // ---------- the events ----------

  function TimedOut(s: St, id: nat): St {
    Notify(s.(reqs := Del(s.reqs, FindId(s.reqs, id))), Note(id, CONN_TIMEOUT, NoConn))
  }

  function Refuse(s: St, id: nat): St {
    Notify(s.(q := Without(s.q, Timeout(id))), Note(id, CONN_FAIL, NoConn))
  }

  function Add(s: St, r: Req): St {
    s.(reqs := s.reqs + [r], made := s.made + [r])
  }

  /** HandleConnConnectCmd and HandleTcpSessionConnConnectCmd. `reuse` says that a prepared link was found;
      `fd` is its socket, or for Wi-Fi and USB without one the socket that connecting gave; `t` is the clock. */
  function Command(s: St, id: nat, link: Link, reuse: bool, fd: int, t: int): St {
    if link == SessionKey && !reuse then s
    else if fd < 0 then Refuse(s, id)
    else
      var s1 := Add(s, Req(id, fd, link));
      if reuse then s1.(q := Post(s1.q, Msg(t, Result(fd, OK, link == SessionKey)))) else s1
  }

  function Answer(r: Req, fd: int, ret: Ret, viaSessionKey: bool): Note {
    if ret == OK then
      Note(r.id, ret, Conn(if viaSessionKey then SessionKey else if r.link == Usb then Usb else Wifi, fd))
    else Note(r.id, ret, NoConn)
  }

  /** HandleConnConnectResult and HandleTcpSessionConnConnectResult. */
  function Resulted(s: St, fd: int, ret: Ret, viaSessionKey: bool): St {
    var i := FindFd(s.reqs, fd);
    if i == |s.reqs| then s
    else
      var r := s.reqs[i];
      Notify(s.(q := Without(s.q, Timeout(r.id)), reqs := Del(s.reqs, i)), Answer(r, fd, ret, viaSessionKey))
  }

  function Handle(s: St, e: Event, reuse: bool, fd: int, t: int): St {
    match e
    case Timeout(id) => TimedOut(s, id)
    case Cmd(id, link) => Command(s, id, link, reuse, fd, t)
    case Result(f, ret, via) => Resulted(s, f, ret, via)
  }

  // ---------- runs ----------

  /** `t1` and `t2` are the clock readings of the two posts; `posted` says that the second one succeeded. */
  function Connect(s: St, id: nat, link: Link, t1: int, t2: int, posted: bool, fd: int): St {
    var q1 := Post(s.q, Msg(t1 + CONNECT_TIMEOUT_US, Timeout(id)));
    var s1 := s.(q := q1);
    match link
    case Unknown => s1
    case Session => Notify(s1, Note(id, OK, Conn(Session, fd)))
    case _ =>
      if posted then s1.(q := Post(q1, Msg(t2, Cmd(id, link))))
      else s1.(q := Without(q1, Timeout(id)))
  }

  datatype Input =
    | InConnect(id: nat, link: Link, t1: int, t2: int, posted: bool, fd: int)
    | InSocket(fd: int, up: bool, viaSessionKey: bool, t: int)
    | InServe(now: int, reuse: bool, fd: int, t: int)

  function Serve(s: St, now: int, reuse: bool, fd: int, t: int): St {
    if s.q == [] || s.q[0].time > now then s
    else Handle(s.(q := s.q[1..]), s.q[0].body, reuse, fd, t)
  }

  function Step(s: St, x: Input): St {
    match x
    case InConnect(id, link, t1, t2, posted, fd) => Connect(s, id, link, t1, t2, posted, fd)
    case InSocket(fd, up, via, t) =>
      s.(q := Post(s.q, Msg(t, Result(fd, if up then OK else CONN_FAIL, via))))
    case InServe(now, reuse, fd, t) => Serve(s, now, reuse, fd, t)
  }

  function Run(s: St, xs: seq<Input>): St
    decreases |xs|
  {
    if xs == [] then s else Run(Step(s, xs[0]), xs[1..])
  }

  // ---------- the invariant of one request ----------

  function NoteCount(ns: seq<Note>, id: nat): nat {
    if ns == [] then 0 else NoteCount(ns[..|ns| - 1], id) + (if ns[|ns| - 1].id == id then 1 else 0)
  }

  function Live(reqs: seq<Req>, id: nat): nat {
    if reqs == [] then 0 else (if reqs[0].id == id then 1 else 0) + Live(reqs[1..], id)
  }

  predicate IsSocket(link: Link) {
    link == Wifi || link == Usb || link == SessionKey
  }

  /** The events of one request. */
  function Of(id: nat): Event -> bool {
    (e: Event) => e == Timeout(id) || (e.Cmd? && e.id == id)
  }

  /** What is queued for a request: Ready is its command in front of its timeout, Late the other way round. */
  datatype View = Nothing | Armed | Asked(link: Link) | Ready(link: Link) | Late(link: Link) | Odd

  ghost function Seen(q: seq<Msg<Event>>, id: nat): View {
    var s := Sub(q, Of(id));
    if |s| == 0 then Nothing
    else if |s| == 1 then if s[0].Timeout? then Armed else if s[0].Cmd? then Asked(s[0].link) else Odd
    else if |s| == 2 && s[0].Cmd? && s[1].Timeout? then Ready(s[0].link)
    else if |s| == 2 && s[0].Timeout? && s[1].Cmd? then Late(s[1].link)
    else Odd
  }

  /** Where a request stands: what is queued for it, what it has been told and whether it is listed. */
  ghost predicate Stands(s: St, id: nat, v: View, told: nat, listed: nat) {
    Seen(s.q, id) == v && NoteCount(s.notes, id) == told && Live(s.reqs, id) == listed
  }

  /** Nothing of the request is queued or listed: its id was never used, or what it was used for is over. */
  ghost predicate Idle(s: St, id: nat) {
    (forall m | m in s.q :: !Of(id)(m.body)) && forall r | r in s.reqs :: r.id != id
  }

  /** What a connect is about: its link, whether it was accepted, and how many results its id had before. */
  datatype Deal = Deal(link: Link, accepted: bool, before: nat)

  /** How many results a connect is owed: one, but two on a session link, whose immediate success leaves the
      timeout armed, and none when the call itself failed. */
  function Owed(d: Deal): nat {
    if !d.accepted then 0 else if d.link == Session then 2 else 1
  }

  function Terms(s: St, id: nat, link: Link, posted: bool): Deal {
    Deal(link, posted || !IsSocket(link), NoteCount(s.notes, id))
  }

  /** Where the request of the latest connect of `id` stands. */
  ghost predicate Ok(s: St, id: nat, d: Deal) {
    if !d.accepted then Stands(s, id, Nothing, d.before, 0)
    else if d.link == Session then Stands(s, id, Armed, d.before + 1, 0) || Stands(s, id, Nothing, d.before + 2, 0)
    else
      || (IsSocket(d.link) && Stands(s, id, Ready(d.link), d.before, 0))
      || (IsSocket(d.link) && Stands(s, id, Armed, d.before, 1))
      || Stands(s, id, Armed, d.before, 0)
      || Stands(s, id, Nothing, d.before + 1, 0)
  }

  // ---------- the queue of one request ----------

  lemma {:induction false} SubIsMine(q: seq<Msg<Event>>, id: nat)
    ensures forall e | e in Sub(q, Of(id)) :: Of(id)(e)
  {
    if q != [] {
      SubIsMine(q[1..], id);
    }
  }

  lemma SeenTail(q: seq<Msg<Event>>, id: nat)
    requires q != []
    ensures !Of(id)(q[0].body) ==> Seen(q[1..], id) == Seen(q, id)
    ensures q[0].body == Timeout(id) ==> Seen(q, id) != Nothing && !Seen(q, id).Ready? && !Seen(q, id).Asked?
    ensures q[0].body == Timeout(id) && Seen(q, id) == Armed ==> Seen(q[1..], id) == Nothing
    ensures q[0].body == Timeout(id) && Seen(q, id).Late? ==> Seen(q[1..], id) == Asked(Seen(q, id).link)
    ensures q[0].body.Cmd? && q[0].body.id == id ==>
              Seen(q, id) != Nothing && Seen(q, id) != Armed && !Seen(q, id).Late?
    ensures q[0].body.Cmd? && q[0].body.id == id && Seen(q, id).Ready? ==>
              Seen(q, id) == Ready(q[0].body.link) && Seen(q[1..], id) == Armed
    ensures q[0].body.Cmd? && q[0].body.id == id && Seen(q, id).Asked? ==>
              Seen(q, id) == Asked(q[0].body.link) && Seen(q[1..], id) == Nothing
  {
    SubTail(q, Of(id));
    hide Sub;
  }

  lemma SeenPostOther(q: seq<Msg<Event>>, m: Msg<Event>, id: nat)
    requires !Of(id)(m.body)
    ensures Seen(Post(q, m), id) == Seen(q, id)
  {
    SubPost(q, m, Of(id));
  }

  lemma SeenWithout(q: seq<Msg<Event>>, j: nat, id: nat)
    ensures j != id ==> Seen(Without(q, Timeout(j)), id) == Seen(q, id)
    ensures j == id && (Seen(q, id) == Armed || Seen(q, id) == Nothing) ==> Seen(Without(q, Timeout(j)), id) == Nothing
  {
    SubWithout(q, Timeout(j), Of(id));
    SubIsMine(q, id);
    hide Sub, Without;
    if |Sub(q, Of(id))| == 1 {
      assert Sub(q, Of(id))[0] in Sub(q, Of(id));
    }
  }

  /** Arming and then commanding: in front of the timeout if prompt, behind it in a sorted queue if late. */
  lemma SeenConnect(q: seq<Msg<Event>>, id: nat, link: Link, t1: int, t2: int)
    requires Seen(q, id) == Nothing
    ensures var q1 := Post(q, Msg(t1 + CONNECT_TIMEOUT_US, Timeout(id)));
            var q2 := Post(q1, Msg(t2, Cmd(id, link)));
            && Seen(q1, id) == Armed
            && (t2 < t1 + CONNECT_TIMEOUT_US ==> Seen(q2, id) == Ready(link))
            && (Sorted(q) && t2 >= t1 + CONNECT_TIMEOUT_US ==> Seen(q2, id) == Late(link))
  {
    var m, c := Msg(t1 + CONNECT_TIMEOUT_US, Timeout(id)), Msg(t2, Cmd(id, link));
    var q1 := Post(q, m);
    SubPost(q, m, Of(id));
    PostIndices(q, m);
    var k := Slot(q, m.time);
    hide Sub, Post, Slot;
    var a, b := Sub(q[..k], Of(id)), Sub(q[k..], Of(id));
    assert a == [] && b == [] && Sub(q1, Of(id)) == [m.body];
    if t2 < m.time {
      SubPostBefore(q1, c, k, Of(id));
    } else if Sorted(q) {
      PostKeepsOrder(q, m);
      SubPostBehind(q1, c, k, Of(id));
    }
  }

  lemma SeenCount(q: seq<Msg<Event>>, id: nat)
    ensures Seen(q, id) == Nothing ==> Count(q, Timeout(id)) == 0
    ensures Seen(q, id) == Armed || Seen(q, id).Ready? ==> Count(q, Timeout(id)) == 1
  {
    hide Sub, Count;
    CountSub(q, Timeout(id), Of(id));
    SubIsMine(q, id);
    var s := Sub(q, Of(id));
    if |s| == 1 {
      assert s[0] in s;
    } else if |s| == 2 {
      assert s[0] in s && s[1] in s;
    }
  }

  // ---------- lists ----------

  lemma {:induction false} LiveConcat(xs: seq<Req>, ys: seq<Req>, id: nat)
    ensures Live(xs + ys, id) == Live(xs, id) + Live(ys, id)
  {
    if xs == [] {
      assert xs + ys == ys;
    } else {
      assert (xs + ys)[1..] == xs[1..] + ys;
      LiveConcat(xs[1..], ys, id);
    }
  }

  lemma LiveAdd(reqs: seq<Req>, r: Req, id: nat)
    ensures Live(reqs + [r], id) == Live(reqs, id) + (if r.id == id then 1 else 0)
  {
    LiveConcat(reqs, [r], id);
  }

  lemma LiveDel(reqs: seq<Req>, i: nat, id: nat)
    requires i < |reqs|
    ensures Live(Del(reqs, i), id) == Live(reqs, id) - (if reqs[i].id == id then 1 else 0)
  {
    assert reqs == reqs[..i] + reqs[i..] && reqs[i..][1..] == reqs[i + 1..];
    LiveConcat(reqs[..i], reqs[i..], id);
    LiveConcat(reqs[..i], reqs[i + 1..], id);
  }

  lemma {:induction false} LiveFindId(reqs: seq<Req>, id: nat)
    ensures FindId(reqs, id) == |reqs| <==> Live(reqs, id) == 0
  {
    if reqs != [] {
      LiveFindId(reqs[1..], id);
    }
  }

  lemma {:induction false} LiveAt(reqs: seq<Req>, i: nat)
    requires i < |reqs|
    ensures Live(reqs, reqs[i].id) > 0
  {
    if i > 0 {
      LiveAt(reqs[1..], i - 1);
    }
  }

  lemma NoteAdded(ns: seq<Note>, n: Note, id: nat)
    ensures NoteCount(ns + [n], id) == NoteCount(ns, id) + (if n.id == id then 1 else 0)
  {
    assert (ns + [n])[..|ns|] == ns;
  }

  lemma {:induction false} NotListed(reqs: seq<Req>, id: nat)
    ensures Live(reqs, id) == 0 <==> forall r | r in reqs :: r.id != id
  {
    if reqs != [] {
      NotListed(reqs[1..], id);
    }
  }

  lemma {:induction false} NothingSeen(q: seq<Msg<Event>>, id: nat)
    ensures Seen(q, id) == Nothing <==> forall m | m in q :: !Of(id)(m.body)
  {
    if q != [] {
      NothingSeen(q[1..], id);
      SubTail(q, Of(id));
      hide Sub;
    }
  }

  // ---------- one request at a time ----------

  lemma ResultedKeeps(s: St, fd: int, ret: Ret, viaSessionKey: bool, id: nat, d: Deal)
    requires Ok(s, id, d)
    ensures Ok(Resulted(s, fd, ret, viaSessionKey), id, d)
  {
    hide Live, NoteCount, Seen, Without, Del, FindFd;
    var i := FindFd(s.reqs, fd);
    if i < |s.reqs| {
      var r := s.reqs[i];
      LiveAt(s.reqs, i);
      LiveDel(s.reqs, i, id);
      SeenWithout(s.q, r.id, id);
      NoteAdded(s.notes, Answer(r, fd, ret, viaSessionKey), id);
    }
  }

  lemma CommandKeeps(s: St, reuse: bool, fd: int, t: int, id: nat, d: Deal)
    requires Ok(s, id, d) && s.q != [] && s.q[0].body.Cmd?
    ensures Ok(Command(s.(q := s.q[1..]), s.q[0].body.id, s.q[0].body.link, reuse, fd, t), id, d)
  {
    hide Live, NoteCount, Seen, Without, Post;
    var Cmd(j, link) := s.q[0].body;
    SeenTail(s.q, id);
    SeenWithout(s.q[1..], j, id);
    SeenPostOther(s.q[1..], Msg(t, Result(fd, OK, link == SessionKey)), id);
    NoteAdded(s.notes, Note(j, CONN_FAIL, NoConn), id);
    LiveAdd(s.reqs, Req(j, fd, link), id);
    if j == id {
      assert Stands(s, id, Ready(link), d.before, 0) && IsSocket(link) && d.link == link;
      assert Stands(s.(q := s.q[1..]), id, Armed, d.before, 0);
    }
  }

  /** A timeout is never served in front of its own command, so what it removes is all there is. */
  lemma TimedOutKeeps(s: St, id: nat, d: Deal)
    requires Ok(s, id, d) && s.q != [] && s.q[0].body.Timeout?
    ensures Ok(TimedOut(s.(q := s.q[1..]), s.q[0].body.id), id, d)
  {
    hide Live, NoteCount, Seen, FindId;
    var j := s.q[0].body.id;
    var i := FindId(s.reqs, j);
    SeenTail(s.q, id);
    NoteAdded(s.notes, Note(j, CONN_TIMEOUT, NoConn), id);
    LiveFindId(s.reqs, j);
    if i < |s.reqs| {
      LiveDel(s.reqs, i, id);
    }
  }

  lemma ServeKeeps(s: St, now: int, reuse: bool, fd: int, t: int, id: nat, d: Deal)
    requires Ok(s, id, d)
    ensures Ok(Serve(s, now, reuse, fd, t), id, d)
  {
    hide Live, NoteCount, Seen, Resulted, Command, TimedOut;
    if s.q != [] && s.q[0].time <= now {
      match s.q[0].body
      case Timeout(_) => TimedOutKeeps(s, id, d);
      case Cmd(_, _) => CommandKeeps(s, reuse, fd, t, id, d);
      case Result(f, ret, via) =>
        SeenTail(s.q, id);
        ResultedKeeps(s.(q := s.q[1..]), f, ret, via, id, d);
    }
  }

  /** A connect keeps every other request where it stands, whatever its own id and times. */
  lemma ConnectKeeps(s: St, j: nat, link: Link, t1: int, t2: int, posted: bool, fd: int, id: nat, d: Deal)
    requires Ok(s, id, d) && j != id
    ensures Ok(Connect(s, j, link, t1, t2, posted, fd), id, d)
  {
    hide Live, NoteCount, Seen, Without, Post;
    var m, c := Msg(t1 + CONNECT_TIMEOUT_US, Timeout(j)), Msg(t2, Cmd(j, link));
    var q1 := Post(s.q, m);
    NoteAdded(s.notes, Note(j, OK, Conn(Session, fd)), id);
    SeenPostOther(s.q, m, id);
    SeenPostOther(q1, c, id);
    SeenWithout(q1, j, id);
  }

  /** The command of a connect, if it has one, is posted before its timeout is due. */
  predicate Prompt(link: Link, t1: int, t2: int, posted: bool) {
    IsSocket(link) && posted ==> t2 < t1 + CONNECT_TIMEOUT_US
  }

  lemma ConnectStarts(s: St, id: nat, link: Link, t1: int, t2: int, posted: bool, fd: int)
    requires Idle(s, id) && Prompt(link, t1, t2, posted)
    ensures Ok(Connect(s, id, link, t1, t2, posted, fd), id, Terms(s, id, link, posted))
  {
    NotListed(s.reqs, id);
    NothingSeen(s.q, id);
    hide Live, NoteCount, Seen, Without, Post;
    NoteAdded(s.notes, Note(id, OK, Conn(Session, fd)), id);
    SeenConnect(s.q, id, link, t1, t2);
    SeenWithout(Post(s.q, Msg(t1 + CONNECT_TIMEOUT_US, Timeout(id))), id, id);
  }

  lemma StepKeeps(s: St, x: Input, id: nat, d: Deal)
    requires Ok(s, id, d) && !(x.InConnect? && x.id == id)
    ensures Ok(Step(s, x), id, d)
  {
    hide Connect, Serve, Post, Seen, Live, NoteCount;
    match x
    case InConnect(j, link, t1, t2, posted, fd) => ConnectKeeps(s, j, link, t1, t2, posted, fd, id, d);
    case InSocket(fd, up, via, t) => SeenPostOther(s.q, Msg(t, Result(fd, if up then OK else CONN_FAIL, via)), id);
    case InServe(now, reuse, fd, t) => ServeKeeps(s, now, reuse, fd, t, id, d);
  }

  ghost predicate NoConnectsOf(xs: seq<Input>, id: nat) {
    forall x | x in xs :: !(x.InConnect? && x.id == id)
  }

  lemma {:induction false} RunKeeps(s: St, xs: seq<Input>, id: nat, d: Deal)
    requires Ok(s, id, d) && NoConnectsOf(xs, id)
    ensures Ok(Run(s, xs), id, d)
    decreases |xs|
  {
    if xs != [] {
      hide Ok, Step;
      StepKeeps(s, xs[0], id, d);
      RunKeeps(Step(s, xs[0]), xs[1..], id, d);
    }
  }

  // ---------- results ----------

  /** From any state in which nothing of the id is queued or listed, and at every later point until the id is used
      again: the results its connect has had and the timeouts still armed for it add up to what it is owed, and
      while it is listed its timeout is armed and it has had no result. Of other requests nothing is asked. */
  lemma ResultsPlusTimeouts(s0: St, id: nat, link: Link, t1: int, t2: int, posted: bool, fd: int, xs: seq<Input>)
    requires Idle(s0, id) && Prompt(link, t1, t2, posted) && NoConnectsOf(xs, id)
    ensures var d := Terms(s0, id, link, posted);
            var s := Run(Connect(s0, id, link, t1, t2, posted, fd), xs);
            && NoteCount(s.notes, id) - d.before + Count(s.q, Timeout(id)) == Owed(d)
            && ((exists r | r in s.reqs :: r.id == id) ==>
                  Count(s.q, Timeout(id)) == 1 && NoteCount(s.notes, id) == d.before)
  {
    var d := Terms(s0, id, link, posted);
    var s := Run(Connect(s0, id, link, t1, t2, posted, fd), xs);
    ConnectStarts(s0, id, link, t1, t2, posted, fd);
    RunKeeps(Connect(s0, id, link, t1, t2, posted, fd), xs, id, d);
    hide Run, Seen, Count, NoteCount, Connect;
    SeenCount(s.q, id);
    NotListed(s.reqs, id);
  }

  /** An id is free for the next connect as soon as its results have come, and before it is first used. */
  lemma AnsweredIsIdle(s: St, id: nat, d: Deal)
    requires Ok(s, id, d) && NoteCount(s.notes, id) == d.before + Owed(d)
    ensures Idle(s, id)
  {
    hide NoteCount, Live, Seen;
    NotListed(s.reqs, id);
    NothingSeen(s.q, id);
  }

  lemma UnusedIsIdle(xs: seq<Input>, id: nat)
    requires NoConnectsOf(xs, id)
    ensures Idle(Run(Initial(), xs), id)
  {
    var d := Deal(Unknown, false, 0);
    assert Ok(Initial(), id, d);
    RunKeeps(Initial(), xs, id, d);
    AnsweredIsIdle(Run(Initial(), xs), id, d);
  }

  /** Every connect of the id in the run is prompt and finds nothing of the id left. */
  ghost predicate ProperRun(s: St, xs: seq<Input>, id: nat)
    decreases |xs|
  {
    xs == [] || (
      && (xs[0].InConnect? && xs[0].id == id ==>
            Idle(s, id) && Prompt(xs[0].link, xs[0].t1, xs[0].t2, xs[0].posted))
      && ProperRun(Step(s, xs[0]), xs[1..], id))
  }

  /** What the connects of the id in a run are owed together; nothing but the inputs decides it. */
  function Promised(xs: seq<Input>, id: nat): nat {
    if xs == [] then 0
    else if xs[0].InConnect? && xs[0].id == id then
      Owed(Deal(xs[0].link, xs[0].posted || !IsSocket(xs[0].link), 0)) + Promised(xs[1..], id)
    else Promised(xs[1..], id)
  }

  lemma IdleHasAll(s: St, id: nat, d: Deal)
    requires Ok(s, id, d) && Idle(s, id)
    ensures NoteCount(s.notes, id) == d.before + Owed(d)
  {
    hide NoteCount, Live, Seen;
    NotListed(s.reqs, id);
    NothingSeen(s.q, id);
  }

  lemma {:induction false} RunBalances(s: St, xs: seq<Input>, id: nat, d: Deal)
    requires Ok(s, id, d) && ProperRun(s, xs, id)
    ensures NoteCount(Run(s, xs).notes, id) + Count(Run(s, xs).q, Timeout(id)) == d.before + Owed(d) + Promised(xs, id)
    decreases |xs|
  {
    hide Step, Count, NoteCount, Idle;
    if xs == [] {
      SeenCount(s.q, id);
    } else if xs[0].InConnect? && xs[0].id == id {
      hide Ok;
      var InConnect(_, link, t1, t2, posted, fd) := xs[0];
      IdleHasAll(s, id, d);
      ConnectStarts(s, id, link, t1, t2, posted, fd);
      StepConnects(s, id, link, t1, t2, posted, fd);
      RunBalances(Step(s, xs[0]), xs[1..], id, Terms(s, id, link, posted));
    } else {
      hide Ok;
      StepKeeps(s, xs[0], id, d);
      RunBalances(Step(s, xs[0]), xs[1..], id, d);
    }
  }

  lemma StepConnects(s: St, id: nat, link: Link, t1: int, t2: int, posted: bool, fd: int)
    ensures Step(s, InConnect(id, link, t1, t2, posted, fd)) == Connect(s, id, link, t1, t2, posted, fd)
  {
    hide Connect;
  }

  /** Over whole runs, however often the id comes round again: all its results and the timeouts still armed for it
      add up to what its connects are owed. */
  lemma ResultsBalance(xs: seq<Input>, id: nat)
    requires ProperRun(Initial(), xs, id)
    ensures var s := Run(Initial(), xs);
            NoteCount(s.notes, id) + Count(s.q, Timeout(id)) == Promised(xs, id)
  {
    assert Ok(Initial(), id, Deal(Unknown, false, 0));
    RunBalances(Initial(), xs, id, Deal(Unknown, false, 0));
  }

  ghost predicate MadeOk(s: St) {
    && (forall r | r in s.reqs :: r in s.made)
    && forall n | n in s.notes && n.conn.Conn? && n.conn.link != Session ::
         exists r | r in s.made :: r.id == n.id && r.fd == n.conn.fd
  }

  lemma {:induction false} RunKeepsMade(s: St, xs: seq<Input>)
    requires MadeOk(s)
    ensures MadeOk(Run(s, xs))
    decreases |xs|
  {
    if xs != [] {
      StepKeepsMade(s, xs[0]);
      hide MadeOk, Step;
      RunKeepsMade(Step(s, xs[0]), xs[1..]);
    }
  }

  lemma StepKeepsMade(s: St, x: Input)
    requires MadeOk(s)
    ensures MadeOk(Step(s, x))
  {
    hide Post, Without, FindId, FindFd;
  }

  /** In every run whatever, a success names a socket this very request was listed with. */
  lemma SuccessNamesItsSocket(xs: seq<Input>, n: Note)
    requires n in Run(Initial(), xs).notes && n.conn.Conn? && n.conn.link != Session
    ensures exists r | r in Run(Initial(), xs).made :: r.id == n.id && r.fd == n.conn.fd
  {
    RunKeepsMade(Initial(), xs);
  }

  function Weight(q: seq<Msg<Event>>): nat {
    if q == [] then 0 else (if q[0].body.Cmd? then 2 else 1) + Weight(q[1..])
  }

  ghost predicate ServesAll(s: St, xs: seq<Input>)
    decreases |xs|
  {
    xs == [] || (xs[0].InServe? && (s.q != [] ==> s.q[0].time <= xs[0].now) && ServesAll(Step(s, xs[0]), xs[1..]))
  }

  lemma {:induction false} WeightWithout(q: seq<Msg<Event>>, x: Event)
    ensures Weight(Without(q, x)) <= Weight(q)
  {
    if q != [] {
      WeightWithout(q[1..], x);
    }
  }

  lemma {:induction false} WeightPost(q: seq<Msg<Event>>, m: Msg<Event>)
    ensures Weight(Post(q, m)) == Weight(q) + (if m.body.Cmd? then 2 else 1)
  {
    if q != [] {
      PostTail(q, m);
      WeightPost(q[1..], m);
    }
  }

  lemma ServeShrinks(s: St, now: int, reuse: bool, fd: int, t: int)
    requires s.q != [] && s.q[0].time <= now
    ensures Weight(Serve(s, now, reuse, fd, t).q) < Weight(s.q)
  {
    forall x ensures Weight(Without(s.q[1..], x)) <= Weight(s.q[1..]) {
      WeightWithout(s.q[1..], x);
    }
    WeightPost(s.q[1..], Msg(t, Result(fd, OK, s.q[0].body.Cmd? && s.q[0].body.link == SessionKey)));
  }

  lemma {:induction false} ServesToEmpty(s: St, xs: seq<Input>, id: nat)
    requires ServesAll(s, xs) && Weight(s.q) <= |xs|
    ensures Run(s, xs).q == [] && NoConnectsOf(xs, id)
    decreases |xs|
  {
    if xs != [] {
      var InServe(now, reuse, fd, t) := xs[0];
      if s.q != [] {
        ServeShrinks(s, now, reuse, fd, t);
      }
      hide Serve;
      ServesToEmpty(Step(s, xs[0]), xs[1..], id);
    }
  }

  lemma {:induction false} RunSplits(s: St, xs: seq<Input>, ys: seq<Input>)
    ensures Run(s, xs + ys) == Run(Run(s, xs), ys)
    decreases |xs|
  {
    if xs == [] {
      assert xs + ys == ys;
    } else {
      assert (xs + ys)[1..] == xs[1..] + ys;
      RunSplits(Step(s, xs[0]), xs[1..], ys);
    }
  }

  /** Once the looper has caught up, an accepted Wi-Fi, USB or session-key connect has had exactly one result,
      whatever results came late or twice, and its id is free again; catching up takes at most two turns per queued
      event. */
  lemma {:induction false} EveryConnectIsAnsweredOnce(
      s0: St, id: nat, link: Link, t1: int, t2: int, posted: bool, fd: int, xs: seq<Input>, ys: seq<Input>)
    requires Idle(s0, id) && Prompt(link, t1, t2, posted) && NoConnectsOf(xs, id)
    requires var s := Run(Connect(s0, id, link, t1, t2, posted, fd), xs); ServesAll(s, ys) && Weight(s.q) <= |ys|
    ensures var d := Terms(s0, id, link, posted);
            var s := Run(Connect(s0, id, link, t1, t2, posted, fd), xs + ys);
            && NoteCount(s.notes, id) == NoteCount(s0.notes, id) + Owed(d)
            && (IsSocket(link) && posted ==> NoteCount(s.notes, id) == NoteCount(s0.notes, id) + 1)
            && Idle(s, id)
  {
    hide Run, NoteCount, Live, Connect, ServesAll, Weight, NoConnectsOf, Idle;
    var d, c := Terms(s0, id, link, posted), Connect(s0, id, link, t1, t2, posted, fd);
    var s := Run(c, xs);
    ConnectStarts(s0, id, link, t1, t2, posted, fd);
    RunKeeps(c, xs, id, d);
    ServesToEmpty(s, ys, id);
    RunKeeps(s, ys, id, d);
    RunSplits(c, xs, ys);
    assert Seen(Run(s, ys).q, id) == Nothing;
    AnsweredIsIdle(Run(s, ys), id, d);
  }
}
