/** What a connect request is told, and why: every result is traced to what happened to its socket. */
module ConnAnswers {
  import opened Looper
  import opened ConnRequests

  // ---------- what happened in a run ----------

  ghost predicate Due(s: St, now: int, e: Event) {
    s.q != [] && s.q[0].time <= now && s.q[0].body == e
  }

  /** Input `k` of the run is a turn of the looper that serves this event. */
  ghost predicate Serves(xs: seq<Input>, k: nat, e: Event)
    ensures Serves(xs, k, e) ==> k < |xs| && xs[k].InServe?
  {
    k < |xs| && xs[k].InServe? && Due(Run(Initial(), xs[..k]), xs[k].now, e)
  }

  /** A command for this link gets as far as its socket; over a session key it needs a prepared one. */
  predicate Goes(link: Link, reuse: bool) {
    link != SessionKey || reuse
  }

  /** A served command listed the request with this socket. */
  ghost predicate Listed(xs: seq<Input>, r: Req) {
    exists k: nat :: Serves(xs, k, Cmd(r.id, r.link)) && xs[k].fd == r.fd && r.fd >= 0 && Goes(r.link, xs[k].reuse)
  }

  /** A served command found no socket. */
  ghost predicate Refused(xs: seq<Input>, id: nat) {
    exists k: nat, link :: Serves(xs, k, Cmd(id, link)) && xs[k].fd < 0 && Goes(link, xs[k].reuse)
  }

  ghost predicate Reported(xs: seq<Input>, fd: int, up: bool, via: bool) {
    exists k :: 0 <= k < |xs| && xs[k].InSocket? && xs[k].fd == fd && xs[k].up == up && xs[k].viaSessionKey == via
  }

  /** A served command took a socket that was up already; `via` says that it did so over the session-key path. */
  ghost predicate Reused(xs: seq<Input>, fd: int, via: bool) {
    exists k: nat, id, link ::
      Serves(xs, k, Cmd(id, link)) && xs[k].reuse && xs[k].fd == fd && fd >= 0 && via == (link == SessionKey)
  }

  ghost predicate CameUp(xs: seq<Input>, fd: int, via: bool) {
    Reported(xs, fd, true, via) || Reused(xs, fd, via)
  }

  ghost predicate WentDown(xs: seq<Input>, fd: int) {
    Reported(xs, fd, false, true) || Reported(xs, fd, false, false)
  }

  ghost predicate Opened(xs: seq<Input>, id: nat, fd: int) {
    exists k :: 0 <= k < |xs| && xs[k].InConnect? && xs[k].id == id && xs[k].link == Session && xs[k].fd == fd
  }

  /** A connection that came up for a request listed with that socket, under the type of the path it came by. */
  ghost predicate Earned(xs: seq<Input>, id: nat, conn: Conn, r: Req, via: bool) {
    && Listed(xs, r) && r.id == id && CameUp(xs, r.fd, via)
    && conn == Conn(if via then SessionKey else if r.link == Usb then Usb else Wifi, r.fd)
  }

  /** Why a request was told what it was told. */
  ghost predicate Explained(xs: seq<Input>, n: Note) {
    match n.ret
    case OK =>
      || (n.conn.Conn? && n.conn.link == Session && Opened(xs, n.id, n.conn.fd))
      || exists r: Req, via :: Earned(xs, n.id, n.conn, r, via)
    case CONN_TIMEOUT => n.conn == NoConn && exists k: nat :: Serves(xs, k, Timeout(n.id))
    case CONN_FAIL =>
      n.conn == NoConn && (Refused(xs, n.id) || exists r: Req :: Listed(xs, r) && r.id == n.id && WentDown(xs, r.fd))
  }

  // ---------- a longer run explains no less ----------

  lemma ServesGrows(xs: seq<Input>, x: Input, k: nat, e: Event)
    requires Serves(xs, k, e)
    ensures Serves(xs + [x], k, e) && (xs + [x])[k] == xs[k]
  {
    hide Run;
    assert (xs + [x])[..k] == xs[..k];
  }

  lemma ListedGrows(xs: seq<Input>, x: Input, r: Req)
    requires Listed(xs, r)
    ensures Listed(xs + [x], r)
  {
    hide Serves;
    var k: nat :| Serves(xs, k, Cmd(r.id, r.link)) && xs[k].fd == r.fd && r.fd >= 0 && Goes(r.link, xs[k].reuse);
    ServesGrows(xs, x, k, Cmd(r.id, r.link));
  }

  lemma RefusedGrows(xs: seq<Input>, x: Input, id: nat)
    requires Refused(xs, id)
    ensures Refused(xs + [x], id)
  {
    hide Serves;
    var k: nat, link :| Serves(xs, k, Cmd(id, link)) && xs[k].fd < 0 && Goes(link, xs[k].reuse);
    ServesGrows(xs, x, k, Cmd(id, link));
  }

  lemma ReportedGrows(xs: seq<Input>, x: Input, fd: int, up: bool, via: bool)
    requires Reported(xs, fd, up, via)
    ensures Reported(xs + [x], fd, up, via)
  {
    var k :| 0 <= k < |xs| && xs[k].InSocket? && xs[k].fd == fd && xs[k].up == up && xs[k].viaSessionKey == via;
    assert (xs + [x])[k] == xs[k];
  }

  lemma CameUpGrows(xs: seq<Input>, x: Input, fd: int, via: bool)
    requires CameUp(xs, fd, via)
    ensures CameUp(xs + [x], fd, via)
  {
    hide Serves;
    if Reported(xs, fd, true, via) {
      ReportedGrows(xs, x, fd, true, via);
    } else {
      var k: nat, id, link :| Serves(xs, k, Cmd(id, link)) && xs[k].reuse && xs[k].fd == fd && fd >= 0
                         && via == (link == SessionKey);
      ServesGrows(xs, x, k, Cmd(id, link));
    }
  }

  lemma WentDownGrows(xs: seq<Input>, x: Input, fd: int)
    requires WentDown(xs, fd)
    ensures WentDown(xs + [x], fd)
  {
    hide Reported;
    var via := Reported(xs, fd, false, true);
    ReportedGrows(xs, x, fd, false, via);
  }

  lemma OpenedGrows(xs: seq<Input>, x: Input, id: nat, fd: int)
    requires Opened(xs, id, fd)
    ensures Opened(xs + [x], id, fd)
  {
    var k :| 0 <= k < |xs| && xs[k].InConnect? && xs[k].id == id && xs[k].link == Session && xs[k].fd == fd;
    assert (xs + [x])[k] == xs[k];
  }

  lemma ExplainedGrows(xs: seq<Input>, x: Input, n: Note)
    requires Explained(xs, n)
    ensures Explained(xs + [x], n)
  {
    hide Serves, Listed, Refused, CameUp, WentDown, Opened;
    match n.ret
    case OK =>
      if n.conn.Conn? && n.conn.link == Session && Opened(xs, n.id, n.conn.fd) {
        OpenedGrows(xs, x, n.id, n.conn.fd);
      } else {
        var r: Req, via :| Earned(xs, n.id, n.conn, r, via);
        ListedGrows(xs, x, r);
        CameUpGrows(xs, x, r.fd, via);
        assert Earned(xs + [x], n.id, n.conn, r, via);
      }
    case CONN_TIMEOUT =>
      var k: nat :| Serves(xs, k, Timeout(n.id));
      ServesGrows(xs, x, k, Timeout(n.id));
    case CONN_FAIL =>
      if Refused(xs, n.id) {
        RefusedGrows(xs, x, n.id);
      } else {
        var r: Req :| Listed(xs, r) && r.id == n.id && WentDown(xs, r.fd);
        ListedGrows(xs, x, r);
        WentDownGrows(xs, x, r.fd);
      }
  }

  // ---------- the invariant ----------

  ghost predicate ResultOk(xs: seq<Input>, e: Event) {
    e.Result? ==>
      match e.ret
      case OK => CameUp(xs, e.fd, e.viaSessionKey)
      case CONN_FAIL => WentDown(xs, e.fd)
      case CONN_TIMEOUT => false
  }

  ghost predicate QueueOk(xs: seq<Input>, q: seq<Msg<Event>>) {
    forall m | m in q :: ResultOk(xs, m.body)
  }

  ghost predicate ReqsOk(xs: seq<Input>, reqs: seq<Req>) {
    forall r | r in reqs :: Listed(xs, r)
  }

  ghost predicate NotesOk(xs: seq<Input>, notes: seq<Note>) {
    forall n | n in notes :: Explained(xs, n)
  }

  lemma AllGrow(xs: seq<Input>, x: Input, s: St)
    requires QueueOk(xs, s.q) && ReqsOk(xs, s.reqs) && NotesOk(xs, s.notes)
    ensures QueueOk(xs + [x], s.q) && ReqsOk(xs + [x], s.reqs) && NotesOk(xs + [x], s.notes)
  {
    hide Listed, Explained, CameUp, WentDown;
    forall m | m in s.q ensures ResultOk(xs + [x], m.body) {
      assert ResultOk(xs, m.body);
      if m.body.Result? && m.body.ret == OK {
        CameUpGrows(xs, x, m.body.fd, m.body.viaSessionKey);
      } else if m.body.Result? {
        WentDownGrows(xs, x, m.body.fd);
      }
    }
    forall r | r in s.reqs ensures Listed(xs + [x], r) {
      ListedGrows(xs, x, r);
    }
    forall n | n in s.notes ensures Explained(xs + [x], n) {
      ExplainedGrows(xs, x, n);
    }
  }

  lemma PostKeepsQueue(xs: seq<Input>, q: seq<Msg<Event>>, m: Msg<Event>)
    requires QueueOk(xs, q) && ResultOk(xs, m.body)
    ensures QueueOk(xs, Post(q, m))
  {
    hide Slot, ResultOk;
    assert forall x | x in Post(q, m) :: x == m || x in q;
  }

  lemma WithoutKeepsQueue(xs: seq<Input>, q: seq<Msg<Event>>, e: Event)
    requires QueueOk(xs, q)
    ensures QueueOk(xs, Without(q, e))
  {
    hide ResultOk;
    WithoutSubset(q, e);
  }

  lemma ConnectKeepsAll(xs: seq<Input>, s: St, x: Input)
    requires x.InConnect? && QueueOk(xs, s.q) && ReqsOk(xs, s.reqs) && NotesOk(xs, s.notes)
    requires |xs| > 0 && xs[|xs| - 1] == x
    ensures var t := Step(s, x); QueueOk(xs, t.q) && ReqsOk(xs, t.reqs) && NotesOk(xs, t.notes)
  {
    hide Listed, CameUp, WentDown, Post, Without, QueueOk;
    var InConnect(id, link, t1, t2, posted, fd) := x;
    var m, c := Msg(t1 + CONNECT_TIMEOUT_US, Timeout(id)), Msg(t2, Cmd(id, link));
    PostKeepsQueue(xs, s.q, m);
    PostKeepsQueue(xs, Post(s.q, m), c);
    WithoutKeepsQueue(xs, Post(s.q, m), Timeout(id));
    if link == Session {
      assert Opened(xs, id, fd);
      assert Explained(xs, Note(id, OK, Conn(Session, fd)));
    }
    hide Explained;
  }

  lemma TimedOutKeepsAll(xs: seq<Input>, s: St, k: nat, id: nat)
    requires QueueOk(xs, s.q) && ReqsOk(xs, s.reqs) && NotesOk(xs, s.notes) && Serves(xs, k, Timeout(id))
    ensures var t := TimedOut(s, id); QueueOk(xs, t.q) && ReqsOk(xs, t.reqs) && NotesOk(xs, t.notes)
  {
    assert Explained(xs, Note(id, CONN_TIMEOUT, NoConn));
    hide Explained, Listed, QueueOk, Serves;
  }

  lemma CommandKeepsAll(xs: seq<Input>, s: St, k: nat, id: nat, link: Link, t: int)
    requires QueueOk(xs, s.q) && ReqsOk(xs, s.reqs) && NotesOk(xs, s.notes) && Serves(xs, k, Cmd(id, link))
    ensures var u := Command(s, id, link, xs[k].reuse, xs[k].fd, t);
            QueueOk(xs, u.q) && ReqsOk(xs, u.reqs) && NotesOk(xs, u.notes)
  {
    hide Serves, QueueOk, Post, Without;
    var fd, reuse := xs[k].fd, xs[k].reuse;
    if Goes(link, reuse) {
      if fd < 0 {
        assert Refused(xs, id);
        assert Explained(xs, Note(id, CONN_FAIL, NoConn));
        WithoutKeepsQueue(xs, s.q, Timeout(id));
      } else {
        var r := Req(id, fd, link);
        assert Serves(xs, k, Cmd(r.id, r.link));
        assert Listed(xs, r);
        if reuse {
          assert Reused(xs, fd, link == SessionKey);
          PostKeepsQueue(xs, s.q, Msg(t, Result(fd, OK, link == SessionKey)));
        }
      }
    }
    hide Explained, Listed;
  }

  lemma ResultedKeepsAll(xs: seq<Input>, s: St, fd: int, ret: Ret, via: bool)
    requires QueueOk(xs, s.q) && ReqsOk(xs, s.reqs) && NotesOk(xs, s.notes) && ResultOk(xs, Result(fd, ret, via))
    ensures var t := Resulted(s, fd, ret, via); QueueOk(xs, t.q) && ReqsOk(xs, t.reqs) && NotesOk(xs, t.notes)
  {
    hide QueueOk, Without, Listed, CameUp, WentDown;
    var i := FindFd(s.reqs, fd);
    if i < |s.reqs| {
      var r := s.reqs[i];
      WithoutKeepsQueue(xs, s.q, Timeout(r.id));
      assert r in s.reqs && Listed(xs, r) && r.fd == fd;
      var n := Answer(r, fd, ret, via);
      if ret == OK {
        assert Earned(xs, r.id, n.conn, r, via);
      }
      assert Explained(xs, n);
    }
    hide Explained, FindFd;
  }

  lemma StepKeepsAll(xs: seq<Input>, x: Input)
    requires var s := Run(Initial(), xs); QueueOk(xs, s.q) && ReqsOk(xs, s.reqs) && NotesOk(xs, s.notes)
    ensures var ys, t := xs + [x], Step(Run(Initial(), xs), x);
            QueueOk(ys, t.q) && ReqsOk(ys, t.reqs) && NotesOk(ys, t.notes)
  {
    var s, ys := Run(Initial(), xs), xs + [x];
    AllGrow(xs, x, s);
    assert ys[..|xs|] == xs && ys[|xs|] == x;
    hide Run, ReqsOk, NotesOk, Connect, Post, TimedOut, Command, Resulted;
    match x
    case InConnect(id, link, t1, t2, posted, fd) => ConnectKeepsAll(ys, s, x);
    case InSocket(fd, up, via, t) =>
      assert Reported(ys, fd, up, via);
      PostKeepsQueue(ys, s.q, Msg(t, Result(fd, if up then OK else CONN_FAIL, via)));
    case InServe(now, reuse, fd, t) =>
      if s.q != [] && s.q[0].time <= now {
        var rest := s.(q := s.q[1..]);
        assert s.q[0] in s.q && QueueOk(ys, rest.q);
        assert Serves(ys, |xs|, s.q[0].body);
        hide QueueOk, Serves;
        match s.q[0].body
        case Timeout(id) => TimedOutKeepsAll(ys, rest, |xs|, id);
        case Cmd(id, link) => CommandKeepsAll(ys, rest, |xs|, id, link, t);
        case Result(f, ret, via) => ResultedKeepsAll(ys, rest, f, ret, via);
      }
  }

  lemma {:induction false} RunKeepsAll(xs: seq<Input>)
    ensures var s := Run(Initial(), xs); QueueOk(xs, s.q) && ReqsOk(xs, s.reqs) && NotesOk(xs, s.notes)
  {
    if xs != [] {
      var ys, x := xs[..|xs| - 1], xs[|xs| - 1];
      RunKeepsAll(ys);
      StepKeepsAll(ys, x);
      RunSplits(Initial(), ys, [x]);
      assert xs == ys + [x] && [x][1..] == [];
      hide Step, QueueOk, ReqsOk, NotesOk;
    }
  }

  /** In every run: a result has a connection if and only if its code is success; a success is earned by a socket that
      came up, was listed for that request and carries the type of the path it came by, or is the immediate one of
      a session link; a timeout code comes from a served timeout of that request; a failure code from a command that
      found no socket or from a listed socket that went down. */
  lemma EveryResultIsExplained(xs: seq<Input>, n: Note)
    requires n in Run(Initial(), xs).notes
    ensures Explained(xs, n)
    ensures n.conn.Conn? <==> n.ret == OK
  {
    RunKeepsAll(xs);
    hide Run, Listed, CameUp, WentDown, Refused, Opened, Serves;
    assert Explained(xs, n);
    if n.ret == OK && !(n.conn.Conn? && n.conn.link == Session && Opened(xs, n.id, n.conn.fd)) {
      var r: Req, via :| Earned(xs, n.id, n.conn, r, via);
    }
  }

  /** The first request listed with a socket. */
  ghost predicate FirstWith(reqs: seq<Req>, fd: int, i: nat) {
    i < |reqs| && reqs[i].fd == fd && forall j | 0 <= j < i :: reqs[j].fd != fd
  }

  /** The other way round, for any state: a served timeout is told to its request, and so is a command without
      a socket, at once; a command with one lists the request behind all others and tells nothing; a result is told
      to the first request listed with its socket, with its own code, and to nobody if there is none. */
  lemma TurnTells(s: St, now: int, reuse: bool, fd: int, t: int)
    requires s.q != [] && s.q[0].time <= now
    ensures var u := Step(s, InServe(now, reuse, fd, t));
            match s.q[0].body
            case Timeout(id) => u.notes == s.notes + [Note(id, CONN_TIMEOUT, NoConn)]
            case Cmd(id, link) =>
              && u.notes == s.notes + (if fd < 0 && Goes(link, reuse) then [Note(id, CONN_FAIL, NoConn)] else [])
              && u.reqs == s.reqs + (if fd >= 0 && Goes(link, reuse) then [Req(id, fd, link)] else [])
            case Result(f, ret, via) =>
              && (forall i: nat | FirstWith(s.reqs, f, i) ::
                    && |u.notes| == |s.notes| + 1 && s.notes <= u.notes
                    && u.notes[|s.notes|].id == s.reqs[i].id && u.notes[|s.notes|].ret == ret
                    && u.reqs == s.reqs[..i] + s.reqs[i + 1..])
              && ((forall r | r in s.reqs :: r.fd != f) ==> u.notes == s.notes && u.reqs == s.reqs)
  {
    hide Post, Without;
    if s.q[0].body.Result? {
      var i := FindFd(s.reqs, s.q[0].body.fd);
      forall j: nat | FirstWith(s.reqs, s.q[0].body.fd, j) ensures j == i {
      }
    }
  }
}
