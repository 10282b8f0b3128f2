/** How far the one-result guarantee of a connect reaches: exactly to a prompt command, in every run. */
module ConnLimits {
  import opened Looper
  import opened ConnRequests

  // ---------- queues stay sorted ----------

  lemma ConnectKeepsOrder(s: St, id: nat, link: Link, t1: int, t2: int, posted: bool, fd: int)
    requires Sorted(s.q)
    ensures Sorted(Connect(s, id, link, t1, t2, posted, fd).q)
  {
    hide Post, Without, Sorted;
    var m := Msg(t1 + CONNECT_TIMEOUT_US, Timeout(id));
    PostKeepsOrder(s.q, m);
    PostKeepsOrder(Post(s.q, m), Msg(t2, Cmd(id, link)));
    WithoutKeepsOrder(Post(s.q, m), Timeout(id));
  }

  lemma ServeKeepsOrder(s: St, now: int, reuse: bool, fd: int, t: int)
    requires Sorted(s.q)
    ensures Sorted(Serve(s, now, reuse, fd, t).q)
  {
    if s.q != [] {
      TailKeepsOrder(s.q);
      hide Post, Without, Sorted;
      forall j ensures Sorted(Without(s.q[1..], Timeout(j))) {
        WithoutKeepsOrder(s.q[1..], Timeout(j));
      }
      forall via ensures Sorted(Post(s.q[1..], Msg(t, Result(fd, OK, via)))) {
        PostKeepsOrder(s.q[1..], Msg(t, Result(fd, OK, via)));
      }
    }
  }

  lemma StepKeepsOrder(s: St, x: Input)
    requires Sorted(s.q)
    ensures Sorted(Step(s, x).q)
  {
    hide Post, Sorted, Connect, Serve;
    match x
    case InConnect(id, link, t1, t2, posted, fd) => ConnectKeepsOrder(s, id, link, t1, t2, posted, fd);
    case InSocket(fd, up, via, t) => PostKeepsOrder(s.q, Msg(t, Result(fd, if up then OK else CONN_FAIL, via)));
    case InServe(now, reuse, fd, t) => ServeKeepsOrder(s, now, reuse, fd, t);
  }

  lemma {:induction false} RunKeepsOrder(s: St, xs: seq<Input>)
    requires Sorted(s.q)
    ensures Sorted(Run(s, xs).q)
    decreases |xs|
  {
    if xs != [] {
      hide Step, Sorted;
      StepKeepsOrder(s, xs[0]);
      RunKeepsOrder(Step(s, xs[0]), xs[1..]);
    }
  }

  // ---------- catching up at one clock reading ----------

  /** Everything queued is due at `n`, and of the listed requests only that of `id` has the socket `fd`. */
  ghost predicate Calm(s: St, id: nat, fd: int, n: int) {
    && (forall m | m in s.q :: m.time <= n)
    && (forall r | r in s.reqs :: r.id == id <==> r.fd == fd)
  }

  ghost predicate Expects(q: seq<Msg<Event>>, fd: int) {
    exists m | m in q :: m.body.Result? && m.body.fd == fd
  }

  /** The head is about the request: one of its events, or the result of its socket while it is listed. */
  ghost predicate Concerns(s: St, id: nat, fd: int)
    requires s.q != []
  {
    Of(id)(s.q[0].body) || (s.q[0].body.Result? && s.q[0].body.fd == fd && Live(s.reqs, id) > 0)
  }

  /** A turn at `n` that finds no socket for any command. */
  function Turn(n: int): Input {
    InServe(n, false, -1, n)
  }

  ghost predicate SameFor(s: St, t: St, id: nat, fd: int) {
    && Seen(t.q, id) == Seen(s.q, id) && NoteCount(t.notes, id) == NoteCount(s.notes, id)
    && Live(t.reqs, id) == Live(s.reqs, id)
    && (Live(s.reqs, id) > 0 && Expects(s.q, fd) ==> Expects(t.q, fd))
  }

  lemma ExpectsTail(q: seq<Msg<Event>>, fd: int, j: nat)
    requires q != [] && Expects(q, fd) && !(q[0].body.Result? && q[0].body.fd == fd)
    ensures Expects(q[1..], fd) && Expects(Without(q[1..], Timeout(j)), fd)
  {
    var m :| m in q && m.body.Result? && m.body.fd == fd;
    assert m in q[1..];
    WithoutKeepsOthers(q[1..], Timeout(j), m);
  }

  lemma {:induction false} WithoutKeepsOthers<T>(q: seq<Msg<T>>, x: T, m: Msg<T>)
    ensures m in Without(q, x) <==> m in q && m.body != x
  {
    if q != [] {
      WithoutKeepsOthers(q[1..], x, m);
    }
  }

  /** A turn on somebody else's event changes nothing for the request and makes the queue shorter. */
  lemma Skip(s: St, id: nat, fd: int, n: int)
    requires Calm(s, id, fd, n) && s.q != [] && !Concerns(s, id, fd)
    ensures var t := Step(s, Turn(n));
            |t.q| < |s.q| && Calm(t, id, fd, n) && SameFor(s, t, id, fd)
  {
    var q := s.q[1..];
    assert s.q[0] in s.q;
    SeenTail(s.q, id);
    match s.q[0].body
    case Timeout(j) =>
      SkipTimeout(s, j, id, fd, n);
    case Cmd(j, link) =>
      SkipCmd(s, j, link, id, fd, n);
    case Result(f, ret, via) =>
      SkipResult(s, f, ret, via, id, fd, n);
  }

  lemma SkipTimeout(s: St, j: nat, id: nat, fd: int, n: int)
    requires Calm(s, id, fd, n) && s.q != [] && s.q[0].body == Timeout(j) && j != id
    ensures var t := TimedOut(s.(q := s.q[1..]), j);
            Calm(t, id, fd, n) && SameFor(s, t, id, fd)
  {
    hide Live, NoteCount, Seen;
    var i := FindId(s.reqs, j);
    SeenTail(s.q, id);
    NoteAdded(s.notes, Note(j, CONN_TIMEOUT, NoConn), id);
    if i < |s.reqs| {
      LiveDel(s.reqs, i, id);
    }
    if Expects(s.q, fd) {
      ExpectsTail(s.q, fd, j);
    }
  }

  lemma SkipCmd(s: St, j: nat, link: Link, id: nat, fd: int, n: int)
    requires Calm(s, id, fd, n) && s.q != [] && s.q[0].body == Cmd(j, link) && j != id
    ensures var t := Command(s.(q := s.q[1..]), j, link, false, -1, n);
            |t.q| < |s.q| && Calm(t, id, fd, n) && SameFor(s, t, id, fd)
  {
    var q := s.q[1..];
    WithoutSubset(q, Timeout(j));
    hide Live, NoteCount, Seen, Without;
    SeenTail(s.q, id);
    SeenWithout(q, j, id);
    NoteAdded(s.notes, Note(j, CONN_FAIL, NoConn), id);
    if Expects(s.q, fd) {
      ExpectsTail(s.q, fd, j);
    }
  }

  lemma SkipResult(s: St, f: int, ret: Ret, via: bool, id: nat, fd: int, n: int)
    requires Calm(s, id, fd, n) && s.q != [] && s.q[0].body == Result(f, ret, via)
    requires f == fd ==> Live(s.reqs, id) == 0
    ensures var t := Resulted(s.(q := s.q[1..]), f, ret, via);
            |t.q| < |s.q| && Calm(t, id, fd, n) && SameFor(s, t, id, fd)
  {
    var q := s.q[1..];
    var i := FindFd(s.reqs, f);
    hide Live, NoteCount, Seen, FindFd;
    SeenTail(s.q, id);
    if i < |s.reqs| {
      var r := s.reqs[i];
      LiveAt(s.reqs, i);
      assert r in s.reqs && r.id != id;
      WithoutSubset(q, Timeout(r.id));
      hide Without;
      SeenWithout(q, r.id, id);
      LiveDel(s.reqs, i, id);
      NoteAdded(s.notes, Answer(r, f, ret, via), id);
    }
    if Live(s.reqs, id) > 0 && Expects(s.q, fd) {
      ExpectsTail(s.q, fd, if i < |s.reqs| then s.reqs[i].id else 0);
    }
  }

  ghost predicate Turns(xs: seq<Input>, n: int) {
    forall x | x in xs :: x.InServe? && x.now == n && x.t == n
  }

  /** Turns at `n` bring the next event of the request to the head. */
  lemma Advance(s: St, id: nat, fd: int, n: int) returns (xs: seq<Input>)
    requires Calm(s, id, fd, n)
    requires Seen(s.q, id) != Nothing || (Live(s.reqs, id) > 0 && Expects(s.q, fd))
    ensures var t := Run(s, xs);
            Turns(xs, n) && Calm(t, id, fd, n) && SameFor(s, t, id, fd) && t.q != [] && Concerns(t, id, fd)
    decreases |s.q|
  {
    if Concerns(s, id, fd) {
      return [];
    }
    Skip(s, id, fd, n);
    hide Step, Calm, Seen, Live, NoteCount;
    var ys := Advance(Step(s, Turn(n)), id, fd, n);
    xs := [Turn(n)] + ys;
    assert xs[1..] == ys;
  }

  // ---------- a late command ----------

  function FreshFd(reqs: seq<Req>): (fd: nat)
    ensures forall r | r in reqs :: r.fd < fd
  {
    if reqs == [] then 0
    else
      var rest := FreshFd(reqs[1..]);
      if reqs[0].fd < rest then rest else reqs[0].fd + 1
  }

  function LastTime(q: seq<Msg<Event>>): (n: int)
    ensures forall m | m in q :: m.time <= n
  {
    if q == [] then 0
    else
      var rest := LastTime(q[1..]);
      if q[0].time <= rest then rest else q[0].time
  }

  /** The timeout in front of its command reports to the request and leaves the command alone. */
  lemma TimeoutFirst(s: St, id: nat, fd: int, n: int)
    requires Calm(s, id, fd, n) && s.q != [] && Concerns(s, id, fd) && Seen(s.q, id).Late? && Live(s.reqs, id) == 0
    ensures var t := Step(s, Turn(n));
            && Calm(t, id, fd, n) && Seen(t.q, id) == Asked(Seen(s.q, id).link) && Live(t.reqs, id) == 0
            && NoteCount(t.notes, id) == NoteCount(s.notes, id) + 1
  {
    hide Live, NoteCount, Seen;
    SeenTail(s.q, id);
    assert s.q[0] in s.q;
    LiveFindId(s.reqs, id);
    NoteAdded(s.notes, Note(id, CONN_TIMEOUT, NoConn), id);
  }

  /** The command behind it lists the request all the same, and a reused socket reports at once. */
  lemma CommandSecond(s: St, id: nat, link: Link, fd: int, n: int)
    requires Calm(s, id, fd, n) && s.q != [] && Concerns(s, id, fd) && Seen(s.q, id) == Asked(link)
    requires Live(s.reqs, id) == 0 && IsSocket(link) && fd >= 0
    ensures var t := Step(s, InServe(n, true, fd, n));
            && Calm(t, id, fd, n) && Seen(t.q, id) == Nothing && Live(t.reqs, id) == 1 && Expects(t.q, fd)
            && NoteCount(t.notes, id) == NoteCount(s.notes, id)
  {
    hide NoteCount, Seen, Post, Live;
    SeenTail(s.q, id);
    assert s.q[0] in s.q;
    var q, m := s.q[1..], Msg(n, Result(fd, OK, link == SessionKey));
    SeenPostOther(q, m, id);
    LiveAdd(s.reqs, Req(id, fd, link), id);
    NotListed(s.reqs, id);
    InPost(q, m);
  }

  lemma InPost(q: seq<Msg<Event>>, m: Msg<Event>)
    ensures m in Post(q, m) && forall x | x in Post(q, m) :: x == m || x in q
  {
    hide Slot;
  }

  lemma ResultThird(s: St, id: nat, fd: int, n: int)
    requires Calm(s, id, fd, n) && s.q != [] && Concerns(s, id, fd) && Seen(s.q, id) == Nothing
    ensures NoteCount(Step(s, Turn(n)).notes, id) == NoteCount(s.notes, id) + 1
  {
    hide NoteCount, Seen, Without;
    SeenTail(s.q, id);
    assert s.q[0] in s.q;
    var Result(f, ret, via) := s.q[0].body;
    var i := FindFd(s.reqs, fd);
    NotListed(s.reqs, id);
    FindFdFinds(s.reqs, fd);
    assert s.reqs[i] in s.reqs;
    NoteAdded(s.notes, Answer(s.reqs[i], f, ret, via), id);
  }

  lemma {:induction false} FindFdFinds(reqs: seq<Req>, fd: int)
    ensures FindFd(reqs, fd) == |reqs| <==> forall r | r in reqs :: r.fd != fd
  {
    if reqs != [] {
      FindFdFinds(reqs[1..], fd);
    }
  }

  lemma RunOne(s: St, xs: seq<Input>, x: Input, t: St)
    requires Run(s, xs) == t
    ensures Run(s, xs + [x]) == Step(t, x)
  {
    hide Step;
    RunSplits(s, xs, [x]);
    assert [x][1..] == [];
  }

  /** One leg: turns until the request is concerned, and the turn `y` that concerns it. */
  lemma Leg(s: St, id: nat, fd: int, n: int, y: Input) returns (xs: seq<Input>, t: St)
    requires Calm(s, id, fd, n) && y.InServe? && y.now == n && y.t == n
    requires Seen(s.q, id) != Nothing || (Live(s.reqs, id) > 0 && Expects(s.q, fd))
    ensures Turns(xs, n) && Run(s, xs) == Step(t, y)
    ensures Calm(t, id, fd, n) && SameFor(s, t, id, fd) && t.q != [] && Concerns(t, id, fd)
  {
    hide Calm, Seen, Live, NoteCount, Concerns, Expects, Step, Run;
    var ys := Advance(s, id, fd, n);
    t := Run(s, ys);
    RunOne(s, ys, y, t);
    xs := ys + [y];
  }

  lemma Joined(s: St, xs: seq<Input>, t: St, ys: seq<Input>, n: int)
    requires Run(s, xs) == t && Turns(xs, n) && Turns(ys, n)
    ensures Run(s, xs + ys) == Run(t, ys) && Turns(xs + ys, n)
  {
    RunSplits(s, xs, ys);
  }

  /** From any state with the command behind its timeout: turns at one clock reading, in which the other
      commands find no socket and this one a socket no listed request has, report to the request twice. */
  lemma LateIsToldTwice(s: St, id: nat, link: Link) returns (xs: seq<Input>, n: int)
    requires Seen(s.q, id) == Late(link) && Live(s.reqs, id) == 0 && IsSocket(link)
    ensures Turns(xs, n) && NoteCount(Run(s, xs).notes, id) == NoteCount(s.notes, id) + 2
  {
    n := LastTime(s.q);
    var fd := FreshFd(s.reqs);
    NotListed(s.reqs, id);
    assert Calm(s, id, fd, n);
    hide Calm, Seen, Live, NoteCount, Concerns, Expects, Step, Run, Turns;
    var y := InServe(n, true, fd, n);
    var xs1, s1 := Leg(s, id, fd, n, Turn(n));
    TimeoutFirst(s1, id, fd, n);
    var t1 := Step(s1, Turn(n));
    var xs2, s2 := Leg(t1, id, fd, n, y);
    CommandSecond(s2, id, link, fd, n);
    var t2 := Step(s2, y);
    var xs3, s3 := Leg(t2, id, fd, n, Turn(n));
    ResultThird(s3, id, fd, n);
    Joined(t1, xs2, t2, xs3, n);
    Joined(s, xs1, t1, xs2 + xs3, n);
    xs := xs1 + (xs2 + xs3);
  }

  // ---------- the exact condition ----------

  /** Until the id is used again, at most one more result than `before` is ever told. */
  ghost predicate NeverTwice(s: St, id: nat, before: nat) {
    forall ys | NoConnectsOf(ys, id) :: NoteCount(Run(s, ys).notes, id) <= before + 1
  }

  lemma PromptIsToldOnce(s: St, id: nat, link: Link, t1: int, t2: int, fd: int)
    requires Idle(s, id) && IsSocket(link) && t2 < t1 + CONNECT_TIMEOUT_US
    ensures NeverTwice(Connect(s, id, link, t1, t2, true, fd), id, NoteCount(s.notes, id))
  {
    var c := Connect(s, id, link, t1, t2, true, fd);
    ConnectStarts(s, id, link, t1, t2, true, fd);
    hide Connect, Run, NoteCount, Live, Seen, Idle;
    forall ys | NoConnectsOf(ys, id) ensures NoteCount(Run(c, ys).notes, id) <= NoteCount(s.notes, id) + 1 {
      RunKeeps(c, ys, id, Terms(s, id, link, true));
    }
  }

  /** After every run that leaves nothing of the id queued or listed, and whatever other connects follow: a connect
      is told at most one result, come what may, if and only if its command was posted less than the timeout after
      the timeout was armed. */
  lemma PromptCommandIffOneResult(xs: seq<Input>, id: nat, link: Link, t1: int, t2: int, fd: int)
    requires Idle(Run(Initial(), xs), id) && IsSocket(link)
    ensures var s := Run(Initial(), xs);
            NeverTwice(Connect(s, id, link, t1, t2, true, fd), id, NoteCount(s.notes, id))
            <==> t2 < t1 + 11_000_000
  {
    var s := Run(Initial(), xs);
    RunKeepsOrder(Initial(), xs);
    if t2 < t1 + CONNECT_TIMEOUT_US {
      PromptIsToldOnce(s, id, link, t1, t2, fd);
    } else {
      var ys, n := LateCommandAnsweredTwice(s, id, link, t1, t2, fd);
      assert NoConnectsOf(ys, id);
    }
  }

  /** The failing half by itself: only turns, all at one clock reading. */
  lemma LateCommandAnsweredTwice(s: St, id: nat, link: Link, t1: int, t2: int, fd: int)
    returns (ys: seq<Input>, n: int)
    requires Idle(s, id) && Sorted(s.q) && IsSocket(link) && t2 >= t1 + CONNECT_TIMEOUT_US
    ensures Turns(ys, n)
    ensures NoteCount(Run(Connect(s, id, link, t1, t2, true, fd), ys).notes, id) == NoteCount(s.notes, id) + 2
  {
    NotListed(s.reqs, id);
    NothingSeen(s.q, id);
    SeenConnect(s.q, id, link, t1, t2);
    hide Seen, Live, NoteCount, Post, Run;
    ys, n := LateIsToldTwice(Connect(s, id, link, t1, t2, true, fd), id, link);
  }

  // ---------- a reused id ----------

  /** Why nothing of the id may be left: a second connect of a listed id, and then the first one's result takes both
      timeouts back, so the second stays listed with no timeout. */
  lemma ReusedIdIsStranded(id: nat)
    ensures var serve5, serve6 := InServe(0, false, 5, 0), InServe(0, false, 6, 0);
            var again := InConnect(id, Wifi, 0, 0, true, 0);
            var s := Run(Initial(), [again, serve5, again, serve6] + [InSocket(5, true, false, 0), serve5]);
            s.reqs == [Req(id, 6, Wifi)] && s.q == []
  {
    var serve5, serve6 := InServe(0, false, 5, 0), InServe(0, false, 6, 0);
    var again := InConnect(id, Wifi, 0, 0, true, 0);
    AskedTwice(id);
    FirstResultDisarmsBoth(id);
    var s4 := Step(Step(Step(Step(Initial(), again), serve5), again), serve6);
    hide Step;
    RunSplits(Initial(), [again, serve5, again, serve6], [InSocket(5, true, false, 0), serve5]);
    RunFour(Initial(), again, serve5, again, serve6);
    RunTwo(s4, InSocket(5, true, false, 0), serve5);
  }

  /** Both connects of the id listed, both timeouts armed. */
  ghost predicate BothListed(s: St, id: nat) {
    var tm := Msg(CONNECT_TIMEOUT_US, Timeout(id));
    s.q == [tm, tm] && s.reqs == [Req(id, 5, Wifi), Req(id, 6, Wifi)]
  }

  lemma AskedTwice(id: nat)
    ensures var serve5, serve6 := InServe(0, false, 5, 0), InServe(0, false, 6, 0);
            var again := InConnect(id, Wifi, 0, 0, true, 0);
            BothListed(Step(Step(Step(Step(Initial(), again), serve5), again), serve6), id)
  {
    var again := InConnect(id, Wifi, 0, 0, true, 0);
    var tm, cm := Msg(CONNECT_TIMEOUT_US, Timeout(id)), Msg(0, Cmd(id, Wifi));
    assert Post([], tm) == [tm] && Post([tm], cm) == [cm, tm];
    assert Post([tm], tm) == [tm, tm] && Post([tm, tm], cm) == [cm, tm, tm];
    hide Post, Without;
    var s1 := Step(Initial(), again);
    assert s1.q == [cm, tm];
    var s2 := Step(s1, InServe(0, false, 5, 0));
    assert s2.q == [tm] && s2.reqs == [Req(id, 5, Wifi)];
    var s3 := Step(s2, again);
    assert s3.q == [cm, tm, tm];
    var s4 := Step(s3, InServe(0, false, 6, 0));
    assert s4.q == [tm, tm] && s4.reqs == [Req(id, 5, Wifi), Req(id, 6, Wifi)];
  }

  lemma FirstResultDisarmsBoth(id: nat)
    ensures forall s | BothListed(s, id) ::
              var t := Step(Step(s, InSocket(5, true, false, 0)), InServe(0, false, 5, 0));
              t.reqs == [Req(id, 6, Wifi)] && t.q == []
  {
    var tm, rm := Msg(CONNECT_TIMEOUT_US, Timeout(id)), Msg(0, Result(5, OK, false));
    assert Post([tm, tm], rm) == [rm, tm, tm];
    assert Without([tm, tm], Timeout(id)) == [] by { assert [tm, tm][1..] == [tm]; }
    hide Post, Without;
    assert [rm, tm, tm][1..] == [tm, tm];
  }

  lemma RunTwo(s: St, a: Input, b: Input)
    ensures Run(s, [a, b]) == Step(Step(s, a), b)
  {
    hide Step;
    assert [a, b][1..] == [b] && [b][1..] == [];
    assert Run(Step(s, a), [b]) == Step(Step(s, a), b);
  }

  lemma RunFour(s: St, a: Input, b: Input, c: Input, d: Input)
    ensures Run(s, [a, b, c, d]) == Step(Step(Step(Step(s, a), b), c), d)
  {
    hide Step;
    assert [a, b, c, d] == [a, b] + [c, d];
    RunSplits(s, [a, b], [c, d]);
    RunTwo(s, a, b);
    RunTwo(Step(Step(s, a), b), c, d);
  }
}
