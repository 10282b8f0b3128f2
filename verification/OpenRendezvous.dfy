/** Opening a BR proxy channel: the opening thread waits on its session node while the service posts the
    channel id and the result. Every locked section is one step, and steps of all threads interleave. */
module OpenRendezvous {
  const INT32_MAX := 0x7FFF_FFFF

  // ---------- session ids ----------

  /** GetSessionId: the value after `last`. */
  function NextId(last: int): int {
    (if last >= INT32_MAX then 1 else last) + 1
  }

  function IdOf(k: nat): int {
    NextId(if k == 0 then 0 else IdOf(k - 1))
  }

  lemma {:induction false} IdLayout(k: nat)
    ensures IdOf(k) == if k < INT32_MAX then k + 1 else 2 + (k - INT32_MAX) % (INT32_MAX - 1)
    ensures 1 <= IdOf(k) <= INT32_MAX
  {
    if k > 0 {
      IdLayout(k - 1);
      if k > INT32_MAX {
        var x := k - 1 - INT32_MAX;
        assert (x + 1) % (INT32_MAX - 1) ==
               if x % (INT32_MAX - 1) == INT32_MAX - 2 then 0 else x % (INT32_MAX - 1) + 1;
      }
    }
  }

  lemma ModShifts(x: nat, d: nat)
    requires 0 < d < INT32_MAX - 1
    ensures (x + d) % (INT32_MAX - 1) != x % (INT32_MAX - 1)
  {
    assert x == x / (INT32_MAX - 1) * (INT32_MAX - 1) + x % (INT32_MAX - 1);
  }

  /** Session ids are positive int32 values, and 2^31 - 2 of them in a row are all different. */
  lemma SessionIdsDistinct(i: nat, j: nat)
    requires i < j < i + 0x7FFF_FFFE
    ensures 0 < IdOf(i) <= 0x7FFF_FFFF && IdOf(i) != IdOf(j)
  {
    hide IdOf;
    IdLayout(i);
    IdLayout(j);
    if i >= INT32_MAX {
      assert j - INT32_MAX == i - INT32_MAX + (j - i);
      ModShifts(i - INT32_MAX, j - i);
    }
  }

  // ---------- the session list ----------

  datatype Node = Node(id: int, channelId: int, openResult: int, condFlag: bool)

  function Find(ns: seq<Node>, id: int): (i: nat)
    ensures i <= |ns|
    ensures i < |ns| ==> ns[i].id == id
    ensures i == |ns| ==> forall n | n in ns :: n.id != id
  {
    if ns == [] || ns[0].id == id then 0 else 1 + Find(ns[1..], id)
  }

  function Del(ns: seq<Node>, i: nat): seq<Node> {
    if i < |ns| then ns[..i] + ns[i + 1..] else ns
  }

  // ---------- the threads ----------

  /** Where an opening thread is. */
  datatype Phase = Opening | Ready | Blocked | Woken | Failed | Done(channelId: int, openResult: int)

  datatype Stage = Called | Updated | Posted | NotFound | Late

  /** One ChannelOpened call; Late means that the session went between its update and its signal. */
  datatype Post = Post(id: int, channelId: int, openResult: int, stage: Stage)

  /** `spurious` records the sessions whose wait came back with no signal. */
  datatype St = St(nodes: seq<Node>, openers: map<int, Phase>, posts: seq<Post>, spurious: set<int>)

  function Initial(): St {
    St([], map[], [], {})
  }

  datatype Input =
    | InBegin(id: int)
    | InOpened(id: int, ok: bool)
    | InWait(id: int)
    | InTimeout(id: int)
    | InSpurious(id: int)
    | InGet(id: int)
    | InComplete(id: int)
    | InCall(id: int, channelId: int, openResult: int)
    | InUpdate(k: nat)
    | InPost(k: nat)

  function Begin(s: St, id: int): St {
    s.(nodes := [Node(id, 0, 0, false)] + s.nodes, openers := s.openers[id := Opening])
  }

  /** BrProxyWaitCond up to the wait itself. */
  function Wait(s: St, id: int): St {
    var i := Find(s.nodes, id);
    s.(openers := s.openers[id := if i == |s.nodes| then Failed else if s.nodes[i].condFlag then Woken else Blocked])
  }

  function Get(s: St, id: int): St {
    var i := Find(s.nodes, id);
    s.(openers := s.openers[id := if i == |s.nodes| then Failed
                                  else Done(s.nodes[i].channelId, s.nodes[i].openResult)])
  }

  function Update(s: St, k: nat): St
    requires k < |s.posts|
  {
    var p := s.posts[k];
    var i := Find(s.nodes, p.id);
    if i == |s.nodes| then s.(posts := s.posts[k := p.(stage := NotFound)])
    else
      s.(nodes := s.nodes[i := s.nodes[i].(channelId := p.channelId, openResult := p.openResult)],
         posts := s.posts[k := p.(stage := Updated)])
  }

  /** BrProxyPostCond: set the flag and wake the waiter, if it is blocked. */
  function Signal(s: St, k: nat): St
    requires k < |s.posts|
  {
    var p := s.posts[k];
    var i := Find(s.nodes, p.id);
    if i == |s.nodes| then s.(posts := s.posts[k := p.(stage := Late)])
    else
      s.(nodes := s.nodes[i := s.nodes[i].(condFlag := true)],
         openers := if p.id in s.openers && s.openers[p.id] == Blocked then s.openers[p.id := Woken] else s.openers,
         posts := s.posts[k := p.(stage := Posted)])
  }

  predicate At(s: St, id: int, ph: Phase) {
    id in s.openers && s.openers[id] == ph
  }

  function Step(s: St, x: Input): St {
    match x
    case InBegin(id) => if id in s.openers then s else Begin(s, id)
    case InOpened(id, ok) =>
      if At(s, id, Opening) then s.(openers := s.openers[id := if ok then Ready else Failed]) else s
    case InWait(id) => if At(s, id, Ready) then Wait(s, id) else s
    case InTimeout(id) => if At(s, id, Blocked) then s.(openers := s.openers[id := Failed]) else s
    case InSpurious(id) =>
      if At(s, id, Blocked) then s.(openers := s.openers[id := Woken], spurious := s.spurious + {id}) else s
    case InGet(id) => if At(s, id, Woken) then Get(s, id) else s
    case InComplete(id) =>
      if id in s.openers && (s.openers[id] == Failed || s.openers[id].Done?) then
        s.(nodes := Del(s.nodes, Find(s.nodes, id)))
      else s
    case InCall(id, c, r) => s.(posts := s.posts + [Post(id, c, r, Called)])
    case InUpdate(k) => if k < |s.posts| && s.posts[k].stage == Called then Update(s, k) else s
    case InPost(k) => if k < |s.posts| && s.posts[k].stage == Updated then Signal(s, k) else s
  }

  function Run(s: St, xs: seq<Input>): St
    decreases |xs|
  {
    if xs == [] then s else Run(Step(s, xs[0]), xs[1..])
  }

  // ---------- the invariant ----------

  /** A call for the session that has stored these values. */
  ghost predicate Stored(ps: seq<Post>, id: int, channelId: int, openResult: int) {
    exists p | p in ps :: p.id == id && p.channelId == channelId && p.openResult == openResult && Wrote(p)
  }

  predicate Wrote(p: Post) {
    p.stage == Updated || p.stage == Posted || p.stage == Late
  }

  ghost predicate Unique(ns: seq<Node>) {
    forall i, j | 0 <= i < j < |ns| :: ns[i].id != ns[j].id
  }

  /** A raised flag means that the node's values are stored ones; a blocked opener has seen no flag, a woken one
      has, unless it woke by itself. */
  ghost predicate NodeOk(s: St, n: Node) {
    && n.id in s.openers
    && (n.condFlag ==> Stored(s.posts, n.id, n.channelId, n.openResult))
    && (s.openers[n.id] == Blocked ==> !n.condFlag)
    && (s.openers[n.id] == Woken && n.id !in s.spurious ==> n.condFlag)
  }

  ghost predicate HasNode(ns: seq<Node>, id: int) {
    exists n | n in ns :: n.id == id
  }

  ghost predicate PhaseOk(s: St, id: int) {
    id in s.openers ==>
      && (s.openers[id] in {Opening, Ready, Blocked, Woken} ==> HasNode(s.nodes, id))
      && (s.openers[id].Done? && id !in s.spurious ==>
            Stored(s.posts, id, s.openers[id].channelId, s.openers[id].openResult))
  }

  /** From the update of a call on the session holds stored values; from its signal on, a raised flag. */
  ghost predicate PostOk(s: St, p: Post) {
    && (Wrote(p) ==> p.id in s.openers)
    && (Wrote(p) ==> forall n | n in s.nodes && n.id == p.id :: Stored(s.posts, n.id, n.channelId, n.openResult))
    && (p.stage == Posted ==> forall n | n in s.nodes && n.id == p.id :: n.condFlag)
  }

  ghost predicate Inv(s: St) {
    && Unique(s.nodes)
    && (forall n | n in s.nodes :: NodeOk(s, n))
    && (forall id :: PhaseOk(s, id))
    && (forall p | p in s.posts :: PostOk(s, p))
  }

  // ---------- steps ----------

  lemma OpenerKeeps(s: St, id: int, ph: Phase, woke: set<int>)
    requires Inv(s) && id in s.openers
    requires ph in {Opening, Ready, Blocked, Woken} ==> HasNode(s.nodes, id)
    requires forall n | n in s.nodes && n.id == id ::
               (ph == Blocked ==> !n.condFlag) && (ph == Woken && id !in woke ==> n.condFlag)
    requires ph.Done? && id !in woke ==> Stored(s.posts, id, ph.channelId, ph.openResult)
    requires s.spurious <= woke <= s.spurious + {id}
    ensures Inv(s.(openers := s.openers[id := ph], spurious := woke))
  {
    hide Stored, HasNode;
    var t := s.(openers := s.openers[id := ph], spurious := woke);
    forall k ensures PhaseOk(t, k) {
      assert PhaseOk(s, k);
    }
  }

  lemma UniqueNode(ns: seq<Node>, n: Node)
    requires Unique(ns) && n in ns
    ensures Find(ns, n.id) < |ns| && ns[Find(ns, n.id)] == n
  {
    var i := Find(ns, n.id);
    var j :| 0 <= j < |ns| && ns[j] == n;
    assert i < |ns| && ns[i].id == ns[j].id;
    assert i == j;
  }

  lemma WaitKeeps(s: St, id: int)
    requires Inv(s) && At(s, id, Ready)
    ensures Inv(Wait(s, id))
  {
    var i := Find(s.nodes, id);
    assert PhaseOk(s, id);
    forall n | n in s.nodes && n.id == id ensures n == s.nodes[i] {
      UniqueNode(s.nodes, n);
    }
    OpenerKeeps(s, id, if i == |s.nodes| then Failed else if s.nodes[i].condFlag then Woken else Blocked, s.spurious);
  }

  /** A woken opener finds its node, and unless it woke by itself the node holds stored values. */
  lemma GetKeeps(s: St, id: int)
    requires Inv(s) && At(s, id, Woken)
    ensures Inv(Get(s, id)) && Get(s, id).openers[id].Done?
  {
    var i := Find(s.nodes, id);
    assert PhaseOk(s, id) && HasNode(s.nodes, id);
    assert i < |s.nodes| && NodeOk(s, s.nodes[i]);
    OpenerKeeps(s, id, Done(s.nodes[i].channelId, s.nodes[i].openResult), s.spurious);
  }

  lemma BeginKeeps(s: St, id: int)
    requires Inv(s) && id !in s.openers
    ensures Inv(Begin(s, id))
  {
    hide Stored;
    var t := Begin(s, id);
    assert forall n | n in s.nodes :: NodeOk(s, n) && n.id != id;
    assert Unique(t.nodes) by {
      forall i, j | 0 <= i < j < |t.nodes| ensures t.nodes[i].id != t.nodes[j].id {
        assert t.nodes[j] == s.nodes[j - 1];
        assert i > 0 ==> t.nodes[i] == s.nodes[i - 1];
      }
    }
    forall n | n in t.nodes ensures NodeOk(t, n) {
      assert n in s.nodes ==> NodeOk(s, n);
    }
    forall k ensures PhaseOk(t, k) {
      assert PhaseOk(s, k);
      assert k == id ==> t.nodes[0].id == id;
      HasNodeGrows(s.nodes, Node(id, 0, 0, false), k);
    }
    forall p | p in t.posts ensures PostOk(t, p) {
      assert PostOk(s, p);
    }
  }

  lemma HasNodeGrows(ns: seq<Node>, n: Node, id: int)
    ensures HasNode([n] + ns, id) <==> n.id == id || HasNode(ns, id)
  {
    if HasNode(ns, id) {
      var m :| m in ns && m.id == id;
      assert m in [n] + ns;
    }
  }

  lemma CompleteKeeps(s: St, id: int)
    requires Inv(s) && id in s.openers && (s.openers[id] == Failed || s.openers[id].Done?)
    ensures Inv(s.(nodes := Del(s.nodes, Find(s.nodes, id))))
  {
    hide Stored;
    var i := Find(s.nodes, id);
    var t := s.(nodes := Del(s.nodes, i));
    assert forall n | n in t.nodes :: n in s.nodes;
    forall n | n in t.nodes ensures NodeOk(t, n) {
      assert NodeOk(s, n);
    }
    forall k ensures PhaseOk(t, k) {
      assert PhaseOk(s, k);
      if k in s.openers && s.openers[k] in {Opening, Ready, Blocked, Woken} {
        var n :| n in s.nodes && n.id == k;
        assert n in t.nodes;
      }
    }
    forall p | p in t.posts ensures PostOk(t, p) {
      assert PostOk(s, p);
    }
  }

  lemma StoredStays(ps: seq<Post>, qs: seq<Post>, id: int, c: int, r: int)
    requires |ps| <= |qs|
    requires forall k | 0 <= k < |ps| :: qs[k] == ps[k].(stage := qs[k].stage) && (Wrote(ps[k]) ==> Wrote(qs[k]))
    ensures Stored(ps, id, c, r) ==> Stored(qs, id, c, r)
  {
    if Stored(ps, id, c, r) {
      var p :| p in ps && p.id == id && p.channelId == c && p.openResult == r && Wrote(p);
      var k :| 0 <= k < |ps| && ps[k] == p;
      assert qs[k] in qs && Wrote(qs[k]);
    }
  }

  /** A call moves forward: to a new entry or to a later stage that keeps what it has written. */
  lemma PostsKeep(s: St, qs: seq<Post>)
    requires Inv(s) && |s.posts| <= |qs|
    requires forall k | 0 <= k < |s.posts| ::
               qs[k] == s.posts[k].(stage := qs[k].stage) && (Wrote(s.posts[k]) ==> Wrote(qs[k]))
    requires forall q | q in qs :: (Wrote(q) ==> q.id in s.openers) && (q.stage in {Updated, Posted} ==> q in s.posts)
               && (q.stage == Late ==> q in s.posts || forall n | n in s.nodes :: n.id != q.id)
    ensures Inv(s.(posts := qs))
  {
    var t := s.(posts := qs);
    forall id, c, r ensures Stored(s.posts, id, c, r) ==> Stored(qs, id, c, r) {
      StoredStays(s.posts, qs, id, c, r);
    }
    hide Stored, HasNode;
    forall n | n in t.nodes ensures NodeOk(t, n) {
      assert NodeOk(s, n);
    }
    forall k ensures PhaseOk(t, k) {
      assert PhaseOk(s, k);
    }
    forall p | p in qs ensures PostOk(t, p) {
      assert p in s.posts ==> PostOk(s, p);
    }
  }

  lemma UpdateKeeps(s: St, k: nat)
    requires Inv(s) && k < |s.posts| && s.posts[k].stage == Called
    ensures Inv(Update(s, k))
  {
    var p, i := s.posts[k], Find(s.nodes, s.posts[k].id);
    if i == |s.nodes| {
      var qs := s.posts[k := p.(stage := NotFound)];
      assert forall q | q in qs :: q == qs[k] || (q in s.posts && PostOk(s, q));
      PostsKeep(s, qs);
    } else {
      var t := Update(s, k);
      assert NodeOk(s, s.nodes[i]);
      assert t.posts[k] in t.posts;
      assert Stored(t.posts, p.id, p.channelId, p.openResult);
      forall id, c, r ensures Stored(s.posts, id, c, r) ==> Stored(t.posts, id, c, r) {
        StoredStays(s.posts, t.posts, id, c, r);
      }
      hide Stored;
      assert forall n | n in t.nodes :: n == t.nodes[i] || (n in s.nodes && n.id != p.id);
      forall n | n in t.nodes ensures NodeOk(t, n) {
        assert n in s.nodes ==> NodeOk(s, n);
      }
      forall id ensures PhaseOk(t, id) {
        assert PhaseOk(s, id);
        SameIds(s.nodes, i, t.nodes[i], id);
      }
      forall q | q in t.posts ensures PostOk(t, q) {
        assert q in s.posts ==> PostOk(s, q);
      }
    }
  }

  lemma SameIds(ns: seq<Node>, i: nat, n: Node, id: int)
    requires i < |ns| && n.id == ns[i].id
    ensures HasNode(ns[i := n], id) <==> HasNode(ns, id)
  {
    if HasNode(ns, id) {
      var m :| m in ns && m.id == id;
      var j :| 0 <= j < |ns| && ns[j] == m;
      assert ns[i := n][j] in ns[i := n];
    }
    if HasNode(ns[i := n], id) {
      var m :| m in ns[i := n] && m.id == id;
      var j :| 0 <= j < |ns| && ns[i := n][j] == m;
      assert ns[j] in ns;
    }
  }

  lemma SignalKeeps(s: St, k: nat)
    requires Inv(s) && k < |s.posts| && s.posts[k].stage == Updated
    ensures Inv(Signal(s, k))
  {
    var p, i := s.posts[k], Find(s.nodes, s.posts[k].id);
    assert PostOk(s, p);
    if i == |s.nodes| {
      var qs := s.posts[k := p.(stage := Late)];
      assert forall q | q in qs :: q == qs[k] || (q in s.posts && PostOk(s, q));
      PostsKeep(s, qs);
    } else {
      var t := Signal(s, k);
      assert NodeOk(s, s.nodes[i]);
      forall id, c, r ensures Stored(s.posts, id, c, r) ==> Stored(t.posts, id, c, r) {
        StoredStays(s.posts, t.posts, id, c, r);
      }
      hide Stored;
      assert forall n | n in t.nodes :: n == t.nodes[i] || (n in s.nodes && n.id != p.id);
      forall n | n in t.nodes ensures NodeOk(t, n) {
        assert n in s.nodes ==> NodeOk(s, n);
      }
      forall id ensures PhaseOk(t, id) {
        assert PhaseOk(s, id);
        SameIds(s.nodes, i, t.nodes[i], id);
      }
      forall q | q in t.posts ensures PostOk(t, q) {
        assert q in s.posts ==> PostOk(s, q);
      }
    }
  }

  lemma StepKeeps(s: St, x: Input)
    requires Inv(s)
    ensures Inv(Step(s, x))
  {
    match x
    case InBegin(id) => if id !in s.openers { BeginKeeps(s, id); }
    case InOpened(id, ok) =>
      if At(s, id, Opening) {
        assert PhaseOk(s, id);
        OpenerKeeps(s, id, if ok then Ready else Failed, s.spurious);
      }
    case InWait(id) => if At(s, id, Ready) { WaitKeeps(s, id); }
    case InTimeout(id) => if At(s, id, Blocked) { OpenerKeeps(s, id, Failed, s.spurious); }
    case InSpurious(id) =>
      if At(s, id, Blocked) {
        assert PhaseOk(s, id);
        OpenerKeeps(s, id, Woken, s.spurious + {id});
      }
    case InGet(id) => if At(s, id, Woken) { GetKeeps(s, id); }
    case InComplete(id) =>
      if id in s.openers && (s.openers[id] == Failed || s.openers[id].Done?) { CompleteKeeps(s, id); }
    case InCall(id, c, r) => PostsKeep(s, s.posts + [Post(id, c, r, Called)]);
    case InUpdate(k) => if k < |s.posts| && s.posts[k].stage == Called { UpdateKeeps(s, k); }
    case InPost(k) => if k < |s.posts| && s.posts[k].stage == Updated { SignalKeeps(s, k); }
  }

  lemma {:induction false} RunKeeps(s: St, xs: seq<Input>)
    requires Inv(s)
    ensures Inv(Run(s, xs))
    decreases |xs|
  {
    if xs != [] {
      hide Inv, Step;
      StepKeeps(s, xs[0]);
      RunKeeps(Step(s, xs[0]), xs[1..]);
    }
  }

  // ---------- results ----------

  /** In every interleaving, an opener that finishes and whose wait did not come back by itself returns the channel
      id and the result of one call made for its session; with one call, exactly that call's. */
  lemma OpenerReturnsPosted(xs: seq<Input>, id: int)
    requires id in Run(Initial(), xs).openers && Run(Initial(), xs).openers[id].Done?
    requires id !in Run(Initial(), xs).spurious
    ensures var s := Run(Initial(), xs);
            var Done(c, r) := s.openers[id];
            && (exists p | p in s.posts :: p.id == id && p.channelId == c && p.openResult == r && Wrote(p))
            && (forall q | q in s.posts && (forall p | p in s.posts && p.id == id :: p == q) ::
                  q.channelId == c && q.openResult == r)
  {
    RunKeeps(Initial(), xs);
    assert PhaseOk(Run(Initial(), xs), id);
  }

  /** The wait has no loop around it, so a wake-up that no signal caused goes through. Exactly when a woken opener
      returns a posted pair all the same: some call for its session has run its update. After a signal that is
      always so. */
  lemma WokenReturnsPostedIff(xs: seq<Input>, id: int)
    requires At(Run(Initial(), xs), id, Woken)
    ensures var s := Run(Initial(), xs);
            var ph := Get(s, id).openers[id];
            && ph.Done?
            && (Stored(s.posts, id, ph.channelId, ph.openResult) <==> exists p | p in s.posts :: p.id == id && Wrote(p))
            && (id !in s.spurious ==> exists p | p in s.posts :: p.id == id && Wrote(p))
  {
    RunKeeps(Initial(), xs);
    var s := Run(Initial(), xs);
    assert PhaseOk(s, id);
    var i := Find(s.nodes, id);
    assert NodeOk(s, s.nodes[i]);
    if p :| p in s.posts && p.id == id && Wrote(p) {
      assert PostOk(s, p);
      hide Stored;
    }
  }

  /** The run that shows it: a wait that comes back by itself before any call makes a success out of a fresh node. */
  lemma SpuriousReturnsNothing(id: int)
    ensures var s := Run(Initial(), [InBegin(id), InOpened(id, true), InWait(id), InSpurious(id), InGet(id)]);
            At(s, id, Done(0, 0)) && s.posts == []
  {
    var n := Node(id, 0, 0, false);
    var s1 := Step(Initial(), InBegin(id));
    assert s1.nodes == [n];
    var s2 := Step(s1, InOpened(id, true));
    var s3 := Step(s2, InWait(id));
    var s4 := Step(s3, InSpurious(id));
    var s5 := Step(s4, InGet(id));
    assert At(s5, id, Done(0, 0)) && s5.posts == [];
    RunFive(Initial(), InBegin(id), InOpened(id, true), InWait(id), InSpurious(id), InGet(id));
  }

  lemma RunCons(s: St, x: Input, xs: seq<Input>)
    ensures Run(s, [x] + xs) == Run(Step(s, x), xs)
  {
    assert ([x] + xs)[1..] == xs;
  }

  lemma RunFive(s: St, a: Input, b: Input, c: Input, d: Input, e: Input)
    ensures Run(s, [a, b, c, d, e]) == Step(Step(Step(Step(Step(s, a), b), c), d), e)
  {
    hide Step;
    assert [a, b, c, d, e] == [a] + ([b] + ([c] + ([d] + ([e] + []))));
    var s1 := Step(s, a);
    var s2 := Step(s1, b);
    var s3 := Step(s2, c);
    var s4 := Step(s3, d);
    RunCons(s, a, [b] + ([c] + ([d] + ([e] + []))));
    RunCons(s1, b, [c] + ([d] + ([e] + [])));
    RunCons(s2, c, [d] + ([e] + []));
    RunCons(s3, d, [e] + []);
    RunCons(s4, e, []);
  }

  /** No wake-up is lost: an opener is never blocked once a call for its session has signalled, waiting after
      the signal does not block, and a woken opener always gets its result. */
  lemma NoLostWakeUp(xs: seq<Input>, id: int)
    requires id in Run(Initial(), xs).openers
    ensures var s := Run(Initial(), xs);
            && ((exists p | p in s.posts :: p.id == id && p.stage == Posted) ==>
                  s.openers[id] != Blocked && (s.openers[id] == Ready ==> Wait(s, id).openers[id] == Woken))
            && (s.openers[id] == Woken ==> Get(s, id).openers[id].Done?)
  {
    RunKeeps(Initial(), xs);
    var s := Run(Initial(), xs);
    assert PhaseOk(s, id);
    var i := Find(s.nodes, id);
    if i < |s.nodes| {
      assert NodeOk(s, s.nodes[i]);
    }
    if p :| p in s.posts && p.id == id && p.stage == Posted {
      assert PostOk(s, p);
    }
  }

  // ---------- the list as it runs ----------

  class SessionManager {
    var list: seq<Node>
    var cnt: int
    var lastSessionId: int

    constructor ()
      ensures list == [] && cnt == 0 && lastSessionId == 0
    {
      list, cnt, lastSessionId := [], 0, 0;
    }

    method GetSessionId() returns (id: int)
      modifies this`lastSessionId
      ensures id == lastSessionId == NextId(old(lastSessionId))
    {
      if lastSessionId >= INT32_MAX {
        lastSessionId := 1;
      }
      lastSessionId := lastSessionId + 1;
      id := lastSessionId;
    }

    method Walk(id: int) returns (i: nat)
      ensures i == Find(list, id)
    {
      i := 0;
      while i < |list|
        invariant 0 <= i <= |list|
        invariant i + Find(list[i..], id) == Find(list, id)
      {
        if list[i].id == id {
          return;
        }
        assert list[i..][1..] == list[i + 1..];
        i := i + 1;
      }
    }

    method UpdateListBySessionId(p: Post, ghost s: St, ghost k: nat) returns (found: bool)
      requires s.nodes == list && k < |s.posts| && s.posts[k] == p
      modifies this`list
      ensures list == Update(s, k).nodes
      ensures found <==> Update(s, k).posts[k].stage == Updated
    {
      var i := Walk(p.id);
      found := i < |list|;
      if found {
        list := list[i := list[i].(channelId := p.channelId, openResult := p.openResult)];
      }
    }

    method BrProxyPostCond(p: Post, ghost s: St, ghost k: nat) returns (found: bool)
      requires s.nodes == list && k < |s.posts| && s.posts[k] == p
      modifies this`list
      ensures list == Signal(s, k).nodes
      ensures found <==> Signal(s, k).posts[k].stage == Posted
    {
      var i := Walk(p.id);
      found := i < |list|;
      if found {
        list := list[i := list[i].(condFlag := true)];
      }
    }

    /** The fresh node is the one every later walk of its session finds. */
    method AddSessionToList(id: int, ghost s: St)
      requires s.nodes == list
      modifies this`list, this`cnt
      ensures list == Begin(s, id).nodes && Find(list, id) == 0 && !list[0].condFlag
      ensures Inv(s) && id !in s.openers ==> Unique(list)
      ensures cnt - |list| == old(cnt) - |old(list)|
    {
      list, cnt := [Node(id, 0, 0, false)] + list, cnt + 1;
      if Inv(s) && id !in s.openers {
        BeginKeeps(s, id);
      }
    }

    method DeleteSessionById(id: int, ghost s: St) returns (found: bool)
      requires s.nodes == list
      modifies this`list, this`cnt
      ensures list == Del(old(list), Find(old(list), id))
      ensures id in s.openers && (s.openers[id] == Failed || s.openers[id].Done?) ==>
                list == Step(s, InComplete(id)).nodes
      ensures Inv(s) ==> forall n | n in list :: n.id != id
      ensures cnt - |list| == old(cnt) - |old(list)|
      ensures found <==> exists n | n in old(list) :: n.id == id
    {
      var i := Walk(id);
      found := i < |list|;
      if found {
        assert list[i] in list;
        list, cnt := list[..i] + list[i + 1..], cnt - 1;
      }
    }
  }
}
