/** What an opener of a channel ends with, and that whoever is called is woken. */
module OpenAnswers {
  import opened OpenRendezvous

  ghost predicate NoNode(s: St, id: int) {
    forall n | n in s.nodes :: n.id != id
  }

  /** Everything but the given session and calls is as before. */
  ghost predicate OthersSame(s: St, t: St, id: int) {
    && (forall k | k != id :: (k in t.openers <==> k in s.openers) && (k in s.openers ==> t.openers[k] == s.openers[k]))
    && (forall n: Node | n.id != id :: n in t.nodes <==> n in s.nodes)
  }

  /** One call, from its start to its signal: the node of the session holds its pair with the flag up, a blocked
      opener is woken and any other one left where it is. */
  lemma CallArrives(s: St, id: int, c: int, r: int)
    requires Inv(s) && !NoNode(s, id)
    ensures var k := |s.posts|;
            var t := Step(Step(Step(s, InCall(id, c, r)), InUpdate(k)), InPost(k));
            && t.posts == s.posts + [Post(id, c, r, Posted)] && t.spurious == s.spurious
            && Node(id, c, r, true) in t.nodes
            && (id in s.openers ==> At(t, id, if s.openers[id] == Blocked then Woken else s.openers[id]))
            && OthersSame(s, t, id)
  {
    var k := |s.posts|;
    var s1 := Step(s, InCall(id, c, r));
    var i := Find(s.nodes, id);
    assert i < |s.nodes| && s.nodes[i].id == id;
    var s2 := Step(s1, InUpdate(k));
    assert s1.posts[k] == Post(id, c, r, Called);
    assert s2.nodes == s.nodes[i := s.nodes[i].(channelId := c, openResult := r)];
    assert s2.posts == s.posts + [Post(id, c, r, Updated)];
    SameFind(s.nodes, s2.nodes, id);
    var s3 := Step(s2, InPost(k));
    assert s3.nodes == s.nodes[i := Node(id, c, r, true)];
    assert s3.posts == s.posts + [Post(id, c, r, Posted)];
    assert s3.nodes[i] == Node(id, c, r, true);
    OneNodeChanged(s.nodes, i, Node(id, c, r, true));
    hide Find, Inv;
  }

  lemma {:induction false} SameFind(ns: seq<Node>, ms: seq<Node>, id: int)
    requires |ns| == |ms| && forall i | 0 <= i < |ns| :: ns[i].id == ms[i].id
    ensures Find(ns, id) == Find(ms, id)
  {
    if ns != [] {
      SameFind(ns[1..], ms[1..], id);
    }
  }

  lemma OneNodeChanged(ns: seq<Node>, i: nat, m: Node)
    requires i < |ns| && ns[i].id == m.id
    ensures forall n: Node | n.id != m.id :: n in ns[i := m] <==> n in ns
  {
    var ms := ns[i := m];
    forall n: Node | n.id != m.id && n in ns ensures n in ms {
      var j :| 0 <= j < |ns| && ns[j] == n;
      assert ms[j] == n;
    }
  }

  /** The opener's last steps: it reads what its node holds, and its node goes. */
  lemma GetAndComplete(s: St, id: int, c: int, r: int, flag: bool)
    requires Inv(s) && At(s, id, Woken) && Node(id, c, r, flag) in s.nodes
    ensures var t := Step(Step(s, InGet(id)), InComplete(id));
            At(t, id, Done(c, r)) && NoNode(t, id) && t.posts == s.posts && OthersSame(s, t, id)
  {
    UniqueNode(s.nodes, Node(id, c, r, flag));
    var s1 := Step(s, InGet(id));
    assert At(s1, id, Done(c, r)) && s1.nodes == s.nodes;
    CompleteRemoves(s1, id);
  }

  /** A finished opener completes: exactly the node of its session goes. */
  lemma CompleteRemoves(s: St, id: int)
    requires Unique(s.nodes) && id in s.openers && (s.openers[id] == Failed || s.openers[id].Done?)
    ensures var t := Step(s, InComplete(id));
            t == s.(nodes := t.nodes) && NoNode(t, id) && forall n: Node | n.id != id :: n in t.nodes <==> n in s.nodes
  {
    var i, t := Find(s.nodes, id), Step(s, InComplete(id));
    if i < |s.nodes| {
      assert s.nodes == s.nodes[..i] + [s.nodes[i]] + s.nodes[i + 1..];
      forall n | n in t.nodes ensures n.id != id {
        var j :| 0 <= j < |t.nodes| && t.nodes[j] == n;
        assert t.nodes[j] == s.nodes[if j < i then j else j + 1];
      }
    }
  }

  /** In every reachable state: an opener that is ready to wait, and one call for its session in whatever order with the
      wait, returns that call's channel id and result; the node is gone afterwards and nobody else is touched. */
  lemma CallIsReturned(s: St, id: int, c: int, r: int)
    requires Inv(s) && At(s, id, Ready)
    ensures var k := |s.posts|;
            var arrive := [InCall(id, c, r), InUpdate(k), InPost(k)];
            forall t | t == Run(s, [InWait(id)] + arrive + [InGet(id), InComplete(id)])
                       || t == Run(s, arrive + [InWait(id)] + [InGet(id), InComplete(id)]) ::
              && At(t, id, Done(c, r)) && NoNode(t, id)
              && t.posts == s.posts + [Post(id, c, r, Posted)] && OthersSame(s, t, id)
  {
    var k := |s.posts|;
    var arrive := [InCall(id, c, r), InUpdate(k), InPost(k)];
    assert PhaseOk(s, id);
    WaitFirst(s, id, c, r);
    CallFirst(s, id, c, r);
    hide Step, Inv, NoNode, OthersSame;
    RunSix(s, InWait(id), InCall(id, c, r), InUpdate(k), InPost(k), InGet(id), InComplete(id));
    RunSix(s, InCall(id, c, r), InUpdate(k), InPost(k), InWait(id), InGet(id), InComplete(id));
    assert [InWait(id)] + arrive + [InGet(id), InComplete(id)] ==
           [InWait(id), InCall(id, c, r), InUpdate(k), InPost(k), InGet(id), InComplete(id)];
    assert arrive + [InWait(id)] + [InGet(id), InComplete(id)] ==
           [InCall(id, c, r), InUpdate(k), InPost(k), InWait(id), InGet(id), InComplete(id)];
  }

  lemma WaitFirst(s: St, id: int, c: int, r: int)
    requires Inv(s) && At(s, id, Ready)
    ensures var k := |s.posts|;
            var s1 := Step(s, InWait(id));
            var s2 := Step(Step(Step(s1, InCall(id, c, r)), InUpdate(k)), InPost(k));
            var t := Step(Step(s2, InGet(id)), InComplete(id));
            && At(t, id, Done(c, r)) && NoNode(t, id)
            && t.posts == s.posts + [Post(id, c, r, Posted)] && OthersSame(s, t, id)
  {
    WaitsOrWakes(s, id);
    var s1 := Step(s, InWait(id));
    StepKeeps(s, InWait(id));
    CallArrives(s1, id, c, r);
    CallKeeps(s1, id, c, r);
    var k := |s.posts|;
    var s2 := Step(Step(Step(s1, InCall(id, c, r)), InUpdate(k)), InPost(k));
    hide Step, Inv;
    GetAndComplete(s2, id, c, r, true);
  }

  lemma CallFirst(s: St, id: int, c: int, r: int)
    requires Inv(s) && At(s, id, Ready)
    ensures var k := |s.posts|;
            var s1 := Step(Step(Step(s, InCall(id, c, r)), InUpdate(k)), InPost(k));
            var s2 := Step(s1, InWait(id));
            var t := Step(Step(s2, InGet(id)), InComplete(id));
            && At(t, id, Done(c, r)) && NoNode(t, id)
            && t.posts == s.posts + [Post(id, c, r, Posted)] && OthersSame(s, t, id)
  {
    assert PhaseOk(s, id);
    CallArrives(s, id, c, r);
    CallKeeps(s, id, c, r);
    var k := |s.posts|;
    var s1 := Step(Step(Step(s, InCall(id, c, r)), InUpdate(k)), InPost(k));
    hide Step;
    WaitsOrWakes(s1, id);
    StepKeeps(s1, InWait(id));
    UniqueNode(s1.nodes, Node(id, c, r, true));
    hide Inv;
    GetAndComplete(Step(s1, InWait(id)), id, c, r, true);
  }

  lemma CallKeeps(s: St, id: int, c: int, r: int)
    requires Inv(s)
    ensures var k := |s.posts|; Inv(Step(Step(Step(s, InCall(id, c, r)), InUpdate(k)), InPost(k)))
  {
    hide Inv, Step;
    var k := |s.posts|;
    StepKeeps(s, InCall(id, c, r));
    StepKeeps(Step(s, InCall(id, c, r)), InUpdate(k));
    StepKeeps(Step(Step(s, InCall(id, c, r)), InUpdate(k)), InPost(k));
  }

  /** Waiting blocks exactly if the flag of the node is down. */
  lemma WaitsOrWakes(s: St, id: int)
    requires Inv(s) && At(s, id, Ready)
    ensures var t := Step(s, InWait(id));
            && t == s.(openers := t.openers) && OthersSame(s, t, id) && !NoNode(s, id)
            && forall n | n in s.nodes && n.id == id :: At(t, id, if n.condFlag then Woken else Blocked)
  {
    assert PhaseOk(s, id) && HasNode(s.nodes, id);
    forall n | n in s.nodes && n.id == id ensures s.nodes[Find(s.nodes, id)] == n {
      UniqueNode(s.nodes, n);
    }
  }

  lemma RunSix(s: St, a: Input, b: Input, c: Input, d: Input, e: Input, f: Input)
    ensures Run(s, [a, b, c, d, e, f]) == Step(Step(Step(Step(Step(Step(s, a), b), c), d), e), f)
  {
    hide Step;
    RunThree(s, a, b, c, [d, e, f]);
    assert [a, b, c] + [d, e, f] == [a, b, c, d, e, f];
    RunThree(Step(Step(Step(s, a), b), c), d, e, f, []);
    assert [d, e, f] + [] == [d, e, f];
  }

  lemma RunThree(s: St, a: Input, b: Input, c: Input, rest: seq<Input>)
    ensures Run(s, [a, b, c] + rest) == Run(Step(Step(Step(s, a), b), c), rest)
  {
    hide Step;
    var xs := [a, b, c] + rest;
    assert xs[1..] == [b, c] + rest && xs[1..][1..] == [c] + rest && xs[1..][1..][1..] == rest;
    assert Run(s, xs) == Run(Step(s, a), xs[1..]) && Run(Step(s, a), xs[1..]) == Run(Step(Step(s, a), b), xs[1..][1..]);
  }

  /** An opening that the service refuses, and a wait that runs out, end the opener with a failure; a new session starts
      with neither. Completing then takes the node away. */
  lemma FailureEnds(s: St, id: int)
    requires Inv(s)
    ensures id !in s.openers ==>
              var t := Step(s, InBegin(id));
              At(t, id, Opening) && Node(id, 0, 0, false) in t.nodes && t.posts == s.posts && OthersSame(s, t, id)
    ensures At(s, id, Opening) ==>
              && Step(s, InOpened(id, true)) == s.(openers := s.openers[id := Ready])
              && Step(s, InOpened(id, false)) == s.(openers := s.openers[id := Failed])
    ensures At(s, id, Blocked) ==> Step(s, InTimeout(id)) == s.(openers := s.openers[id := Failed])
    ensures At(s, id, Failed) ==> var t := Step(s, InComplete(id)); NoNode(t, id) && OthersSame(s, t, id)
  {
    if At(s, id, Failed) {
      CompleteRemoves(s, id);
    }
    if id !in s.openers {
      assert Step(s, InBegin(id)).nodes[0] == Node(id, 0, 0, false);
    }
  }

  /** A call for a session that is gone changes nothing but its own record: before its update it is told so, between
      update and signal it is simply late. */
  lemma GoneIsNotFound(s: St, k: nat)
    requires k < |s.posts| && NoNode(s, s.posts[k].id)
    ensures s.posts[k].stage == Called ==>
              Step(s, InUpdate(k)) == s.(posts := s.posts[k := s.posts[k].(stage := NotFound)])
    ensures s.posts[k].stage == Updated ==>
              Step(s, InPost(k)) == s.(posts := s.posts[k := s.posts[k].(stage := Late)])
  {
    assert forall j | 0 <= j < |s.nodes| :: s.nodes[j] in s.nodes;
  }
}
