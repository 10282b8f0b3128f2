/** Account-group authentication: a list of running requests beside the timeout messages armed for them. */
module AccountAuth {
  import opened Looper

  const PROCESS_TIMEOUT_US := 10 * 1000 * 1000

  /** Which of the two terminal callbacks the registered table has. */
  datatype Table = Table(onFinish: bool, onError: bool)

  datatype Call = Finish(id: int) | Error(id: int) | TimeoutError(id: int)

  /** `begun` records the clock at which each request was last put on the list. */
  datatype St = St(list: seq<int>, cnt: int, q: seq<Msg<int>>, calls: seq<Call>, begun: map<int, int>)

  function Initial(): St {
    St([], 0, [], [], map[])
  }

  /** DeleteAccountAuthInstance: the first node with the id. */
  function Delete(list: seq<int>, id: int): seq<int> {
    if list == [] then [] else if list[0] == id then list[1..] else [list[0]] + Delete(list[1..], id)
  }

  function Drop(s: St, id: int): St {
    if id in s.list then s.(list := Delete(s.list, id), cnt := s.cnt - 1) else s
  }

  function Disarm(s: St, id: int): St {
    s.(q := Without(s.q, id))
  }

  /** CreateAccountAuthInstance at clock reading `t`. */
  function Begin(s: St, id: int, t: int): St {
    if id in s.list then s
    else s.(list := [id] + s.list, cnt := s.cnt + 1, q := Post(s.q, Msg(t + PROCESS_TIMEOUT_US, id)),
            begun := s.begun[id := t])
  }

  function Finished(s: St, tb: Table, id: int, hasData: bool): St {
    if !hasData || !tb.onFinish then s
    else
      var s1 := Disarm(Drop(s, id), id);
      s1.(calls := s1.calls + [Finish(id)])
  }

  /** OnError; `timeoutCode` says that the code is the one the timeout handler passes. */
  function Failed(s: St, tb: Table, id: int, timeoutCode: bool, call: Call): St {
    if !tb.onError then s
    else
      var s1 := if timeoutCode then Drop(s, id) else Disarm(Drop(s, id), id);
      s1.(calls := s1.calls + [call])
  }

  function Serve(s: St, tb: Table, now: int): St {
    if s.q == [] || s.q[0].time > now then s
    else
      var id, s1 := s.q[0].body, s.(q := s.q[1..]);
      if id in s1.list then Failed(s1, tb, id, true, TimeoutError(id)) else s1
  }

  /** InRefused is hichain turning the request down; a callback may come in before it does. */
  datatype Input =
    | InBegin(id: int, t: int)
    | InRefused(id: int)
    | InFinished(id: int, hasData: bool)
    | InError(id: int, timeoutCode: bool)
    | InServe(now: int)

  function Step(s: St, tb: Table, x: Input): St {
    match x
    case InBegin(id, t) => Begin(s, id, t)
    case InRefused(id) => Disarm(Drop(s, id), id)
    case InFinished(id, hasData) => Finished(s, tb, id, hasData)
    case InError(id, timeoutCode) => Failed(s, tb, id, timeoutCode, Error(id))
    case InServe(now) => Serve(s, tb, now)
  }

  function Run(s: St, tb: Table, xs: seq<Input>): St
    decreases |xs|
  {
    if xs == [] then s else Run(Step(s, tb, xs[0]), tb, xs[1..])
  }

  // ---------- the invariant ----------

  function Listed(list: seq<int>, id: int): nat {
    if list == [] then 0 else (if list[0] == id then 1 else 0) + Listed(list[1..], id)
  }

  /** Nothing is listed twice, and the counter counts the list. */
  ghost predicate ListOk(s: St) {
    s.cnt == |s.list| && forall id :: Listed(s.list, id) <= 1
  }

  /** One request: listed exactly as often as it is armed. */
  ghost predicate IdOk(s: St, id: int) {
    Count(s.q, id) == Listed(s.list, id)
  }

  ghost predicate Paired(s: St) {
    ListOk(s) && forall id :: IdOk(s, id)
  }

  lemma {:induction false} ListedDelete(list: seq<int>, x: int, id: int)
    ensures Listed(Delete(list, x), id) == Listed(list, id) - (if x == id && x in list then 1 else 0)
    ensures |Delete(list, x)| == |list| - (if x in list then 1 else 0)
    ensures Listed(list, id) > 0 <==> id in list
  {
    if list != [] {
      ListedDelete(list[1..], x, id);
    }
  }

  lemma DropKeepsList(s: St, j: int)
    requires ListOk(s)
    ensures ListOk(Drop(s, j))
  {
    ListedDelete(s.list, j, j);
    forall id ensures Listed(Drop(s, j).list, id) <= 1 {
      ListedDelete(s.list, j, id);
    }
  }

  lemma BeginKeepsList(s: St, j: int, t: int)
    requires ListOk(s)
    ensures ListOk(Begin(s, j, t))
  {
    hide Post;
    ListedDelete(s.list, j, j);
    assert ([j] + s.list)[1..] == s.list;
    forall id ensures Listed(Begin(s, j, t).list, id) <= 1 {
      assert Listed([j] + s.list, id) == (if j == id then 1 else 0) + Listed(s.list, id);
    }
  }

  lemma StepKeepsList(s: St, tb: Table, x: Input)
    requires ListOk(s)
    ensures ListOk(Step(s, tb, x))
  {
    match x
    case InBegin(j, t) => BeginKeepsList(s, j, t);
    case InRefused(j) => DropKeepsList(s, j);
    case InFinished(j, _) => DropKeepsList(s, j);
    case InError(j, _) => DropKeepsList(s, j);
    case InServe(_) => if s.q != [] { DropKeepsList(s, s.q[0].body); }
    hide Drop, Begin, Without, Listed;
  }

  lemma {:induction false} RunKeepsList(s: St, tb: Table, xs: seq<Input>)
    requires ListOk(s)
    ensures ListOk(Run(s, tb, xs))
    decreases |xs|
  {
    if xs != [] {
      StepKeepsList(s, tb, xs[0]);
      hide ListOk, Step;
      RunKeepsList(Step(s, tb, xs[0]), tb, xs[1..]);
    }
  }

  /** The report that leaves a message armed: the timeout's own code for this request. */
  predicate TimeoutCodeFor(x: Input, id: int) {
    x.InError? && x.id == id && x.timeoutCode
  }

  lemma StepKeeps(s: St, tb: Table, x: Input, id: int)
    requires ListOk(s) && IdOk(s, id) && tb.onError && !TimeoutCodeFor(x, id)
    ensures IdOk(Step(s, tb, x), id)
  {
    ListedDelete(s.list, id, id);
    match x
    case InBegin(j, t) =>
      CountPost(s.q, Msg(t + PROCESS_TIMEOUT_US, j), id);
      ListedDelete(s.list, j, j);
    case InRefused(j) =>
      ListedDelete(s.list, j, id);
      CountWithout(s.q, j, id);
    case InFinished(j, _) =>
      ListedDelete(s.list, j, id);
      CountWithout(s.q, j, id);
    case InError(j, _) =>
      ListedDelete(s.list, j, id);
      CountWithout(s.q, j, id);
    case InServe(_) =>
      if s.q != [] {
        ListedDelete(s.list, s.q[0].body, id);
      }
    hide Post, Without, Delete;
  }

  lemma {:induction false} RunKeeps(s: St, tb: Table, xs: seq<Input>, id: int)
    requires ListOk(s) && IdOk(s, id) && tb.onError && forall x | x in xs :: !TimeoutCodeFor(x, id)
    ensures IdOk(Run(s, tb, xs), id)
    decreases |xs|
  {
    if xs != [] {
      StepKeeps(s, tb, xs[0], id);
      StepKeepsList(s, tb, xs[0]);
      hide IdOk, ListOk, Step;
      RunKeeps(Step(s, tb, xs[0]), tb, xs[1..], id);
    }
  }

  // ---------- results ----------

  /** In every run a request is listed if and only if exactly one timeout is armed for it, provided hichain does
      not report the timeout's own code for that request; and the counter always counts the list. */
  lemma ListedIffArmed(tb: Table, xs: seq<Input>, id: int)
    requires tb.onError && forall x | x in xs :: !TimeoutCodeFor(x, id)
    ensures var s := Run(Initial(), tb, xs);
            && (id in s.list <==> Count(s.q, id) == 1)
            && (id !in s.list <==> Count(s.q, id) == 0)
            && s.cnt == |s.list|
  {
    RunKeeps(Initial(), tb, xs, id);
    RunKeepsList(Initial(), tb, xs);
    var s := Run(Initial(), tb, xs);
    hide Run;
    ListedDelete(s.list, id, id);
  }

  /** In every such run a listed request has a message due exactly ten seconds after it began. */
  lemma ListedIsDueInTime(tb: Table, xs: seq<Input>, id: int)
    requires tb.onError && forall x | x in xs :: !TimeoutCodeFor(x, id)
    ensures var s := Run(Initial(), tb, xs);
            id in s.list ==> id in s.begun && Msg(s.begun[id] + 10_000_000, id) in s.q
  {
    ListedIffArmed(tb, xs, id);
    RunKeepsClean(Initial(), tb, xs, id);
    var s := Run(Initial(), tb, xs);
    hide Run, Count;
    NoneCounted(s.q, id);
    if id in s.list {
      var m :| m in s.q && m.body == id;
      assert m == Msg(s.begun[id] + 10_000_000, id);
    }
  }

  // ---------- what is reported ----------

  /** What hichain's reports amount to: a finish that has data, and an error, each told if the callback is there. */
  function Reports(tb: Table, xs: seq<Input>): seq<Call> {
    if xs == [] then []
    else
      var x := xs[|xs| - 1];
      Reports(tb, xs[..|xs| - 1]) +
      (if x.InFinished? && x.hasData && tb.onFinish then [Finish(x.id)]
       else if x.InError? && tb.onError then [Error(x.id)]
       else [])
  }

  function NoTimeouts(cs: seq<Call>): seq<Call> {
    if cs == [] then []
    else NoTimeouts(cs[..|cs| - 1]) + (if cs[|cs| - 1].TimeoutError? then [] else [cs[|cs| - 1]])
  }

  lemma NoTimeoutsAdd(cs: seq<Call>, c: Call)
    ensures NoTimeouts(cs + [c]) == NoTimeouts(cs) + (if c.TimeoutError? then [] else [c])
  {
    assert (cs + [c])[..|cs|] == cs;
  }

  /** One input tells what it reports, or the timeout it serves to a listed request, and nothing else; a finish
      without data or a callback, and an error without one, change nothing at all. */
  lemma StepTells(s: St, tb: Table, x: Input)
    ensures var t := Step(s, tb, x);
            match x
            case InFinished(id, hasData) =>
              if hasData && tb.onFinish then t.calls == s.calls + [Finish(id)] else t == s
            case InError(id, _) => if tb.onError then t.calls == s.calls + [Error(id)] else t == s
            case InServe(now) =>
              if tb.onError && s.q != [] && s.q[0].time <= now && s.q[0].body in s.list
              then t.calls == s.calls + [TimeoutError(s.q[0].body)] else t.calls == s.calls
            case _ => t.calls == s.calls
  {
    hide Delete, Without, Post;
  }

  /** Over every run: but for timeouts, the callbacks are exactly the reports, each once and in order. */
  lemma {:induction false} EveryReportIsTold(tb: Table, xs: seq<Input>)
    ensures NoTimeouts(Run(Initial(), tb, xs).calls) == Reports(tb, xs)
  {
    if xs != [] {
      var ys, x := xs[..|xs| - 1], xs[|xs| - 1];
      EveryReportIsTold(tb, ys);
      RunSplits(Initial(), tb, ys, [x]);
      assert xs == ys + [x] && [x][1..] == [];
      var s := Run(Initial(), tb, ys);
      assert Run(Initial(), tb, xs) == Step(s, tb, x);
      StepTells(s, tb, x);
      hide Step, Run, NoTimeouts;
      NoTimeoutsAdd(s.calls, Finish(if x.InFinished? then x.id else 0));
      NoTimeoutsAdd(s.calls, Error(if x.InError? then x.id else 0));
      NoTimeoutsAdd(s.calls, TimeoutError(if s.q != [] then s.q[0].body else 0));
    }
  }

  lemma {:induction false} RunSplits(s: St, tb: Table, xs: seq<Input>, ys: seq<Input>)
    ensures Run(s, tb, xs + ys) == Run(Run(s, tb, xs), tb, ys)
    decreases |xs|
  {
    hide Step;
    if xs == [] {
      assert xs + ys == ys;
    } else {
      assert (xs + ys)[1..] == xs[1..] + ys;
      RunSplits(Step(s, tb, xs[0]), tb, xs[1..], ys);
    }
  }

  ghost predicate NeverBegins(xs: seq<Input>, id: int) {
    forall x | x in xs && x.InBegin? :: x.id != id
  }

  /** In every run, whatever was reported before: a terminal callback, or a refusal, takes the request off the list
      and leaves nothing armed for it. */
  lemma TerminalDisarms(tb: Table, xs: seq<Input>, x: Input)
    requires (x.InError? && !x.timeoutCode && tb.onError) || (x.InFinished? && x.hasData && tb.onFinish) || x.InRefused?
    ensures var s := Step(Run(Initial(), tb, xs), tb, x); x.id !in s.list && Count(s.q, x.id) == 0
  {
    var s := Run(Initial(), tb, xs);
    RunKeepsList(Initial(), tb, xs);
    hide Run;
    ListedDelete(s.list, x.id, x.id);
    ListedDelete(Delete(s.list, x.id), x.id, x.id);
    CountWithout(s.q, x.id, x.id);
  }

  /** Once a request is off the list, no timeout ever fires for it until it begins again: for any table, any
      reported codes and whatever messages are still armed. */
  lemma {:induction false} NoTimeoutAfterTerminal(s: St, tb: Table, xs: seq<Input>, id: int)
    requires id !in s.list && NeverBegins(xs, id)
    ensures TimeoutError(id) in Run(s, tb, xs).calls ==> TimeoutError(id) in s.calls
    decreases |xs|
  {
    if xs != [] {
      NeverListed(s, tb, xs[0], id);
      NoTimeoutAfterTerminal(Step(s, tb, xs[0]), tb, xs[1..], id);
    }
  }

  lemma NeverListed(s: St, tb: Table, x: Input, id: int)
    requires id !in s.list && (x.InBegin? ==> x.id != id)
    ensures var s1 := Step(s, tb, x);
            id !in s1.list && (TimeoutError(id) in s1.calls ==> TimeoutError(id) in s.calls)
  {
    forall y ensures id !in Delete(s.list, y) {
      ListedDelete(s.list, y, id);
      ListedDelete(Delete(s.list, y), y, id);
    }
  }

  lemma RunTwo(s: St, tb: Table, x: Input, y: Input)
    ensures Run(s, tb, [x, y]) == Step(Step(s, tb, x), tb, y)
  {
    hide Step;
    assert [x, y][1..] == [y] && [y][1..] == [];
    assert Run(Step(s, tb, x), tb, [y]) == Step(Step(s, tb, x), tb, y);
  }

  predicate Allowed(xs: seq<Input>, timeoutCodes: bool) {
    forall x | x in xs && x.InError? :: x.timeoutCode ==> timeoutCodes
  }

  ghost predicate AlwaysPaired(tb: Table, timeoutCodes: bool) {
    forall xs | Allowed(xs, timeoutCodes) :: Paired(Run(Initial(), tb, xs))
  }

  /** Exactly when the pairing holds over all runs: an error callback is registered, and hichain never reports
      the timeout's own code, which would leave the message armed. */
  lemma PairedIff(tb: Table, timeoutCodes: bool)
    ensures AlwaysPaired(tb, timeoutCodes) <==> tb.onError && !timeoutCodes
  {
    if tb.onError && !timeoutCodes {
      forall xs | Allowed(xs, timeoutCodes) ensures Paired(Run(Initial(), tb, xs)) {
        RunKeepsList(Initial(), tb, xs);
        forall id ensures IdOk(Run(Initial(), tb, xs), id) {
          RunKeeps(Initial(), tb, xs, id);
        }
      }
    } else {
      var x, y := InBegin(1, 0), if tb.onError then InError(1, true) else InServe(PROCESS_TIMEOUT_US);
      var m := Msg(PROCESS_TIMEOUT_US, 1);
      var s := Begin(Initial(), 1, 0);
      assert s == St([1], 1, [m], [], map[1 := 0]);
      var s1 := Step(s, tb, y);
      assert s1.list == (if tb.onError then [] else [1]) && s1.q == (if tb.onError then [m] else []);
      assert !IdOk(s1, 1);
      RunTwo(Initial(), tb, x, y);
      assert Allowed([x, y], timeoutCodes);
    }
  }

  // ---------- messages left armed ----------

  /** A message that will be due before the request has had its ten seconds. */
  ghost predicate Stale(s: St, id: int) {
    id in s.begun && exists m | m in s.q :: m.body == id && m.time < s.begun[id] + 10_000_000
  }

  /** The step reports a timeout of the request, after it last began and before its ten seconds are over. */
  ghost predicate FiresEarly(s: St, tb: Table, x: Input, id: int) {
    && x.InServe? && tb.onError && s.q != [] && s.q[0].time <= x.now && s.q[0].body == id && id in s.list
    && id in s.begun && s.begun[id] <= x.now < s.begun[id] + 10_000_000
  }

  ghost predicate EarlyIn(s: St, tb: Table, xs: seq<Input>, id: int)
    decreases |xs|
  {
    xs != [] && (FiresEarly(s, tb, xs[0], id) || EarlyIn(Step(s, tb, xs[0]), tb, xs[1..], id))
  }

  ghost predicate OnlyTurns(xs: seq<Input>) {
    forall x | x in xs :: x.InServe?
  }

  lemma {:induction false} NoneStaleNoneEarly(s: St, tb: Table, xs: seq<Input>, id: int)
    requires OnlyTurns(xs) && !Stale(s, id)
    ensures !EarlyIn(s, tb, xs, id)
    decreases |xs|
  {
    if xs != [] {
      assert xs[0] in xs && (s.q != [] ==> s.q[0] in s.q);
      var t := Step(s, tb, xs[0]);
      assert t.begun == s.begun && forall m | m in t.q :: m in s.q;
      NoneStaleNoneEarly(t, tb, xs[1..], id);
    }
  }

  /** A message of the request is armed that is due by `n`. */
  ghost predicate DueBy(s: St, id: int, n: int) {
    exists m | m in s.q :: m.body == id && m.time <= n
  }

  /** Turns at one clock reading serve the queue down to such a message. */
  lemma {:induction false} DueFires(s: St, tb: Table, id: int, n: int) returns (xs: seq<Input>)
    requires Sorted(s.q) && DueBy(s, id, n) && id in s.list && tb.onError
    requires id in s.begun && s.begun[id] <= n < s.begun[id] + PROCESS_TIMEOUT_US
    ensures OnlyTurns(xs) && EarlyIn(s, tb, xs, id)
    decreases |s.q|
  {
    var m :| m in s.q && m.body == id && m.time <= n;
    var k :| 0 <= k < |s.q| && s.q[k] == m;
    var h, x := s.q[0], InServe(n);
    assert h.time <= m.time by { assert k > 0 ==> s.q[0].time <= s.q[k].time; }
    if h.body == id {
      xs := [x];
    } else {
      OthersTurn(s, tb, id, n);
      hide Step, Sorted, DueBy;
      var ys := DueFires(Step(s, tb, x), tb, id, n);
      xs := [x] + ys;
      assert xs[1..] == ys;
    }
  }

  /** Serving another request's message leaves this one listed, with the same messages armed. */
  lemma OthersTurn(s: St, tb: Table, id: int, n: int)
    requires Sorted(s.q) && DueBy(s, id, n) && id in s.list && s.q[0].body != id && s.q[0].time <= n
    ensures var t := Step(s, tb, InServe(n));
            Sorted(t.q) && DueBy(t, id, n) && id in t.list && t.begun == s.begun && |t.q| < |s.q|
  {
    var m :| m in s.q && m.body == id && m.time <= n;
    assert m in s.q[1..];
    TailKeepsOrder(s.q);
    hide Sorted;
    ListedDelete(s.list, s.q[0].body, id);
    ListedDelete(Delete(s.list, s.q[0].body), s.q[0].body, id);
  }

  /** In every run, for any reported codes: from here on turns of the looper can report a timeout within the ten
      seconds after the request last began if and only if a message due that early is still armed. */
  lemma EarlyTimeoutIff(tb: Table, xs: seq<Input>, id: int)
    requires tb.onError && id in Run(Initial(), tb, xs).list
    ensures var s := Run(Initial(), tb, xs);
            (exists ys :: OnlyTurns(ys) && EarlyIn(s, tb, ys, id)) <==> Stale(s, id)
  {
    var s := Run(Initial(), tb, xs);
    RunKeepsOrder(Initial(), tb, xs);
    if Stale(s, id) {
      var m :| m in s.q && m.body == id && m.time < s.begun[id] + PROCESS_TIMEOUT_US;
      var ys := DueFires(s, tb, id, if m.time < s.begun[id] then s.begun[id] else m.time);
    }
    if ys :| OnlyTurns(ys) && EarlyIn(s, tb, ys, id) {
      if !Stale(s, id) {
        NoneStaleNoneEarly(s, tb, ys, id);
      }
    }
  }

  lemma {:induction false} RunKeepsOrder(s: St, tb: Table, xs: seq<Input>)
    requires Sorted(s.q)
    ensures Sorted(Run(s, tb, xs).q)
    decreases |xs|
  {
    if xs != [] {
      StepKeepsOrder(s, tb, xs[0]);
      hide Step, Sorted;
      RunKeepsOrder(Step(s, tb, xs[0]), tb, xs[1..]);
    }
  }

  lemma StepKeepsOrder(s: St, tb: Table, x: Input)
    requires Sorted(s.q)
    ensures Sorted(Step(s, tb, x).q)
  {
    match x
    case InBegin(id, t) => PostKeepsOrder(s.q, Msg(t + PROCESS_TIMEOUT_US, id));
    case InRefused(id) => WithoutKeepsOrder(s.q, id);
    case InFinished(id, _) => WithoutKeepsOrder(s.q, id);
    case InError(id, _) => WithoutKeepsOrder(s.q, id);
    case InServe(_) => if s.q != [] { TailKeepsOrder(s.q); }
    hide Sorted, Post, Without;
  }

  /** A request begins with such a message exactly when one from an earlier begin, at an earlier clock, is armed. */
  lemma BeginsStaleIff(s: St, id: int, t: int)
    requires id !in s.list
    ensures Stale(Begin(s, id, t), id) <==> exists m | m in s.q :: m.body == id && m.time < t + PROCESS_TIMEOUT_US
  {
    var n := Msg(t + PROCESS_TIMEOUT_US, id);
    assert forall m :: m in Post(s.q, n) <==> m == n || m in s.q by {
      var k := Slot(s.q, n.time);
      assert s.q == s.q[..k] + s.q[k..];
    }
  }

  /** What is armed for a request as long as hichain never reports the timeout's own code for it: at most the
      message of its latest begin, and nothing while it is off the list. */
  ghost predicate Clean(s: St, id: int) {
    && (id !in s.list ==> Count(s.q, id) == 0)
    && (id in s.list ==> id in s.begun)
    && forall m | m in s.q && m.body == id :: id in s.begun && m.time == s.begun[id] + PROCESS_TIMEOUT_US
  }

  lemma StepKeepsClean(s: St, tb: Table, x: Input, id: int)
    requires Clean(s, id) && ListOk(s) && Count(s.q, id) <= 1 && !TimeoutCodeFor(x, id)
    ensures var t := Step(s, tb, x); Clean(t, id) && Count(t.q, id) <= 1
  {
    match x
    case InBegin(j, t) => BeginKeepsClean(s, j, t, id);
    case InRefused(j) => DropKeepsClean(s, j, id);
    case InFinished(j, _) => DropKeepsClean(s, j, id);
    case InError(j, _) => DropKeepsClean(s, j, id);
    case InServe(_) => if s.q != [] { TurnKeepsClean(s, id); }
    hide Drop, Begin, Without, Listed, Count;
  }

  /** Dropping and disarming a request, and dropping another one without disarming it. */
  lemma DropKeepsClean(s: St, j: int, id: int)
    requires Clean(s, id) && ListOk(s) && Count(s.q, id) <= 1
    ensures var t := Disarm(Drop(s, j), j); Clean(t, id) && Count(t.q, id) <= 1
    ensures j != id ==> Clean(Drop(s, j), id)
  {
    hide Without, Delete, Listed;
    ListedDelete(s.list, j, id);
    ListedDelete(Delete(s.list, j), j, id);
    CountWithout(s.q, j, id);
    WithoutSubset(s.q, j);
  }

  lemma TurnKeepsClean(s: St, id: int)
    requires Clean(s, id) && ListOk(s) && Count(s.q, id) <= 1 && s.q != []
    ensures var t := s.(q := s.q[1..]);
            && Count(t.q, id) <= 1 && (s.q[0].body != id ==> Clean(t, id) && Clean(Drop(t, s.q[0].body), id))
            && (s.q[0].body == id ==> Count(t.q, id) == 0 && Clean(Drop(t, id), id))
            && (id in s.list ==> Clean(t, id))
  {
    hide Delete, Listed;
    var j := s.q[0].body;
    ListedDelete(s.list, j, id);
    ListedDelete(Delete(s.list, j), j, id);
  }

  lemma BeginKeepsClean(s: St, j: int, t: int, id: int)
    requires Clean(s, id) && Count(s.q, id) <= 1
    ensures var u := Begin(s, j, t); Clean(u, id) && Count(u.q, id) <= 1
  {
    var n := Msg(t + PROCESS_TIMEOUT_US, j);
    CountPost(s.q, n, id);
    ListedDelete(s.list, id, id);
    NoneCounted(s.q, id);
    assert forall m | m in Post(s.q, n) :: m == n || m in s.q;
    hide Post;
  }

  lemma {:induction false} NoneCounted<T>(q: seq<Msg<T>>, x: T)
    ensures Count(q, x) == 0 <==> forall m | m in q :: m.body != x
  {
    if q != [] {
      NoneCounted(q[1..], x);
    }
  }

  lemma {:induction false} RunKeepsClean(s: St, tb: Table, xs: seq<Input>, id: int)
    requires Clean(s, id) && ListOk(s) && Count(s.q, id) <= 1
    requires forall x | x in xs :: !TimeoutCodeFor(x, id)
    ensures Clean(Run(s, tb, xs), id)
    decreases |xs|
  {
    if xs != [] {
      StepKeepsClean(s, tb, xs[0], id);
      StepKeepsList(s, tb, xs[0]);
      hide Step, Clean, ListOk;
      RunKeepsClean(Step(s, tb, xs[0]), tb, xs[1..], id);
    }
  }

  /** Only the timeout's own code, reported by hichain for this very request, can leave such a message behind. */
  lemma OnlyTimeoutCodesLeaveStale(tb: Table, xs: seq<Input>, id: int)
    requires forall x | x in xs :: !TimeoutCodeFor(x, id)
    ensures !Stale(Run(Initial(), tb, xs), id)
  {
    RunKeepsClean(Initial(), tb, xs, id);
  }

  // ---------- early timeouts over whole runs ----------

  lemma {:induction false} CleanNeverEarly(s: St, tb: Table, xs: seq<Input>, id: int)
    requires Clean(s, id) && ListOk(s) && Count(s.q, id) <= 1
    requires forall x | x in xs :: !TimeoutCodeFor(x, id)
    ensures !EarlyIn(s, tb, xs, id)
    decreases |xs|
  {
    if xs != [] {
      assert s.q != [] ==> s.q[0] in s.q;
      StepKeepsClean(s, tb, xs[0], id);
      StepKeepsList(s, tb, xs[0]);
      hide Step, ListOk, Count;
      CleanNeverEarly(Step(s, tb, xs[0]), tb, xs[1..], id);
    }
  }

  lemma {:induction false} NoCallbackNeverEarly(s: St, tb: Table, xs: seq<Input>, id: int)
    requires !tb.onError
    ensures !EarlyIn(s, tb, xs, id)
    decreases |xs|
  {
    if xs != [] {
      hide Step;
      NoCallbackNeverEarly(Step(s, tb, xs[0]), tb, xs[1..], id);
    }
  }

  /** The failing run: hichain reports the timeout's own code for a request that began at `t`, the request begins
      again at `u`, and the first message, due ten seconds after `t`, ends the second attempt. */
  function ReportedThenBegun(id: int, t: int, u: int): seq<Input> {
    [InBegin(id, t), InError(id, true), InBegin(id, u), InServe(t + PROCESS_TIMEOUT_US)]
  }

  lemma ReportedThenBegunFiresEarly(tb: Table, id: int, t: int, u: int)
    requires tb.onError && t < u <= t + PROCESS_TIMEOUT_US
    ensures EarlyIn(Initial(), tb, ReportedThenBegun(id, t, u), id)
  {
    var xs, m, n := ReportedThenBegun(id, t, u), Msg(t + PROCESS_TIMEOUT_US, id), Msg(u + PROCESS_TIMEOUT_US, id);
    var s1, s3 := St([id], 1, [m], [], map[id := t]), St([id], 1, [m, n], [Error(id)], map[id := u]);
    assert Step(Initial(), tb, xs[0]) == s1;
    var s2 := St([], 0, [m], [Error(id)], map[id := t]);
    assert Step(s1, tb, xs[1]) == s2;
    assert Slot([m], n.time) == 1;
    assert Step(s2, tb, xs[2]) == s3;
    assert FiresEarly(s3, tb, xs[3], id);
    hide Step, FiresEarly;
    EarlyUnfolds(Initial(), tb, xs, id);
    EarlyUnfolds(s1, tb, xs[1..], id);
    EarlyUnfolds(s2, tb, xs[2..], id);
    EarlyUnfolds(s3, tb, xs[3..], id);
    assert xs[1..][1..] == xs[2..] && xs[2..][1..] == xs[3..];
  }

  lemma EarlyUnfolds(s: St, tb: Table, xs: seq<Input>, id: int)
    requires xs != []
    ensures EarlyIn(s, tb, xs, id) <==> FiresEarly(s, tb, xs[0], id) || EarlyIn(Step(s, tb, xs[0]), tb, xs[1..], id)
  {
    hide Step, FiresEarly;
  }

  ghost predicate NeverEarly(tb: Table, timeoutCodes: bool) {
    forall xs, id | Allowed(xs, timeoutCodes) :: !EarlyIn(Initial(), tb, xs, id)
  }

  /** Exactly when no run ever reports a timeout before its time: no error callback is registered, or hichain never
      reports the timeout's own code. */
  lemma NeverEarlyIff(tb: Table, timeoutCodes: bool)
    ensures NeverEarly(tb, timeoutCodes) <==> !tb.onError || !timeoutCodes
  {
    if tb.onError && timeoutCodes {
      ReportedThenBegunFiresEarly(tb, 1, 0, 1);
      assert Allowed(ReportedThenBegun(1, 0, 1), timeoutCodes);
    } else {
      forall xs, id | Allowed(xs, timeoutCodes) ensures !EarlyIn(Initial(), tb, xs, id) {
        if tb.onError {
          CleanNeverEarly(Initial(), tb, xs, id);
        } else {
          NoCallbackNeverEarly(Initial(), tb, xs, id);
        }
      }
    }
  }

  // ---------- as it runs ----------

  class AccountAuthManager {
    const tb: Table
    const looper: MessageQueue<int>
    var list: seq<int>
    var cnt: int
    var calls: seq<Call>
    ghost var begun: map<int, int>

    ghost predicate Valid()
      reads this, looper
    {
      looper.Valid()
    }

    ghost function View(): St
      reads this, looper
    {
      St(list, cnt, looper.list, calls, begun)
    }

    constructor (t: Table)
      ensures Valid() && fresh(looper) && View() == Initial() && tb == t
    {
      tb := t;
      looper := new MessageQueue();
      list, cnt, calls, begun := [], 0, [], map[];
    }

    method IsInstanceExist(id: int) returns (b: bool)
      ensures b <==> id in list
    {
      var i := 0;
      while i < |list|
        invariant 0 <= i <= |list| && id !in list[..i]
      {
        if list[i] == id {
          return true;
        }
        i := i + 1;
      }
      b := false;
    }

    method CreateInstance(id: int, t: int)
      requires Valid()
      modifies this, looper
      ensures Valid() && View() == Begin(old(View()), id, t)
    {
      var b := IsInstanceExist(id);
      if b {
        return;
      }
      list, cnt, begun := [id] + list, cnt + 1, begun[id := t];
      looper.PostMessageAtTime(Msg(t + PROCESS_TIMEOUT_US, id));
    }

    method DeleteInstance(id: int)
      modifies this`list, this`cnt
      ensures View() == Drop(old(View()), id)
    {
      var i := 0;
      while i < |list|
        invariant 0 <= i <= |list| && id !in list[..i]
        invariant list == old(list) && cnt == old(cnt)
        invariant list[..i] + Delete(list[i..], id) == Delete(list, id)
      {
        if list[i] == id {
          list, cnt := list[..i] + list[i + 1..], cnt - 1;
          return;
        }
        assert list[i..][1..] == list[i + 1..];
        i := i + 1;
      }
    }

    method OnFinished(id: int, hasData: bool)
      requires Valid()
      modifies this, looper
      ensures Valid() && View() == Finished(old(View()), tb, id, hasData)
    {
      if !hasData || !tb.onFinish {
        return;
      }
      DeleteInstance(id);
      looper.RemoveMessages(id);
      calls := calls + [Finish(id)];
    }

    method OnError(id: int, timeoutCode: bool, call: Call)
      requires Valid()
      modifies this, looper
      ensures Valid() && View() == Failed(old(View()), tb, id, timeoutCode, call)
    {
      if !tb.onError {
        return;
      }
      DeleteInstance(id);
      if !timeoutCode {
        looper.RemoveMessages(id);
      }
      calls := calls + [call];
    }

    method LoopOnce(now: int)
      requires Valid()
      modifies this, looper
      ensures Valid() && View() == Serve(old(View()), tb, now)
    {
      var due, xs := looper.TakeDue(now);
      if due {
        var b := IsInstanceExist(xs[0]);
        if b {
          OnError(xs[0], true, TimeoutError(xs[0]));
        }
      }
    }
  }
}
