/** Two honest runs: one in which both devices complete and hold the key, so that the agreement theorem speaks
    about something, and one in which the client completes and holds nothing. */
module ApplyKeyExample {
  import opened ApplyKeyStore
  import opened ApplyKeyNego
  import opened ApplyKeyNegoProps
  import opened ApplyKeyAgreement

  const ENV := Env("x", true, true, Okay, 0, 0)
  const BIZ_A := Biz("a", "x", 0)
  const BIZ_B := Biz("b", "x", 0)
  const CLIENT := Who(0, 1, false, BIZ_A, "x")
  const SERVER := Who(0, 1, true, BIZ_B, "")

  function Key(): seq<Byte> {
    seq(D2D_APPLY_KEY_LEN, _ => 0)
  }

  // ---------- the client, step by step ----------

  ghost function Client1(): Node {
    Initial("b").(insts := [Inst(CLIENT, 1, Start, [], false, false, false, true, true)], cnt := 1, nextSerial := 1,
                  timers := [1], sent := [DeviceId(1, BIZ_B)], history := [Created(CLIENT)])
  }

  ghost function Client2(): Node {
    Client1().(insts := [Inst(CLIENT, 1, Start, Key(), true, false, false, true, true)],
               history := [Created(CLIENT), KeyReturned(CLIENT, Key())])
  }

  ghost function Client3(): Node {
    Client2().(insts := [Inst(CLIENT, 1, Start, Key(), true, true, false, true, true)],
               store := map[MapKey(BIZ_A, 0) := Value(Key(), 0, 0, "x")],
               history := Client2().history + [Finished(CLIENT, "x", 0), Stored(CLIENT, "x", 0, Key())])
  }

  ghost function Client4(): Node {
    Client3().(insts := [Inst(CLIENT, 1, Start, Key(), true, true, true, true, true)],
               sent := [DeviceId(1, BIZ_B), CloseAck(1)], results := [Queued(1, true, Okay)],
               history := Client3().history + [AckSeen(CLIENT)])
  }

  ghost function Client5(): Node {
    Client4().(insts := [], cnt := 0, results := [], callbacks := [Called(CLIENT, Success(Key()))])
  }

  lemma ClientSteps()
    ensures Step(Initial("b"), DoGen(1, 1, BIZ_A, "x", true, true, ENV)) == Client1()
    ensures Step(Client1(), DoSessionKey(1, Key())) == Client2()
  {
  }

  lemma ShortSlots()
    ensures |MapKey(BIZ_A, 0)| < KEY_LEN && |MapKey(BIZ_B, 0)| < KEY_LEN
  {
  }

  lemma ClientFinishes()
    ensures Step(Client2(), DoFinished(1, "x", ENV)) == Client3()
  {
    ShortSlots();
    hide MapKey;
  }

  lemma ClientIsAcked()
    ensures Step(Client3(), DoCloseAck(1, ENV)) == Client4()
  {
    hide MapKey;
  }

  lemma ClientIsCalled()
    ensures Step(Client4(), DoResult(0, 0)) == Client5()
  {
    ShortSlots();
    hide MapKey;
  }

  // ---------- the server ----------

  ghost function Server1(): Node {
    Initial("a").(insts := [Inst(SERVER, 2, Unknow, [], false, false, false, false, false)], cnt := 1,
                  nextSerial := 1, timers := [1], history := [Created(SERVER)])
  }

  ghost function Server2(): Node {
    Server1().(insts := [Inst(SERVER, 2, Unknow, Key(), true, false, false, false, false)],
               history := [Created(SERVER), KeyReturned(SERVER, Key())])
  }

  ghost function Server3(): Node {
    Server2().(insts := [Inst(SERVER, 2, Unknow, Key(), true, true, false, false, false)], sent := [CloseAck(1)],
               store := map[MapKey(BIZ_B, 0) := Value(Key(), 0, 0, "x")],
               history := Server2().history + [Finished(SERVER, "x", 0), Stored(SERVER, "x", 0, Key())])
  }

  ghost function Server4(): Node {
    Server3().(insts := [Inst(SERVER, 2, Unknow, Key(), true, true, true, false, false)],
               results := [Queued(1, true, Okay)], history := Server3().history + [AckSeen(SERVER)])
  }

  lemma ServerSteps()
    ensures Step(Initial("a"), DoDeviceId(1, 2, BIZ_B, ENV)) == Server1()
    ensures Step(Server1(), DoSessionKey(1, Key())) == Server2()
  {
  }

  lemma ServerFinishes()
    ensures Step(Server2(), DoFinished(1, "x", ENV)) == Server3()
  {
    ShortSlots();
    hide MapKey;
  }

  lemma ServerIsAcked()
    ensures Step(Server3(), DoCloseAck(1, ENV)) == Server4()
  {
    hide MapKey;
  }

  // ---------- the run ----------

  lemma Onward(s: Pair, m: Move, t: Pair, ms: seq<Move>, agreed: nat -> seq<Byte>)
    requires Allowed(s, m, agreed) && PairStep(s, m) == t && HonestRun(t, ms, agreed)
    ensures HonestRun(s, [m] + ms, agreed) && PairRun(s, [m] + ms) == PairRun(t, ms)
  {
    hide Allowed, PairStep;
    assert ([m] + ms)[1..] == ms;
  }

  ghost predicate Finishes(s: Pair, moves: seq<Move>, t: Pair, agreed: nat -> seq<Byte>) {
    HonestRun(s, moves, agreed) && PairRun(s, moves) == t
  }

  /** Acks and the callback, once both sides have filed the key. */
  lemma SecondHalf() returns (moves: seq<Move>)
    ensures Finishes(Pair(Client3(), Server3()), moves, Pair(Client5(), Server4()), _ => Key())
  {
    ClientIsAcked();
    ServerIsAcked();
    ClientIsCalled();
    var agreed: nat -> seq<Byte> := _ => Key();
    assert CloseAck(1) in Server3().sent && CloseAck(1) in Client4().sent;
    hide Step, MapKey;
    var s1, s2 := Pair(Client4(), Server3()), Pair(Client4(), Server4());
    var m1, m2, m3 := Move(true, DoCloseAck(1, ENV)), Move(false, DoCloseAck(1, ENV)), Move(true, DoResult(0, 0));
    Onward(s2, m3, Pair(Client5(), Server4()), [], agreed);
    Onward(s1, m2, s2, [m3] + [], agreed);
    Onward(Pair(Client3(), Server3()), m1, s1, [m2] + ([m3] + []), agreed);
    moves := [m1] + ([m2] + ([m3] + []));
  }

  lemma FirstHalf(rest: seq<Move>, t: Pair) returns (moves: seq<Move>)
    requires Finishes(Pair(Client2(), Server2()), rest, t, _ => Key())
    ensures Finishes(ApplyKeyAgreement.Start("b", "a"), moves, t, _ => Key())
  {
    ClientSteps();
    ServerSteps();
    var agreed: nat -> seq<Byte> := _ => Key();
    assert DeviceId(1, BIZ_B) in Client1().sent;
    hide Step;
    var s0, s1, s2, s3 := ApplyKeyAgreement.Start("b", "a"), Pair(Client1(), Initial("a")), Pair(Client1(), Server1()),
                          Pair(Client2(), Server1());
    var m1, m2 := Move(true, DoGen(1, 1, BIZ_A, "x", true, true, ENV)), Move(false, DoDeviceId(1, 2, BIZ_B, ENV));
    var m3, m4 := Move(true, DoSessionKey(1, Key())), Move(false, DoSessionKey(1, Key()));
    Onward(s3, m4, Pair(Client2(), Server2()), rest, agreed);
    Onward(s2, m3, s3, [m4] + rest, agreed);
    Onward(s1, m2, s2, [m3] + ([m4] + rest), agreed);
    Onward(s0, m1, s1, [m2] + ([m3] + ([m4] + rest)), agreed);
    moves := [m1] + ([m2] + ([m3] + ([m4] + rest)));
  }

  /** An honest run after which both devices hold the agreed key, both instances have completed by their own
      events, and the requester has been called back with it. */
  lemma BothCanComplete() returns (moves: seq<Move>)
    ensures HonestRun(ApplyKeyAgreement.Start("b", "a"), moves, _ => Key())
    ensures var s := PairRun(ApplyKeyAgreement.Start("b", "a"), moves);
            && OwnComplete(s.a.history, CLIENT) && OwnComplete(s.b.history, SERVER)
            && s.a.callbacks == [Called(CLIENT, Success(Key()))]
            && Get(s.a.store, BIZ_A, 0) == Get(s.b.store, BIZ_B, 0) == Found(Value(Key(), 0, 0, "x"))
  {
    var rest := SecondHalf();
    ServerFinishes();
    ClientFinishes();
    ShortSlots();
    var agreed: nat -> seq<Byte> := _ => Key();
    var s2, s3 := Pair(Client2(), Server3()), Pair(Client3(), Server3());
    var m1, m2 := Move(false, DoFinished(1, "x", ENV)), Move(true, DoFinished(1, "x", ENV));
    hide Step, MapKey;
    Onward(s2, m2, s3, rest, agreed);
    Onward(Pair(Client2(), Server2()), m1, s2, [m2] + rest, agreed);
    moves := FirstHalf([m1] + ([m2] + rest), Pair(Client5(), Server4()));
    Completions();
  }

  lemma Completions()
    ensures OwnComplete(Client5().history, CLIENT) && OwnComplete(Server4().history, SERVER)
  {
    assert KeyReturned(CLIENT, Key()) in Client5().history && Finished(CLIENT, "x", 0) in Client5().history;
    assert KeyReturned(SERVER, Key()) in Server4().history && Finished(SERVER, "x", 0) in Server4().history;
  }

  // ---------- a finish before the session key ----------

  ghost function Early2(): Node {
    Client1().(insts := [Inst(CLIENT, 1, Start, [], false, true, false, true, true)],
               history := [Created(CLIENT), Finished(CLIENT, "x", 0)])
  }

  ghost function Early3(): Node {
    Early2().(insts := [Inst(CLIENT, 1, Start, Key(), true, true, false, true, true)],
              history := Early2().history + [KeyReturned(CLIENT, Key())])
  }

  ghost function Early4(): Node {
    Early3().(insts := [Inst(CLIENT, 1, Start, Key(), true, true, true, true, true)],
              sent := [DeviceId(1, BIZ_B), CloseAck(1)], results := [Queued(1, true, Okay)],
              history := Early3().history + [AckSeen(CLIENT)])
  }

  ghost function Early5(): Node {
    Early4().(insts := [], cnt := 0, results := [])
  }

  lemma EarlyFinishFilesNothing()
    ensures Step(Client1(), DoFinished(1, "x", ENV)) == Early2()
  {
    hide MapKey;
  }

  lemma EarlyKey()
    ensures Step(Early2(), DoSessionKey(1, Key())) == Early3()
  {
  }

  lemma EarlyAck()
    ensures Step(Early3(), DoCloseAck(1, ENV)) == Early4()
  {
  }

  lemma EarlyResult()
    ensures Step(Early4(), DoResult(0, 0)) == Early5()
  {
    hide MapKey;
  }

  lemma EarlyTail() returns (moves: seq<Move>)
    ensures Finishes(Pair(Client1(), Server3()), moves, Pair(Early5(), Server3()), _ => Key())
  {
    EarlyFinishFilesNothing();
    EarlyKey();
    EarlyAck();
    EarlyResult();
    var agreed: nat -> seq<Byte> := _ => Key();
    assert CloseAck(1) in Server3().sent;
    hide Step, MapKey;
    var b := Server3();
    var m1, m2 := Move(true, DoFinished(1, "x", ENV)), Move(true, DoSessionKey(1, Key()));
    var m3, m4 := Move(true, DoCloseAck(1, ENV)), Move(true, DoResult(0, 0));
    Onward(Pair(Early4(), b), m4, Pair(Early5(), b), [], agreed);
    Onward(Pair(Early3(), b), m3, Pair(Early4(), b), [m4] + [], agreed);
    Onward(Pair(Early2(), b), m2, Pair(Early3(), b), [m3] + ([m4] + []), agreed);
    Onward(Pair(Client1(), b), m1, Pair(Early2(), b), [m2] + ([m3] + ([m4] + [])), agreed);
    moves := [m1] + ([m2] + ([m3] + ([m4] + [])));
  }

  /** An honest run in which the client's finish comes before its session key: it completes by its own events and
      the server holds the key, but the client has stored nothing and its success reaches no callback. */
  lemma ClientCanCompleteWithoutKey() returns (moves: seq<Move>)
    ensures HonestRun(ApplyKeyAgreement.Start("b", "a"), moves, _ => Key())
    ensures var s := PairRun(ApplyKeyAgreement.Start("b", "a"), moves);
            && OwnComplete(s.a.history, CLIENT) && s.a.store == map[] && s.a.insts == [] && s.a.callbacks == []
            && Get(s.b.store, BIZ_B, 0) == Found(Value(Key(), 0, 0, "x"))
  {
    var rest := EarlyTail();
    ClientSteps();
    ServerSteps();
    ServerFinishes();
    ShortSlots();
    var agreed: nat -> seq<Byte> := _ => Key();
    assert DeviceId(1, BIZ_B) in Client1().sent;
    hide Step, MapKey;
    var s0, s1, s2, s3 := ApplyKeyAgreement.Start("b", "a"), Pair(Client1(), Initial("a")), Pair(Client1(), Server1()),
                          Pair(Client1(), Server2());
    var m1, m2 := Move(true, DoGen(1, 1, BIZ_A, "x", true, true, ENV)), Move(false, DoDeviceId(1, 2, BIZ_B, ENV));
    var m3, m4 := Move(false, DoSessionKey(1, Key())), Move(false, DoFinished(1, "x", ENV));
    Onward(s3, m4, Pair(Client1(), Server3()), rest, agreed);
    Onward(s2, m3, s3, [m4] + rest, agreed);
    Onward(s1, m2, s2, [m3] + ([m4] + rest), agreed);
    Onward(s0, m1, s1, [m2] + ([m3] + ([m4] + rest)), agreed);
    moves := [m1] + ([m2] + ([m3] + ([m4] + rest)));
    EarlyCompletion();
  }

  lemma EarlyCompletion()
    ensures OwnComplete(Early5().history, CLIENT)
  {
    assert KeyReturned(CLIENT, Key()) in Early5().history && Finished(CLIENT, "x", 0) in Early5().history;
  }
}
