/** The apply-key map of auth_apply_key_manager.c: how a map key is formatted, what an insert,
    a delete and a lookup do, and how the map is saved to and recovered from device storage.
    JSON and hex conversion are taken to be exact inverses; the map is a finite map. */
module ApplyKeyStore {

  type Byte = x: int | 0 <= x < 256

  const D2D_APPLY_KEY_LEN := 32
  const KEY_LEN := 100
  /** 180 days in milliseconds. */
  const DECAY_TIME := 15552000000

  /** The part of RequestBusinessInfo that names a business: the three fields every comparison uses. */
  datatype Biz = Biz(udidHash: string, accountHash: string, kind: int)

  datatype Value = Value(key: seq<Byte>, userId: int, time: nat, accountHash: string)

  type Store = map<string, Value>

  datatype Code =
    | Ok
    | InvalidParam
    | SprintfErr
    | KeyNotFound

  // ---------- formatting "%s_%s_%d_%d" ----------

  function Digit(d: nat): (c: char)
    requires d < 10
  {
    "0123456789"[d]
  }

  function Digits(n: nat): (s: string)
    ensures |s| > 0
  {
    if n < 10 then [Digit(n)] else Digits(n / 10) + [Digit(n % 10)]
  }

  function Decimal(n: int): string {
    if n < 0 then "-" + Digits(-n) else Digits(n)
  }

  function MapKey(b: Biz, userId: int): string {
    b.udidHash + "_" + (b.accountHash + "_" + (Decimal(userId) + "_" + Decimal(b.kind)))
  }

  ghost predicate NoUnderscore(s: string) {
    '_' !in s
  }

  ghost predicate PlainHashes(b: Biz) {
    NoUnderscore(b.udidHash) && NoUnderscore(b.accountHash)
  }

  lemma {:induction false} DigitsAreDigits(n: nat)
    ensures forall c | c in Digits(n) :: c in "0123456789"
  {
    if n >= 10 {
      DigitsAreDigits(n / 10);
    }
  }

  lemma {:induction false} DigitsInjective(m: nat, n: nat)
    requires Digits(m) == Digits(n)
    ensures m == n
  {
    if m < 10 || n < 10 {
    } else {
      var a, b := Digits(m / 10), Digits(n / 10);
      assert a == Digits(m)[..|Digits(m)| - 1] == Digits(n)[..|Digits(n)| - 1] == b;
      DigitsInjective(m / 10, n / 10);
      assert Digit(m % 10) == Digits(m)[|a|] == Digits(n)[|b|] == Digit(n % 10);
    }
  }

  lemma DecimalSign(n: int)
    ensures |Decimal(n)| > 0
    ensures Decimal(n)[0] == '-' <==> n < 0
  {
    if n >= 0 {
      DigitsAreDigits(n);
      assert Decimal(n)[0] in Digits(n);
    }
  }

  lemma DecimalInjective(m: int, n: int)
    requires Decimal(m) == Decimal(n)
    ensures m == n
  {
    DecimalSign(m);
    DecimalSign(n);
    if m < 0 {
      assert Digits(-m) == Decimal(m)[1..] == Decimal(n)[1..] == Digits(-n);
      DigitsInjective(-m, -n);
    } else {
      DigitsInjective(m, n);
    }
  }

  lemma DecimalPlain(n: int)
    ensures NoUnderscore(Decimal(n))
  {
    DigitsAreDigits(if n < 0 then -n else n);
  }

  /** The number a string of decimal digits stands for. */
  ghost function Reading(s: string): int {
    if s == [] then 0 else 10 * Reading(s[..|s| - 1]) + (s[|s| - 1] as int - '0' as int)
  }

  /** The digits are those of the number, and zero does not lead them. */
  lemma {:induction false} DigitsRead(n: nat)
    ensures Reading(Digits(n)) == n
    ensures n > 0 ==> Digits(n)[0] != '0'
  {
    if n < 10 {
      assert Digits(n)[..0] == [];
    } else {
      DigitsRead(n / 10);
      assert Digits(n)[..|Digits(n)| - 1] == Digits(n / 10);
    }
  }

  /** What "%d" prints: the digits of the number, behind a minus sign if it is negative. */
  lemma DecimalReads(n: int)
    ensures var s := Decimal(n);
            if n < 0 then s[0] == '-' && Reading(s[1..]) == -n && s[1] != '0'
            else Reading(s) == n && (n > 0 ==> s[0] != '0')
  {
    DigitsRead(if n < 0 then -n else n);
    if n < 0 {
      assert Decimal(n)[1..] == Digits(-n);
    }
  }

  /** The first underscore splits a formatted key in only one way. */
  lemma SplitAtUnderscore(x: string, y: string, x': string, y': string)
    requires NoUnderscore(x) && NoUnderscore(x')
    requires x + "_" + y == x' + "_" + y'
    ensures x == x' && y == y'
  {
    var s, s' := x + "_" + y, x' + "_" + y';
    assert s[|x|] == '_' && s'[|x'|] == '_';
    assert forall i | 0 <= i < |x| :: s[i] == x[i] && x[i] in x;
    assert forall i | 0 <= i < |x'| :: s'[i] == x'[i] && x'[i] in x';
    assert x == s[..|x|] == s'[..|x|] == x';
    assert y == s[|x| + 1..] == s'[|x| + 1..] == y';
  }

  /** Two businesses share a map slot only if they are the same business of the same user. */
  lemma MapKeyInjective(b: Biz, user: int, b': Biz, user': int)
    requires PlainHashes(b) && PlainHashes(b')
    ensures MapKey(b, user) == MapKey(b', user') <==> b == b' && user == user'
  {
    if MapKey(b, user) == MapKey(b', user') {
      var t1, t1' := Decimal(user) + "_" + Decimal(b.kind), Decimal(user') + "_" + Decimal(b'.kind);
      var t2, t2' := b.accountHash + "_" + t1, b'.accountHash + "_" + t1';
      assert MapKey(b, user) == b.udidHash + "_" + t2;
      assert MapKey(b', user') == b'.udidHash + "_" + t2';
      SplitAtUnderscore(b.udidHash, t2, b'.udidHash, t2');
      SplitAtUnderscore(b.accountHash, t1, b'.accountHash, t1');
      DecimalPlain(user);
      DecimalPlain(user');
      SplitAtUnderscore(Decimal(user), Decimal(b.kind), Decimal(user'), Decimal(b'.kind));
      DecimalInjective(user, user');
      DecimalInjective(b.kind, b'.kind);
    }
  }

  /** A slot name is its four fields between three underscores, in this order. */
  lemma MapKeyFields(b: Biz, user: int)
    requires PlainHashes(b)
    ensures var k := MapKey(b, user);
            var i, j := |b.udidHash|, |b.udidHash| + 1 + |b.accountHash|;
            var l := j + 1 + |Decimal(user)|;
            && l < |k| && k[i] == k[j] == k[l] == '_'
            && (forall c | 0 <= c < |k| && k[c] == '_' :: c == i || c == j || c == l)
            && k[..i] == b.udidHash && k[i + 1..j] == b.accountHash
            && k[j + 1..l] == Decimal(user) && k[l + 1..] == Decimal(b.kind)
  {
    DecimalPlain(user);
    DecimalPlain(b.kind);
    var d, e := Decimal(user), Decimal(b.kind);
    hide Decimal;
    FieldsAt(b.udidHash, b.accountHash, d, e);
  }

  lemma FieldsAt(x: string, y: string, d: string, e: string)
    requires NoUnderscore(x) && NoUnderscore(y) && NoUnderscore(d) && NoUnderscore(e)
    ensures var k := x + "_" + (y + "_" + (d + "_" + e));
            var i, j := |x|, |x| + 1 + |y|;
            var l := j + 1 + |d|;
            && l < |k| && k[i] == k[j] == k[l] == '_'
            && (forall c | 0 <= c < |k| && k[c] == '_' :: c == i || c == j || c == l)
            && k[..i] == x && k[i + 1..j] == y && k[j + 1..l] == d && k[l + 1..] == e
  {
    var k := x + "_" + (y + "_" + (d + "_" + e));
    var i, j := |x|, |x| + 1 + |y|;
    var l := j + 1 + |d|;
    assert k[..i] == x && k[i + 1..j] == y && k[j + 1..l] == d && k[l + 1..] == e;
    forall c | 0 <= c < |k| && c != i && c != j && c != l ensures k[c] != '_' {
      if c < i {
        assert k[c] == x[c] && x[c] in x;
      } else if c < j {
        assert k[c] == y[c - i - 1] && y[c - i - 1] in y;
      } else if c < l {
        assert k[c] == d[c - j - 1] && d[c - j - 1] in d;
      } else {
        assert k[c] == e[c - l - 1] && e[c - l - 1] in e;
      }
    }
  }

  /** Without the hash restriction two businesses can collide. */
  lemma MapKeyCollides()
    ensures Biz("a_b", "c", 0) != Biz("a", "b_c", 0)
    ensures MapKey(Biz("a_b", "c", 0), 1) == MapKey(Biz("a", "b_c", 0), 1)
  {
    var d := Decimal(1) + "_" + Decimal(0);
    assert "a_b" + "_" + ("c" + "_" + d) == "a" + "_" + ("b_c" + "_" + d);
  }

  // ---------- one operation on the map ----------

  /** AuthInsertApplyKey. */
  function Insert(s: Store, b: Biz, user: int, key: seq<Byte>, time: nat, acct: string): (r: (Store, Code)) {
    if |key| != D2D_APPLY_KEY_LEN then (s, InvalidParam)
    else if |MapKey(b, user)| >= KEY_LEN then (s, SprintfErr)
    else (s[MapKey(b, user) := Value(key, user, time, acct)], Ok)
  }

  /** AuthDeleteApplyKey. */
  function Delete(s: Store, b: Biz, user: int): (r: (Store, Code)) {
    if |MapKey(b, user)| >= KEY_LEN then (s, SprintfErr)
    else if MapKey(b, user) !in s then (s, InvalidParam)
    else (s - {MapKey(b, user)}, Ok)
  }

  datatype Found = Found(value: Value) | Missing(code: Code)

  /** GetApplyKeyByBusinessInfo. */
  function Get(s: Store, b: Biz, user: int): (r: Found) {
    if |MapKey(b, user)| >= KEY_LEN then Missing(SprintfErr)
    else if MapKey(b, user) in s then Found(s[MapKey(b, user)])
    else Missing(KeyNotFound)
  }

  /** An insert is accepted exactly for a 32-byte key and a slot name that fits, a delete exactly if a lookup finds
      something. A lookup after one sees exactly that operation's effect on its own slot, and nothing of an operation
      on another business or another user. */
  lemma OperationsAreSeparate(s: Store, b: Biz, user: int, key: seq<Byte>, time: nat, acct: string,
                              b': Biz, user': int)
    requires PlainHashes(b) && PlainHashes(b')
    ensures Insert(s, b, user, key, time, acct).1 ==
              if |key| != 32 then InvalidParam else if |MapKey(b, user)| >= 100 then SprintfErr else Ok
    ensures Delete(s, b, user).1 ==
              match Get(s, b, user)
              case Found(_) => Ok
              case Missing(code) => if code == SprintfErr then SprintfErr else InvalidParam
    ensures Insert(s, b, user, key, time, acct).1.Ok? ==>
              Get(Insert(s, b, user, key, time, acct).0, b', user')
              == if b == b' && user == user' then Found(Value(key, user, time, acct)) else Get(s, b', user')
    ensures !Insert(s, b, user, key, time, acct).1.Ok? ==> Insert(s, b, user, key, time, acct).0 == s
    ensures Delete(s, b, user).1.Ok? ==>
              Get(Delete(s, b, user).0, b', user')
              == if b == b' && user == user' then Missing(KeyNotFound) else Get(s, b', user')
    ensures !Delete(s, b, user).1.Ok? ==> Delete(s, b, user).0 == s
  {
    MapKeyInjective(b, user, b', user');
  }

  /** AuthIsApplyKeyExpired: a clock that went backwards counts as expiry. */
  predicate Expired(time: nat, now: nat) {
    now < time || now - time > DECAY_TIME
  }

  // ---------- saving and recovering ----------

  /** One element of the saved array; `Broken` is one that AuthUnpackApplyKey refuses. */
  datatype Item = Entry(mapKey: string, value: Value) | Broken

  /** The saved form of a map: every entry once, in whatever order the iterator gives. */
  ghost predicate IsSavedForm(items: seq<Item>, s: Store) {
    && (forall i | 0 <= i < |items| :: items[i].Entry? && items[i].mapKey in s && items[i].value == s[items[i].mapKey])
    && (forall k | k in s :: Entry(k, s[k]) in items)
    && (forall i, j | 0 <= i < j < |items| :: items[i] != items[j])
  }

  /** AuthPraseApplyKey as a fold: replay the unexpired items, stop at the first broken one. */
  function Replay(s: Store, items: seq<Item>, now: nat): (r: (Store, bool))
    decreases |items|
  {
    if items == [] then (s, true)
    else if items[0].Broken? then (s, false)
    else if Expired(items[0].value.time, now) then Replay(s, items[1..], now)
    else Replay(s[items[0].mapKey := items[0].value], items[1..], now)
  }

  /** What a replay of well-formed items leaves: an item's slot holds that item, all else is kept. */
  lemma {:induction false} ReplayWellFormed(s: Store, items: seq<Item>, src: Store, now: nat)
    requires forall i | 0 <= i < |items| ::
               items[i].Entry? && items[i].mapKey in src && items[i].value == src[items[i].mapKey]
    ensures Replay(s, items, now).1
    ensures forall k :: k in Replay(s, items, now).0 <==>
              k in s || (k in src && Entry(k, src[k]) in items && !Expired(src[k].time, now))
    ensures forall k | k in Replay(s, items, now).0 ::
              Replay(s, items, now).0[k] ==
              if k in src && Entry(k, src[k]) in items && !Expired(src[k].time, now) then src[k] else s[k]
    decreases |items|
  {
    if items != [] {
      var it := items[0];
      var s' := if Expired(it.value.time, now) then s else s[it.mapKey := it.value];
      ReplayWellFormed(s', items[1..], src, now);
      assert items == [it] + items[1..];
      assert it == Entry(it.mapKey, src[it.mapKey]);
    }
  }

  /** Save, restart with an empty map, recover: exactly the entries that were made at most 180 days ago, and not in
      the future, come back, each with its value. */
  lemma SaveThenRecover(s: Store, items: seq<Item>, now: nat)
    requires IsSavedForm(items, s)
    ensures var (t, ok) := Replay(map[], items, now);
            && ok
            && (forall k :: k in t <==> k in s && s[k].time <= now <= s[k].time + 15552000000)
            && (forall k | k in t :: t[k] == s[k])
  {
    ReplayWellFormed(map[], items, s, now);
  }

  /** A broken element keeps what was replayed before it and reports failure. */
  lemma {:induction false} ReplayStopsAtBroken(s: Store, good: seq<Item>, rest: seq<Item>, now: nat)
    requires forall i | 0 <= i < |good| :: good[i].Entry?
    ensures Replay(s, good + [Broken] + rest, now) == (Replay(s, good, now).0, false)
    decreases |good|
  {
    var all := good + [Broken] + rest;
    if good != [] {
      assert all[1..] == good[1..] + [Broken] + rest;
      var s' := if Expired(good[0].value.time, now) then s else s[good[0].mapKey := good[0].value];
      ReplayStopsAtBroken(s', good[1..], rest, now);
    }
  }

  /** The module state of auth_apply_key_manager.c. `file` is the packed data in device storage. */
  class ApplyKeyManager {
    var entries: Store
    var isRecovered: bool
    var hasFile: bool
    var file: seq<Item>

    ghost predicate Saved()
      reads this
    {
      hasFile && IsSavedForm(file, entries)
    }

    constructor ()
      ensures entries == map[] && !isRecovered && !hasFile
    {
      entries := map[];
      isRecovered := false;
      hasFile := false;
      file := [];
    }

    /** PackAllApplyKey and AuthAsyncSaveApplyMapFile. */
    method SaveAll()
      modifies this
      ensures Saved()
      ensures entries == old(entries) && isRecovered == old(isRecovered)
    {
      var left := entries.Keys;
      var items: seq<Item> := [];
      while left != {}
        invariant left <= entries.Keys
        invariant entries == old(entries) && isRecovered == old(isRecovered)
        invariant forall i | 0 <= i < |items| ::
                    items[i].Entry? && items[i].mapKey in entries && items[i].mapKey !in left
                    && items[i].value == entries[items[i].mapKey]
        invariant forall k | k in entries && k !in left :: Entry(k, entries[k]) in items
        invariant forall i, j | 0 <= i < j < |items| :: items[i] != items[j]
        decreases left
      {
        var k :| k in left;
        items := items + [Entry(k, entries[k])];
        left := left - {k};
      }
      file := items;
      hasFile := true;
    }

    /** AuthInsertApplyKey with the save that follows a successful insert. */
    method InsertKey(b: Biz, user: int, key: seq<Byte>, time: nat, acct: string) returns (code: Code)
      modifies this
      ensures (entries, code) == Insert(old(entries), b, user, key, time, acct)
      ensures if code.Ok? then Saved() else hasFile == old(hasFile) && file == old(file)
      ensures isRecovered == old(isRecovered)
    {
      if |key| != D2D_APPLY_KEY_LEN {
        return InvalidParam;
      }
      if |MapKey(b, user)| >= KEY_LEN {
        return SprintfErr;
      }
      entries := entries[MapKey(b, user) := Value(key, user, time, acct)];
      SaveAll();
      code := Ok;
    }

    /** AuthDeleteApplyKey with its save. */
    method DeleteKey(b: Biz, user: int) returns (code: Code)
      modifies this
      ensures (entries, code) == Delete(old(entries), b, user)
      ensures if code.Ok? then Saved() else hasFile == old(hasFile) && file == old(file)
      ensures isRecovered == old(isRecovered)
    {
      if |MapKey(b, user)| >= KEY_LEN {
        return SprintfErr;
      }
      if MapKey(b, user) !in entries {
        return InvalidParam;
      }
      entries := entries - {MapKey(b, user)};
      SaveAll();
      code := Ok;
    }

    /** AuthClearAccountApplyKey, also run on account logout and on a user switch. */
    method Clear()
      modifies this
      ensures entries == map[] && !hasFile && isRecovered == old(isRecovered)
    {
      entries := map[];
      hasFile := false;
    }

    /** AuthRecoveryApplyKey: replays the file once per process, and drops the file if it does not parse. */
    method Recover(now: nat)
      modifies this
      ensures old(isRecovered) || !old(hasFile) ==>
                entries == old(entries) && isRecovered == old(isRecovered) && hasFile == old(hasFile)
      ensures !old(isRecovered) && old(hasFile) ==>
                && isRecovered
                && entries == Replay(old(entries), old(file), now).0
                && hasFile == Replay(old(entries), old(file), now).1
      ensures file == old(file)
    {
      if isRecovered || !hasFile {
        return;
      }
      isRecovered := true;
      var i := 0;
      var res := true;
      while i < |file|
        invariant 0 <= i <= |file|
        invariant file == old(file) && hasFile && isRecovered && res
        invariant Replay(entries, file[i..], now) == Replay(old(entries), old(file), now)
      {
        var item := file[i];
        assert file[i..][1..] == file[i + 1..];
        if item.Broken? {
          res := false;
          break;
        }
        if !Expired(item.value.time, now) {
          entries := entries[item.mapKey := item.value];
        }
        i := i + 1;
      }
      if !res {
        hasFile := false;
      }
    }
  }

  /** A whole restart through the class: insert, restart, recover, look up. */
  method InsertRestartRecover(b: Biz, user: int, key: seq<Byte>, time: nat, acct: string, now: nat)
    returns (found: Found)
    ensures found == if |key| == 32 && |MapKey(b, user)| < 100 && time <= now <= time + 15552000000
                     then Found(Value(key, user, time, acct))
                     else Missing(if |MapKey(b, user)| >= 100 then SprintfErr else KeyNotFound)
  {
    var before := new ApplyKeyManager();
    var code := before.InsertKey(b, user, key, time, acct);
    var after := new ApplyKeyManager();
    after.hasFile := before.hasFile;
    after.file := before.file;
    if code.Ok? {
      SaveThenRecover(before.entries, before.file, now);
    }
    after.Recover(now);
    found := Get(after.entries, b, user);
  }
}
