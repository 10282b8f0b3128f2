/** Session-key slots of access-control profiles: written under one split on side and role, read under
    another. */
module AclSlots {
  const DEFAULT_ACCOUNT_UID := "ohosAnonymousUid"
  const DEFAULT_USER_KEY_INDEX := -1
  const TWO32 := 0x1_0000_0000

  datatype End = End(udid: string, account: string, user: int, token: int)

  datatype Acl = Acl(source: End, sink: End, isServer: bool)

  datatype Slot = Slot(keyId: int, time: nat)

  datatype BindType = SAME_ACCOUNT | SHARE | OTHER_TYPE
  datatype BindLevel = USER | OTHER_LEVEL

  datatype Profile = Profile(accesser: End, accessee: End, accesserKey: Slot, accesseeKey: Slot,
                             bindType: BindType, bindLevel: BindLevel)

  /** The three comparisons a lookup can use. */
  datatype Kind = SameAccount | UserLevel | DiffAccount

  datatype Ret = OK | ACL_NOT_FOUND
  datatype UpdateResult = ACL_IS_EMPTY | ACL_NOT_MATCH | ACL_SUCC

  // ---------- comparison ----------

  /** Token ids are compared as int32. */
  predicate SameToken(x: int, y: int) {
    x % TWO32 == y % TWO32
  }

  /** MapAssetAclFields: which end of the ACL stands for the accesser. */
  function Mapped(acl: Acl, isSameSide: bool): (End, End) {
    if isSameSide then (acl.source, acl.sink) else (acl.sink, acl.source)
  }

  predicate CompareFields(p: Profile, acl: Acl, isSameSide: bool, byToken: bool, byAccount: bool) {
    var (src, sink) := Mapped(acl, isSameSide);
    && p.accesser.udid == src.udid && p.accessee.udid == sink.udid
    && p.accesser.user == src.user && p.accessee.user == sink.user
    && (byToken ==> SameToken(p.accesser.token, src.token) && SameToken(p.accessee.token, sink.token))
    && (byAccount ==>
          && p.accesser.account != DEFAULT_ACCOUNT_UID && p.accessee.account != DEFAULT_ACCOUNT_UID
          && p.accesser.account == src.account && p.accessee.account == sink.account)
  }

  predicate Compare(kind: Kind, p: Profile, acl: Acl, isSameSide: bool) {
    match kind
    case SameAccount => p.bindType == SAME_ACCOUNT && CompareFields(p, acl, isSameSide, false, true)
    case UserLevel =>
      && p.bindType != SAME_ACCOUNT && p.bindType != SHARE && p.bindLevel == USER
      && CompareFields(p, acl, isSameSide, false, false)
    case DiffAccount =>
      && p.bindType != SAME_ACCOUNT && p.bindType != SHARE && p.bindLevel != USER
      && CompareFields(p, acl, isSameSide, true, false)
  }

  /** CompareAssetAllAcl. */
  predicate CompareAll(p: Profile, acl: Acl, isSameSide: bool, isSameAccount: bool) {
    if isSameAccount then Compare(SameAccount, p, acl, isSameSide)
    else Compare(UserLevel, p, acl, isSameSide) || Compare(DiffAccount, p, acl, isSameSide)
  }

  predicate MatchesEither(p: Profile, acl: Acl, isSameAccount: bool) {
    CompareAll(p, acl, true, isSameAccount) || CompareAll(p, acl, false, isSameAccount)
  }

  predicate Found(kind: Kind, p: Profile, acl: Acl) {
    Compare(kind, p, acl, true) || Compare(kind, p, acl, false)
  }

  // ---------- writing ----------

  function Written(p: Profile, acl: Acl, isSameAccount: bool, slot: Slot): Profile {
    var same, swapped := CompareAll(p, acl, true, isSameAccount), CompareAll(p, acl, false, isSameAccount);
    if (same && acl.isServer) || (swapped && !acl.isServer) then p.(accesserKey := slot)
    else if (same && !acl.isServer) || (swapped && acl.isServer) then p.(accesseeKey := slot)
    else p
  }

  function Updated(ps: seq<Profile>, acl: Acl, isSameAccount: bool, slot: Slot): (qs: seq<Profile>)
    ensures |qs| == |ps|
    ensures forall i | 0 <= i < |ps| :: qs[i] == Written(ps[i], acl, isSameAccount, slot)
  {
    if ps == [] then [] else [Written(ps[0], acl, isSameAccount, slot)] + Updated(ps[1..], acl, isSameAccount, slot)
  }

  // ---------- reading ----------

  function Find(ps: seq<Profile>, acl: Acl, kind: Kind): (i: nat)
    ensures i <= |ps| && (i < |ps| ==> Found(kind, ps[i], acl))
    ensures forall j | 0 <= j < i :: !Found(kind, ps[j], acl)
  {
    if ps == [] || Found(kind, ps[0], acl) then 0 else 1 + Find(ps[1..], acl, kind)
  }

  /** GetLocalUkIdFromAccess; `was` is what the caller's variables held. */
  function LocalSlot(p: Profile, acl: Acl, was: Slot): Slot {
    var local := if acl.isServer then acl.source.udid else acl.sink.udid;
    if p.accesser.udid == local then p.accesserKey
    else if p.accessee.udid == local then p.accesseeKey
    else was
  }

  function Cleared(p: Profile): Profile {
    p.(accesserKey := p.accesserKey.(keyId := DEFAULT_USER_KEY_INDEX),
       accesseeKey := p.accesseeKey.(keyId := DEFAULT_USER_KEY_INDEX))
  }

  /** GetAccessUkIdByCompare; `alive` says whether a key of that time is still usable. */
  function Lookup(ps: seq<Profile>, acl: Acl, kind: Kind, was: Slot, alive: nat -> bool): (Ret, Slot, seq<Profile>) {
    var i := Find(ps, acl, kind);
    if i == |ps| then (ACL_NOT_FOUND, was, ps)
    else
      var slot := LocalSlot(ps[i], acl, was);
      if alive(slot.time) then (OK, slot, ps)
      else (OK, slot.(keyId := DEFAULT_USER_KEY_INDEX), ps[i := Cleared(ps[i])])
  }

  // ---------- what holds ----------

  function Swap(acl: Acl): Acl {
    acl.(source := acl.sink, sink := acl.source)
  }

  /** The swapped comparison is the same-side comparison of the swapped ACL. */
  lemma SwappedCompare(kind: Kind, p: Profile, acl: Acl, isSameSide: bool)
    ensures Compare(kind, p, acl, !isSameSide) == Compare(kind, p, Swap(acl), isSameSide)
  {
  }

  predicate Fits(kind: Kind, p: Profile) {
    match kind
    case SameAccount => p.bindType == SAME_ACCOUNT
    case UserLevel => p.bindType == OTHER_TYPE && p.bindLevel == USER
    case DiffAccount => p.bindType == OTHER_TYPE && p.bindLevel == OTHER_LEVEL
  }

  /** Two ends a comparison of the kind cannot tell apart. */
  predicate Alike(kind: Kind, e: End, f: End) {
    && e.udid == f.udid && e.user == f.user
    && (kind == SameAccount ==> e.account == f.account)
    && (kind == DiffAccount ==> SameToken(e.token, f.token))
  }

  predicate Named(p: Profile) {
    p.accesser.account != "ohosAnonymousUid" && p.accessee.account != "ohosAnonymousUid"
  }

  /** What a comparison means: the profile is of the kind, its accesser is alike the end of the ACL that stands for it
      and its accessee alike the other one; for one account both accounts are real ones. No other field counts. */
  lemma CompareMeans(kind: Kind, p: Profile, acl: Acl)
    ensures Compare(kind, p, acl, true) <==>
              && Fits(kind, p) && Alike(kind, p.accesser, acl.source) && Alike(kind, p.accessee, acl.sink)
              && (kind == SameAccount ==> Named(p))
    ensures Compare(kind, p, acl, false) <==>
              && Fits(kind, p) && Alike(kind, p.accesser, acl.sink) && Alike(kind, p.accessee, acl.source)
              && (kind == SameAccount ==> Named(p))
  {
  }

  /** Two token ids are the same exactly if they differ by a multiple of 2^32. */
  lemma SameTokenMeans(x: int, y: int)
    ensures SameToken(x, y) <==> exists k :: x == y + k * 0x1_0000_0000
  {
    if SameToken(x, y) {
      assert x == y + (x / TWO32 - y / TWO32) * 0x1_0000_0000;
    }
    if k :| x == y + k * 0x1_0000_0000 {
      assert x % TWO32 == y % TWO32;
    }
  }

  /** The profile of the kind made of the ACL's own two ends, in either orientation. */
  predicate IsOwn(kind: Kind, p: Profile, acl: Acl, isSameSide: bool) {
    && Fits(kind, p) && (kind == SameAccount ==> Named(p))
    && (if isSameSide then p.accesser == acl.source && p.accessee == acl.sink
        else p.accesser == acl.sink && p.accessee == acl.source)
  }

  /** A list that holds such a profile always has a match: a lookup succeeds, and an update of the class matches that
      profile and, for two devices, writes the slot of the local end and no other. The local end is the source on the
      server and the sink on the client. */
  lemma OwnProfileIsFound(ps: seq<Profile>, acl: Acl, kind: Kind, i: nat, isSameSide: bool, slot: Slot, was: Slot,
                          alive: nat -> bool)
    requires i < |ps| && IsOwn(kind, ps[i], acl, isSameSide)
    ensures Lookup(ps, acl, kind, was, alive).0 == OK
    ensures MatchesEither(ps[i], acl, kind == SameAccount)
    ensures acl.source.udid != acl.sink.udid ==>
              Updated(ps, acl, kind == SameAccount, slot)[i] ==
                (if isSameSide == acl.isServer then ps[i].(accesserKey := slot) else ps[i].(accesseeKey := slot))
  {
    CompareMeans(kind, ps[i], acl);
    CompareMeans(UserLevel, ps[i], acl);
    CompareMeans(DiffAccount, ps[i], acl);
    assert Found(kind, ps[i], acl);
    hide Compare, Find, Updated;
  }

  /** What a lookup does to the list: nothing unless it found a profile with a key that is no longer usable; then
      both key ids of that profile are cleared and everything else stays, times included. */
  lemma LookupClears(ps: seq<Profile>, acl: Acl, kind: Kind, was: Slot, alive: nat -> bool)
    ensures var (ret, slot, qs) := Lookup(ps, acl, kind, was, alive);
            var i := Find(ps, acl, kind);
            && (ret == OK <==> exists j :: 0 <= j < |ps| && Found(kind, ps[j], acl))
            && (ret != OK ==> slot == was && qs == ps)
            && (ret == OK && alive(slot.time) ==> qs == ps)
            && (ret == OK && !alive(slot.time) ==>
                  && slot.keyId == -1
                  && |qs| == |ps| && (forall j | 0 <= j < |ps| && j != i :: qs[j] == ps[j])
                  && qs[i].accesserKey == Slot(-1, ps[i].accesserKey.time)
                  && qs[i].accesseeKey == Slot(-1, ps[i].accesseeKey.time)
                  && qs[i].accesser == ps[i].accesser && qs[i].accessee == ps[i].accessee
                  && qs[i].bindType == ps[i].bindType && qs[i].bindLevel == ps[i].bindLevel)
  {
    hide Found;
  }

  /** Describing the pair from the other end and in the other role changes nothing: not what is written, not
      what is found, not what is read. */
  lemma OtherEndAgrees(ps: seq<Profile>, acl: Acl, isSameAccount: bool, slot: Slot, kind: Kind, was: Slot,
                       alive: nat -> bool)
    ensures var other := Swap(acl).(isServer := !acl.isServer);
            && Updated(ps, other, isSameAccount, slot) == Updated(ps, acl, isSameAccount, slot)
            && Lookup(ps, other, kind, was, alive) == Lookup(ps, acl, kind, was, alive)
  {
    var other := Swap(acl).(isServer := !acl.isServer);
    forall p: Profile
      ensures Written(p, other, isSameAccount, slot) == Written(p, acl, isSameAccount, slot)
      ensures Found(kind, p, other) == Found(kind, p, acl)
    {
      forall k, side ensures Compare(k, p, other, side) == Compare(k, p, acl, !side) {
        SwappedCompare(k, p, acl, !side);
      }
    }
    FindAgrees(ps, ps, acl, other, kind);
  }

  lemma {:induction false} FindAgrees(ps: seq<Profile>, qs: seq<Profile>, acl: Acl, other: Acl, kind: Kind)
    requires |ps| == |qs|
    requires forall i | 0 <= i < |ps| :: Found(kind, ps[i], acl) == Found(kind, qs[i], other)
    ensures Find(ps, acl, kind) == Find(qs, other, kind)
  {
    if ps != [] {
      FindAgrees(ps[1..], qs[1..], acl, other, kind);
    }
  }

  predicate InClass(kind: Kind, isSameAccount: bool) {
    isSameAccount <==> kind == SameAccount
  }

  /** A profile a lookup of the class finds was written, in the slot of the local side. */
  lemma WrittenIsRead(p: Profile, acl: Acl, isSameAccount: bool, slot: Slot, kind: Kind, was: Slot)
    requires acl.source.udid != acl.sink.udid && InClass(kind, isSameAccount) && Found(kind, p, acl)
    ensures LocalSlot(Written(p, acl, isSameAccount, slot), acl, was) == slot
  {
  }

  /** Slot agreement: for distinct devices, any profile list, both orientations and both roles, a lookup of the
      class that was written finds the profile it would have found before and reads the key id and time just
      written; only expiry can turn the key id into the default one. */
  lemma SlotAgreement(ps: seq<Profile>, acl: Acl, isSameAccount: bool, slot: Slot, kind: Kind, was: Slot,
                      alive: nat -> bool)
    requires acl.source.udid != acl.sink.udid && InClass(kind, isSameAccount)
    ensures ReadsWritten(ps, acl, isSameAccount, slot, kind, was, alive)
  {
    forall p | Found(kind, p, acl) ensures LocalSlot(Written(p, acl, isSameAccount, slot), acl, was) == slot {
      WrittenIsRead(p, acl, isSameAccount, slot, kind, was);
    }
    ProfilesDecide(ps, acl, isSameAccount, slot, kind, was, alive);
  }

  /** What holds of every single profile holds of lookups in every list. */
  lemma ProfilesDecide(ps: seq<Profile>, acl: Acl, isSameAccount: bool, slot: Slot, kind: Kind, was: Slot,
                       alive: nat -> bool)
    requires forall p | Found(kind, p, acl) :: LocalSlot(Written(p, acl, isSameAccount, slot), acl, was) == slot
    ensures ReadsWritten(ps, acl, isSameAccount, slot, kind, was, alive)
  {
    var qs := Updated(ps, acl, isSameAccount, slot);
    forall j | 0 <= j < |ps| ensures Found(kind, qs[j], acl) == Found(kind, ps[j], acl) {
      WrittenIsFound(ps[j], acl, isSameAccount, slot, kind);
    }
    hide Found, Written, LocalSlot, Updated;
    FindAgrees(qs, ps, acl, acl, kind);
    hide Find;
  }

  /** Comparisons do not look at the slots. */
  lemma WrittenIsFound(p: Profile, acl: Acl, isSameAccount: bool, slot: Slot, kind: Kind)
    ensures Found(kind, Written(p, acl, isSameAccount, slot), acl) == Found(kind, p, acl)
  {
    UpdateFrame(p, acl, isSameAccount, slot);
    hide Written;
  }

  /** An update touches one slot of the profiles of its class and nothing else. */
  lemma UpdateFrame(p: Profile, acl: Acl, isSameAccount: bool, slot: Slot)
    ensures var q := Written(p, acl, isSameAccount, slot);
            && q == p.(accesserKey := q.accesserKey, accesseeKey := q.accesseeKey)
            && (q.accesserKey == p.accesserKey || q.accesseeKey == p.accesseeKey)
            && (q != p ==> exists kind :: InClass(kind, isSameAccount) && Found(kind, p, acl))
  {
    if Written(p, acl, isSameAccount, slot) != p {
      var kind := if isSameAccount then SameAccount else if p.bindLevel == USER then UserLevel else DiffAccount;
      assert InClass(kind, isSameAccount) && Found(kind, p, acl);
    }
  }

  // ---------- when both ends are one device ----------

  /** After an update a lookup of the class finds the profile it would have found before and reads what was
      written, but for expiry. */
  predicate ReadsWritten(ps: seq<Profile>, acl: Acl, isSameAccount: bool, slot: Slot, kind: Kind, was: Slot,
                         alive: nat -> bool) {
    var qs := Updated(ps, acl, isSameAccount, slot);
    var i := Find(qs, acl, kind);
    && i == Find(ps, acl, kind)
    && (i < |qs| ==>
          && LocalSlot(qs[i], acl, was) == slot
          && Lookup(qs, acl, kind, was, alive).0 == OK
          && Lookup(qs, acl, kind, was, alive).1 ==
               (if alive(slot.time) then slot else slot.(keyId := DEFAULT_USER_KEY_INDEX)))
  }

  ghost predicate AlwaysAgrees(acl: Acl, isSameAccount: bool) {
    forall ps, slot, kind, was, alive | InClass(kind, isSameAccount) ::
      ReadsWritten(ps, acl, isSameAccount, slot, kind, was, alive)
  }

  /** Nothing a comparison of the class looks at tells the two ends apart. */
  predicate Symmetric(acl: Acl, isSameAccount: bool) {
    && acl.source.udid == acl.sink.udid && acl.source.user == acl.sink.user
    && (if isSameAccount then acl.source.account == acl.sink.account
        else SameToken(acl.source.token, acl.sink.token))
  }

  predicate NoAccount(acl: Acl) {
    acl.source.account == DEFAULT_ACCOUNT_UID || acl.sink.account == DEFAULT_ACCOUNT_UID
  }

  /** Exactly when every lookup of the class, in every profile list, reads what was written: the devices differ,
      or the ends are indistinguishable, or no profile of the class can match at all. */
  lemma AgreementIff(acl: Acl, isSameAccount: bool)
    ensures AlwaysAgrees(acl, isSameAccount) <==>
              acl.source.udid != acl.sink.udid || Symmetric(acl, isSameAccount) || (isSameAccount && NoAccount(acl))
  {
    if acl.source.udid != acl.sink.udid || Symmetric(acl, isSameAccount) || (isSameAccount && NoAccount(acl)) {
      forall ps, slot, kind, was, alive | InClass(kind, isSameAccount)
        ensures ReadsWritten(ps, acl, isSameAccount, slot, kind, was, alive)
      {
        if acl.source.udid != acl.sink.udid {
          SlotAgreement(ps, acl, isSameAccount, slot, kind, was, alive);
        } else {
          OneDeviceAgrees(acl, isSameAccount, slot, kind, was);
          ProfilesDecide(ps, acl, isSameAccount, slot, kind, was, alive);
        }
      }
    } else {
      WrongSlot(acl, isSameAccount);
    }
  }

  lemma OneDeviceAgrees(acl: Acl, isSameAccount: bool, slot: Slot, kind: Kind, was: Slot)
    requires acl.source.udid == acl.sink.udid && InClass(kind, isSameAccount)
    requires Symmetric(acl, isSameAccount) || (isSameAccount && NoAccount(acl))
    ensures forall p | Found(kind, p, acl) :: LocalSlot(Written(p, acl, isSameAccount, slot), acl, was) == slot
  {
    forall p | Found(kind, p, acl) ensures LocalSlot(Written(p, acl, isSameAccount, slot), acl, was) == slot {
      assert Compare(kind, p, acl, true) == Compare(kind, p, acl, false);
    }
  }

  /** The list that holds just the profile of the pair in the orientation whose key goes to the accessee's slot. */
  lemma WrongSlot(acl: Acl, isSameAccount: bool)
    requires acl.source.udid == acl.sink.udid && !Symmetric(acl, isSameAccount)
    requires isSameAccount ==> !NoAccount(acl)
    ensures !AlwaysAgrees(acl, isSameAccount)
  {
    var (src, sink) := Mapped(acl, !acl.isServer);
    var kind := if isSameAccount then SameAccount else DiffAccount;
    var p := Profile(src, sink, Slot(0, 0), Slot(0, 0),
                     if isSameAccount then SAME_ACCOUNT else OTHER_TYPE, OTHER_LEVEL);
    assert Found(kind, p, acl);
    var q := Written(p, acl, isSameAccount, Slot(1, 1));
    assert LocalSlot(q, acl, Slot(0, 0)) != Slot(1, 1);
    WrittenIsFound(p, acl, isSameAccount, Slot(1, 1), kind);
    hide Found, Written, LocalSlot;
    assert Updated([p], acl, isSameAccount, Slot(1, 1)) == [q];
    assert !ReadsWritten([p], acl, isSameAccount, Slot(1, 1), kind, Slot(0, 0), _ => true);
  }

  // ---------- as it runs ----------

  class ProfileStore {
    var profiles: seq<Profile>

    constructor (ps: seq<Profile>)
      ensures profiles == ps
    {
      profiles := ps;
    }

    method UpdateDpAcl(acl: Acl, keyId: int, time: nat, isSameAccount: bool) returns (r: UpdateResult)
      modifies this
      ensures profiles == Updated(old(profiles), acl, isSameAccount, Slot(keyId, time))
      ensures r == ACL_IS_EMPTY <==> old(profiles) == []
      ensures r == ACL_SUCC <==>
                exists i :: 0 <= i < |old(profiles)| && MatchesEither(old(profiles)[i], acl, isSameAccount)
    {
      if profiles == [] {
        return ACL_IS_EMPTY;
      }
      r := ACL_NOT_MATCH;
      var slot := Slot(keyId, time);
      var i := 0;
      while i < |profiles|
        invariant 0 <= i <= |profiles| == |old(profiles)|
        invariant forall j | 0 <= j < i :: profiles[j] == Written(old(profiles)[j], acl, isSameAccount, slot)
        invariant forall j | i <= j < |profiles| :: profiles[j] == old(profiles)[j]
        invariant r != ACL_IS_EMPTY
        invariant r == ACL_SUCC <==> exists j :: 0 <= j < i && MatchesEither(old(profiles)[j], acl, isSameAccount)
      {
        var p := profiles[i];
        var same, swapped := CompareAll(p, acl, true, isSameAccount), CompareAll(p, acl, false, isSameAccount);
        if (same && acl.isServer) || (swapped && !acl.isServer) {
          profiles := profiles[i := p.(accesserKey := slot)];
          r := ACL_SUCC;
        } else if (same && !acl.isServer) || (swapped && acl.isServer) {
          profiles := profiles[i := p.(accesseeKey := slot)];
          r := ACL_SUCC;
        }
        i := i + 1;
      }
    }

    method GetAccessUkId(acl: Acl, kind: Kind, was: Slot, alive: nat -> bool) returns (ret: Ret, slot: Slot)
      modifies this
      ensures (ret, slot, profiles) == Lookup(old(profiles), acl, kind, was, alive)
    {
      slot := was;
      var i := 0;
      while i < |profiles|
        invariant 0 <= i <= Find(profiles, acl, kind)
        invariant profiles == old(profiles) && slot == was
      {
        if Compare(kind, profiles[i], acl, true) || Compare(kind, profiles[i], acl, false) {
          slot := LocalSlot(profiles[i], acl, slot);
          if !alive(slot.time) {
            slot := slot.(keyId := DEFAULT_USER_KEY_INDEX);
            profiles := profiles[i := Cleared(profiles[i])];
          }
          return OK, slot;
        }
        i := i + 1;
      }
      ret := ACL_NOT_FOUND;
    }
  }
}
