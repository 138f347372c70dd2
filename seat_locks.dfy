/**
  The seat-lock manager (RedisLockService). The lock store is a string-to-string
  map offering only per-key "set if absent" and "delete"; the manager builds an
  all-or-nothing acquisition of several seats on top of it by taking the locks in
  the order given and deleting what it took at the first failure.
*/
module SeatLocks {
  import opened Wrappers
  import opened LockKeys

  /** Why an acquisition raised SeatLockException. */
  datatype LockError =
    | Conflict(seatId: int, showId: int)   // the seat's key was already present
    | StoreFailure                          // the store call itself failed
  {
    /** The message of the SeatLockException. */
    function Message(): string {
      match this
      case Conflict(seatId, showId) =>
        "Seats no longer available. Seat " + Decimal(seatId) + " in show " + Decimal(showId) + " is already locked."
      case StoreFailure => "Failed to acquire seat locks due to system error"
    }
  }

  /** The lock keys of the given seats, in request order. */
  function Keys(cfg: LockConfig, showId: int, seatIds: seq<int>): (keys: seq<string>)
    ensures |keys| == |seatIds|
  {
    if |seatIds| == 0 then []
    else Keys(cfg, showId, seatIds[..|seatIds| - 1]) + [SeatLockKey(cfg, showId, seatIds[|seatIds| - 1])]
  }

  /** Position i of Keys is the key of seat i. */
  lemma {:induction false} KeysAt(cfg: LockConfig, showId: int, seatIds: seq<int>, i: nat)
    requires i < |seatIds|
    ensures Keys(cfg, showId, seatIds)[i] == SeatLockKey(cfg, showId, seatIds[i])
    decreases |seatIds|
  {
    var n := |seatIds| - 1;
    assert Keys(cfg, showId, seatIds) == Keys(cfg, showId, seatIds[..n]) + [SeatLockKey(cfg, showId, seatIds[n])];
    if i < n {
      KeysAt(cfg, showId, seatIds[..n], i);
      assert seatIds[..n][i] == seatIds[i];
    }
  }

  /** Seat j cannot be locked: its key is held already, or an earlier seat of this request has the same key. */
  predicate Blocked(store: map<string, string>, keys: seq<string>, j: nat)
    requires j < |keys|
  {
    keys[j] in store || keys[j] in keys[..j]
  }

  /** The first blocked position at or after `from`, or |keys| when none is blocked. */
  function FirstBlocked(store: map<string, string>, keys: seq<string>, from: nat): (b: nat)
    requires from <= |keys|
    ensures from <= b <= |keys|
    ensures forall j :: from <= j < b ==> !Blocked(store, keys, j)
    ensures b < |keys| ==> Blocked(store, keys, b)
    decreases |keys| - from
  {
    if from == |keys| then from
    else if Blocked(store, keys, from) then from
    else FirstBlocked(store, keys, from + 1)
  }

  /** The entries a call adds to the store: each of its keys mapped to its lock value. */
  function Added(keys: seq<string>, value: string): map<string, string> {
    map k | k in keys :: value
  }

  /** Store after releaseSeatsLock: nothing for an empty list or a failed delete, else every listed key removed. */
  function Release(store: map<string, string>, keys: seq<string>, deleteFails: bool): map<string, string> {
    if |keys| == 0 || deleteFails then store else store - set k | k in keys
  }

  datatype Acquisition = Acquisition(store: map<string, string>, result: Result<seq<string>, LockError>)

  /**
    What the acquisition loop does to the store and returns, for the keys and lock value it
    was given. `faultAt` is the index of the seat whose store call fails, if any;
    `deleteFails` says whether the rollback's delete fails.
  */
  function AcquireKeys(store: map<string, string>, keys: seq<string>, value: string,
                       showId: int, seatIds: seq<int>, faultAt: Option<nat>, deleteFails: bool): Acquisition
    requires |keys| == |seatIds|
  {
    var b := FirstBlocked(store, keys, 0);
    if faultAt.Some? && faultAt.value < |keys| && faultAt.value <= b then
      var taken := keys[..faultAt.value];
      Acquisition(Release(store + Added(taken, value), taken, deleteFails), Failure(StoreFailure))
    else if b < |keys| then
      var taken := keys[..b];
      Acquisition(Release(store + Added(taken, value), taken, deleteFails), Failure(Conflict(seatIds[b], showId)))
    else
      Acquisition(store + Added(keys, value), Success(keys))
  }

  /** What acquireSeatsLock does to the store and returns. */
  function Acquire(store: map<string, string>, cfg: LockConfig, showId: int, seatIds: seq<int>,
                   bookingId: int, faultAt: Option<nat>, deleteFails: bool): Acquisition
  {
    AcquireKeys(store, Keys(cfg, showId, seatIds), BookingLockValue(cfg, bookingId), showId, seatIds, faultAt, deleteFails)
  }

  /** The first blocked position is the one where the unblocked prefix ends. */
  lemma FirstBlockedAt(store: map<string, string>, keys: seq<string>, i: nat)
    requires i <= |keys| && i <= FirstBlocked(store, keys, 0)
    requires i == |keys| || Blocked(store, keys, i)
    ensures FirstBlocked(store, keys, 0) == i
  {
  }

  lemma FirstBlockedPast(store: map<string, string>, keys: seq<string>, i: nat)
    requires i < |keys| && i <= FirstBlocked(store, keys, 0)
    requires !Blocked(store, keys, i)
    ensures i + 1 <= FirstBlocked(store, keys, 0)
  {
  }

  lemma AddedSnoc(keys: seq<string>, value: string, k: string)
    ensures Added(keys + [k], value) == Added(keys, value)[k := value]
  {
    var l, r := Added(keys + [k], value), Added(keys, value)[k := value];
    assert l.Keys == r.Keys;
  }

  /** Keys taken by a prefix of the request that hit no blocked seat were all absent beforehand. */
  lemma TakenWereAbsent(store: map<string, string>, keys: seq<string>, n: nat)
    requires n <= FirstBlocked(store, keys, 0)
    ensures forall k :: k in keys[..n] ==> k !in store
  {
    forall k | k in keys[..n] ensures k !in store {
      var j :| 0 <= j < n && keys[j] == k;
      assert !Blocked(store, keys, j);
    }
  }

  /** Rolling back what was taken, when the delete succeeds, restores the store exactly. */
  lemma RollbackRestores(store: map<string, string>, taken: seq<string>, value: string)
    requires forall k :: k in taken ==> k !in store
    ensures Release(store + Added(taken, value), taken, false) == store
  {
    var after := Release(store + Added(taken, value), taken, false);
    if |taken| > 0 {
      assert after.Keys == store.Keys;
      forall k | k in after ensures after[k] == store[k] { }
    }
  }

  /** The scan from `from` runs off the end exactly when no key from there on is blocked. */
  lemma {:induction false} NoneBlocked(store: map<string, string>, keys: seq<string>, from: nat)
    requires from <= |keys|
    ensures FirstBlocked(store, keys, from) == |keys| <==> forall j :: from <= j < |keys| ==> !Blocked(store, keys, j)
    decreases |keys| - from
  {
    if from < |keys| {
      NoneBlocked(store, keys, from + 1);
    }
  }

  /**
    Acquisition succeeds exactly when no seat is blocked and the store never fails; then it
    returns one key per seat in request order, each previously absent and now owned by the booking.
  */
  lemma AcquireSuccess(store: map<string, string>, cfg: LockConfig, showId: int, seatIds: seq<int>,
                       bookingId: int, faultAt: Option<nat>, deleteFails: bool)
    ensures var a := Acquire(store, cfg, showId, seatIds, bookingId, faultAt, deleteFails);
      a.result.Success? <==>
        (forall j :: 0 <= j < |seatIds| ==> !Blocked(store, Keys(cfg, showId, seatIds), j))
        && !(faultAt.Some? && faultAt.value < |seatIds|)
    ensures var a := Acquire(store, cfg, showId, seatIds, bookingId, faultAt, deleteFails);
      a.result.Success? ==>
        && a.result.value == Keys(cfg, showId, seatIds)
        && |a.result.value| == |seatIds|
        && (forall i :: 0 <= i < |seatIds| ==>
              a.result.value[i] !in store
              && a.result.value[i] in a.store
              && a.store[a.result.value[i]] == BookingLockValue(cfg, bookingId))
  {
    AcquireKeysSucceeds(store, Keys(cfg, showId, seatIds), BookingLockValue(cfg, bookingId), showId, seatIds, faultAt, deleteFails);
    assert Acquire(store, cfg, showId, seatIds, bookingId, faultAt, deleteFails)
        == AcquireKeys(store, Keys(cfg, showId, seatIds), BookingLockValue(cfg, bookingId), showId, seatIds, faultAt, deleteFails);
    if Acquire(store, cfg, showId, seatIds, bookingId, faultAt, deleteFails).result.Success? {
      AcquireKeysTakesAll(store, Keys(cfg, showId, seatIds), BookingLockValue(cfg, bookingId), showId, seatIds, faultAt, deleteFails);
    }
  }

  /** The loop over given keys succeeds exactly when none is blocked and no store call fails. */
  lemma AcquireKeysSucceeds(store: map<string, string>, keys: seq<string>, value: string,
                            showId: int, seatIds: seq<int>, faultAt: Option<nat>, deleteFails: bool)
    requires |keys| == |seatIds|
    ensures AcquireKeys(store, keys, value, showId, seatIds, faultAt, deleteFails).result.Success? <==>
      (forall j :: 0 <= j < |seatIds| ==> !Blocked(store, keys, j)) && !(faultAt.Some? && faultAt.value < |seatIds|)
  {
    NoneBlocked(store, keys, 0);
  }

  /** A successful loop returns its keys, each previously absent and now holding the lock value. */
  lemma AcquireKeysTakesAll(store: map<string, string>, keys: seq<string>, value: string,
                            showId: int, seatIds: seq<int>, faultAt: Option<nat>, deleteFails: bool)
    requires |keys| == |seatIds|
    requires AcquireKeys(store, keys, value, showId, seatIds, faultAt, deleteFails).result.Success?
    ensures var a := AcquireKeys(store, keys, value, showId, seatIds, faultAt, deleteFails);
      && a.result.value == keys
      && forall i :: 0 <= i < |keys| ==> keys[i] !in store && keys[i] in a.store && a.store[keys[i]] == value
  {
    TakenWereAbsent(store, keys, |keys|);
    assert keys[..|keys|] == keys;
  }

  /**
    Whatever happens, keys present before the call keep their values; and on failure with a
    working delete, the store is exactly as before: no key taken by this call survives.
  */
  lemma AcquireRollsBack(store: map<string, string>, cfg: LockConfig, showId: int, seatIds: seq<int>,
                         bookingId: int, faultAt: Option<nat>, deleteFails: bool)
    ensures var a := Acquire(store, cfg, showId, seatIds, bookingId, faultAt, deleteFails);
      forall k :: k in store ==> k in a.store && a.store[k] == store[k]
    ensures var a := Acquire(store, cfg, showId, seatIds, bookingId, faultAt, deleteFails);
      a.result.Failure? && !deleteFails ==> a.store == store
  {
    var keys := Keys(cfg, showId, seatIds);
    var value := BookingLockValue(cfg, bookingId);
    var b := FirstBlocked(store, keys, 0);
    var n := if faultAt.Some? && faultAt.value < |keys| && faultAt.value <= b then faultAt.value else b;
    TakenWereAbsent(store, keys, n);
    if !deleteFails {
      RollbackRestores(store, keys[..n], value);
    }
  }

  /** A request naming the same seat twice fails at or before the repeat, and with a working delete leaves the store untouched. */
  lemma DuplicateSeatFails(store: map<string, string>, cfg: LockConfig, showId: int, seatIds: seq<int>,
                           bookingId: int, faultAt: Option<nat>, deleteFails: bool, i: nat, j: nat)
    requires i < j < |seatIds| && seatIds[i] == seatIds[j]
    ensures var a := Acquire(store, cfg, showId, seatIds, bookingId, faultAt, deleteFails);
      a.result.Failure? && (!deleteFails ==> a.store == store)
  {
    var keys := Keys(cfg, showId, seatIds);
    KeysAt(cfg, showId, seatIds, i);
    KeysAt(cfg, showId, seatIds, j);
    assert keys[i] == keys[j] && keys[i] in keys[..j];
    assert Blocked(store, keys, j);
    AcquireSuccess(store, cfg, showId, seatIds, bookingId, faultAt, deleteFails);
    AcquireRollsBack(store, cfg, showId, seatIds, bookingId, faultAt, deleteFails);
  }

  /**
    Release never looks at the stored owner: with a working delete, every listed seat key is
    gone afterwards whichever booking's value it held, and every unlisted key keeps its value.
  */
  lemma ReleaseIgnoresOwner(store: map<string, string>, cfg: LockConfig, showId: int, seatIds: seq<int>,
                            i: nat)
    requires i < |seatIds|
    requires Keys(cfg, showId, seatIds)[i] in store
    ensures Keys(cfg, showId, seatIds)[i] !in Release(store, Keys(cfg, showId, seatIds), false)
    ensures forall k :: k in store && k !in Keys(cfg, showId, seatIds) ==>
      k in Release(store, Keys(cfg, showId, seatIds), false) && Release(store, Keys(cfg, showId, seatIds), false)[k] == store[k]
  {
  }

  /** Releasing by the same show and seat ids undoes a successful acquisition exactly (with a working delete). */
  lemma AcquireThenReleaseRestores(store: map<string, string>, cfg: LockConfig, showId: int, seatIds: seq<int>,
                                   bookingId: int, faultAt: Option<nat>, deleteFails: bool)
    requires Acquire(store, cfg, showId, seatIds, bookingId, faultAt, deleteFails).result.Success?
    ensures Release(Acquire(store, cfg, showId, seatIds, bookingId, faultAt, deleteFails).store, Keys(cfg, showId, seatIds), false) == store
  {
    var keys := Keys(cfg, showId, seatIds);
    var value := BookingLockValue(cfg, bookingId);
    AcquireSuccess(store, cfg, showId, seatIds, bookingId, faultAt, deleteFails);
    TakenWereAbsent(store, keys, |keys|);
    assert keys[..|keys|] == keys;
    RollbackRestores(store, keys, value);
  }

  /** Releasing the same keys a second time changes nothing more. */
  lemma ReleaseTwice(store: map<string, string>, keys: seq<string>, deleteFails: bool)
    ensures Release(Release(store, keys, deleteFails), keys, deleteFails) == Release(store, keys, deleteFails)
  {
    if |keys| > 0 && !deleteFails {
      var once := Release(store, keys, false);
      assert once.Keys == store.Keys - set k | k in keys;
      assert Release(once, keys, false) == once;
    }
  }

  /** The lock store client and the manager built on it. */
  class RedisLockService {
    const cfg: LockConfig
    var store: map<string, string>

    constructor (cfg: LockConfig, store: map<string, string>)
      ensures this.cfg == cfg && this.store == store
    {
      this.cfg := cfg;
      this.store := store;
    }

    /** The store's SET NX: sets the key only when it is absent and says whether it did. */
    method SetIfAbsent(key: string, value: string) returns (set_: bool)
      modifies this
      ensures set_ <==> key !in old(store)
      ensures store == if set_ then old(store)[key := value] else old(store)
    {
      set_ := key !in store;
      if set_ {
        store := store[key := value];
      }
    }

    /** releaseSeatsLock: an empty list does nothing; a failing delete is swallowed. */
    method ReleaseSeatsLock(lockKeys: seq<string>, deleteFails: bool)
      modifies this
      ensures store == Release(old(store), lockKeys, deleteFails)
    {
      if |lockKeys| == 0 {
        return;
      }
      if !deleteFails {
        store := store - set k | k in lockKeys;
      }
    }

    /** releaseSeatsLockByIds: regenerates the keys and releases them, whoever owns them. */
    method ReleaseSeatsLockByIds(showId: int, seatIds: seq<int>, deleteFails: bool)
      modifies this
      ensures store == Release(old(store), Keys(cfg, showId, seatIds), deleteFails)
    {
      var lockKeys := Keys(cfg, showId, seatIds);
      ReleaseSeatsLock(lockKeys, deleteFails);
    }

    /**
      acquireSeatsLock: all-or-nothing acquisition in request order. Key generation is pure,
      so the keys are generated before the loop rather than one per iteration.
    */
    method AcquireSeatsLock(showId: int, seatIds: seq<int>, bookingId: int,
                            faultAt: Option<nat>, deleteFails: bool)
      returns (r: Result<seq<string>, LockError>)
      modifies this
      ensures Acquisition(store, r) == Acquire(old(store), cfg, showId, seatIds, bookingId, faultAt, deleteFails)
    {
      var lockValue := BookingLockValue(cfg, bookingId);
      var lockKeys := Keys(cfg, showId, seatIds);
      r := AcquireInOrder(lockKeys, lockValue, showId, seatIds, faultAt, deleteFails);
    }

    /** The loop of acquireSeatsLock: SET NX per key; at the first refusal or store error, delete what was taken. */
    method AcquireInOrder(keys: seq<string>, lockValue: string, showId: int, seatIds: seq<int>,
                          faultAt: Option<nat>, deleteFails: bool)
      returns (r: Result<seq<string>, LockError>)
      requires |keys| == |seatIds|
      modifies this
      ensures Acquisition(store, r) == AcquireKeys(old(store), keys, lockValue, showId, seatIds, faultAt, deleteFails)
    {
      var acquiredLocks: seq<string> := [];
      ghost var before := store;
      var i := 0;
      while i < |seatIds|
        invariant 0 <= i <= |seatIds|
        invariant acquiredLocks == keys[..i]
        invariant store == before + Added(acquiredLocks, lockValue)
        invariant i <= FirstBlocked(before, keys, 0)
        invariant faultAt.Some? ==> faultAt.value >= i
      {
        var lockKey := keys[i];
        if faultAt == Some(i) {
          ReleaseSeatsLock(acquiredLocks, deleteFails);
          r := Failure(StoreFailure);
          return;
        }
        var acquired := SetIfAbsent(lockKey, lockValue);
        if acquired {
          assert lockKey !in before && lockKey !in keys[..i];
          assert !Blocked(before, keys, i);
          FirstBlockedPast(before, keys, i);
          assert keys[..i + 1] == keys[..i] + [lockKey];
          AddedSnoc(acquiredLocks, lockValue, lockKey);
          acquiredLocks := acquiredLocks + [lockKey];
        } else {
          assert Blocked(before, keys, i);
          FirstBlockedAt(before, keys, i);
          ReleaseSeatsLock(acquiredLocks, deleteFails);
          r := Failure(Conflict(seatIds[i], showId));
          return;
        }
        i := i + 1;
      }
      assert acquiredLocks == keys;
      FirstBlockedAt(before, keys, |keys|);
      r := Success(acquiredLocks);
    }

    /** isSeatLocked: true exactly when the seat's key is present. */
    method IsSeatLocked(showId: int, seatId: int) returns (locked: bool)
      ensures locked <==> SeatLockKey(cfg, showId, seatId) in store
    {
      var lockKey := SeatLockKey(cfg, showId, seatId);
      locked := lockKey in store;
    }

    /** getSeatLockOwner: the stored lock value, or null (None) when the key is absent. */
    method GetSeatLockOwner(showId: int, seatId: int) returns (owner: Option<string>)
      ensures var k := SeatLockKey(cfg, showId, seatId);
        (k in store ==> owner == Some(store[k])) && (k !in store ==> owner == None)
    {
      var lockKey := SeatLockKey(cfg, showId, seatId);
      owner := if lockKey in store then Some(store[lockKey]) else None;
    }
  }
}
