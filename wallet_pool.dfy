/**
 * The wallet pool: a map from wallet UUID to a unit handle (`unitWrapper`).
 * Each handle owns one wallet unit built by the plugin's maker function,
 * carries an unload deadline, and is watched by a one-shot select that waits
 * for the timer or for cancellation, unloads the unit and notifies the pool's
 * reaper, which deletes the entry.
 *
 * The goroutines become explicit steps: `Pool.WatcherStep` is one run of a
 * handle's select, `Pool.ReapNext` is one receive of the reaper loop, and time
 * is a `now` parameter. The unbuffered notification channel is the queue of
 * watchers blocked on their send, in the order they blocked.
 */
module WalletPool {
  import opened Types

  /** `(*string, error)` from a unit's GetAccountAddress or LoadAccount. */
  datatype AddressAnswer = AddressAnswer(address: Option<string>, err: Option<Error>)

  /** One `*pbCommon.AccountIdentity` of a GetMultipleAccounts answer. */
  datatype AccountRecord = AccountRecord(address: string, parameters: Params)

  /** `(uint, []*pbCommon.AccountIdentity, error)`; a nil list is `None`. */
  datatype AccountsAnswer = AccountsAnswer(count: nat, accounts: Option<seq<AccountRecord>>, err: Option<Error>)

  /** `(*string, []byte, error)` from a unit's SignData; a nil byte slice is `None`. */
  datatype SignAnswer = SignAnswer(address: Option<string>, signedData: Option<Bytes>, err: Option<Error>)

  /**
   * What the pool uses of a wallet unit (`WalletPoolUnitService`). Its
   * answers are those of code outside this model. `UnloadWallet` is called
   * at most once per handle, so one fixed outcome per unit loses nothing.
   */
  datatype WalletUnit = WalletUnit(
    walletUUID: string,
    unloadResult: Option<Error>,
    getAccountAddress: Params -> AddressAnswer,
    getMultipleAccounts: Params -> AccountsAnswer,
    loadAccount: Params -> AddressAnswer,
    signData: (Params, Bytes) -> SignAnswer)

  /** What the maker function hands back: a wallet unit, a value of another type, or an error. */
  datatype MakerResult = Made(unit: WalletUnit) | MadeOther | MakeFailed(err: Error)

  /** The branch the watcher's select took. */
  datatype Branch = TimerFired | Cancelled

  /**
   * Where a handle's watcher is: built but not started, waiting in its
   * select, past `shutdown()` and blocked on the notification, or done
   * because the reaper took the notification and deleted the entry.
   * `unloaded` records whether the unit's UnloadWallet succeeded.
   */
  datatype Phase =
    | Created
    | Armed
    | ShutdownComplete(via: Branch, unloaded: bool)
    | Removed(via: Branch, unloaded: bool)

  /** The deadline after `ResetTimer`: it moves to `now + ttl` only when that is strictly later. */
  function NextUnloadAt(unloadAt: int, now: int, ttl: int): (r: int)
    ensures r >= unloadAt && r >= now + ttl
    ensures r == unloadAt || r == now + ttl
    ensures r != unloadAt <==> now + ttl > unloadAt
  {
    if now + ttl > unloadAt then now + ttl else unloadAt
  }

  /** One admission of an identifier that is already loaded, at time `now` with lease `ttl`. */
  datatype Renewal = Renewal(now: int, ttl: int)

  /** The deadline after a run of admissions of a loaded identifier. */
  function LeaseAfter(unloadAt: int, renewals: seq<Renewal>): int
    decreases renewals
  {
    if renewals == [] then unloadAt
    else LeaseAfter(NextUnloadAt(unloadAt, renewals[0].now, renewals[0].ttl), renewals[1..])
  }

  /**
   * Repeated admissions never shorten a lease: the deadline ends at the
   * latest of the starting deadline and every requested `now + ttl`.
   */
  lemma {:induction false} LeaseIsLatestRequest(unloadAt: int, renewals: seq<Renewal>)
    decreases renewals
    ensures LeaseAfter(unloadAt, renewals) >= unloadAt
    ensures forall i :: 0 <= i < |renewals| ==> LeaseAfter(unloadAt, renewals) >= renewals[i].now + renewals[i].ttl
    ensures LeaseAfter(unloadAt, renewals) == unloadAt
         || exists i :: 0 <= i < |renewals| && LeaseAfter(unloadAt, renewals) == renewals[i].now + renewals[i].ttl
  {
    if renewals != [] {
      var next := NextUnloadAt(unloadAt, renewals[0].now, renewals[0].ttl);
      LeaseIsLatestRequest(next, renewals[1..]);
      forall i | 0 <= i < |renewals|
        ensures LeaseAfter(unloadAt, renewals) >= renewals[i].now + renewals[i].ttl
      {
        if i > 0 { assert renewals[i] == renewals[1..][i - 1]; }
      }
      if LeaseAfter(unloadAt, renewals) != unloadAt {
        if LeaseAfter(unloadAt, renewals) == next {
          assert LeaseAfter(unloadAt, renewals) == renewals[0].now + renewals[0].ttl;
        } else {
          var j :| 0 <= j < |renewals[1..]| && LeaseAfter(unloadAt, renewals) == renewals[1..][j].now + renewals[1..][j].ttl;
          assert renewals[1..][j] == renewals[j + 1];
        }
      }
    }
  }

  /** A unit handle (`unitWrapper`). */
  class UnitWrapper {
    var unloadAt: int            // UnloadAt
    var hasTimer: bool           // Timer != nil; the timer fires at unloadAt
    var hasCtx: bool             // ctx != nil
    var cancelled: bool          // the handle's context has been cancelled
    var unit: Option<WalletUnit> // Unit; None is nil
    var rawUUID: UUID            // the unit's UUID, parsed when the watcher starts
    var phase: Phase
    ghost var unloadCalls: nat   // how often UnloadWallet has been called

    /** The unit is called at most once, and only a successful unload clears the references. */
    ghost predicate Valid()
      reads this
    {
      match phase
      case Created => unit.Some? && !hasTimer && hasCtx && unloadCalls == 0
      case Armed => unit.Some? && hasTimer && hasCtx && unloadCalls == 0
      case ShutdownComplete(via, unloaded) => AfterShutdown(via, unloaded)
      case Removed(via, unloaded) => AfterShutdown(via, unloaded)
    }

    ghost predicate AfterShutdown(via: Branch, unloaded: bool)
      reads this
    {
      && unloadCalls == 1
      && (via == TimerFired ==> cancelled)
      && if unloaded then unit.None? && !hasTimer && !hasCtx
         else unit.Some? && hasTimer && hasCtx
    }

    /** Whether the timer has fired by `now`. */
    predicate TimerDue(now: int)
      reads this
    {
      hasTimer && now >= unloadAt
    }

    /** `newUnitWrapper`: the timer is filled in by `Run`; the deadline is the zero time. */
    constructor (u: WalletUnit)
      ensures Valid() && phase == Created
      ensures unit == Some(u) && !cancelled && unloadAt == 0
    {
      unloadAt := 0;
      hasTimer := false;
      hasCtx := true;
      cancelled := false;
      unit := Some(u);
      rawUUID := 0;
      phase := Created;
      unloadCalls := 0;
    }

    /**
     * `Run`: the watcher parses the unit's UUID, sets the deadline and arms the
     * timer before `Run` returns. A UUID that does not parse leaves `Run`
     * blocked for ever, so parsing is required to succeed.
     */
    method Run(now: int, ttl: int, parse: string -> ParseOutcome)
      requires Valid() && phase == Created
      requires parse(unit.value.walletUUID).err.None?
      modifies this
      ensures Valid() && phase == Armed
      ensures unloadAt == now + ttl && hasTimer
      ensures rawUUID == parse(unit.value.walletUUID).value
      ensures unit == old(unit) && cancelled == old(cancelled) && unloadCalls == 0
    {
      rawUUID := parse(unit.value.walletUUID).value;
      unloadAt := now + ttl;
      hasTimer := true;
      phase := Armed;
    }

    /**
     * `ResetTimer`: the deadline moves forward only. The deadline is written
     * before the timer is touched, so on a handle whose unload already
     * succeeded an extension dereferences the nil timer after moving it.
     */
    method ResetTimer(now: int, ttl: int) returns (r: Outcome<()>)
      requires Valid()
      modifies this`unloadAt
      ensures Valid()
      ensures unloadAt == NextUnloadAt(old(unloadAt), now, ttl)
      ensures r.NilDeref? <==> now + ttl > old(unloadAt) && !hasTimer
    {
      var expectedUnloadTime := now + ttl;
      if expectedUnloadTime > unloadAt {
        unloadAt := expectedUnloadTime;
        if !hasTimer {
          return NilDeref;
        }
      }
      return Returned(());
    }

    /** `Shutdown`: cancel the handle's context; the watcher does the rest. */
    method Shutdown()
      requires Valid()
      modifies this`cancelled
      ensures Valid() && cancelled
    {
      cancelled := true;
    }

    /** `shutdown`: unload the unit; only on success drop the unit, the timer and the context. */
    method ShutdownUnit() returns (err: Option<Error>)
      requires unit.Some?
      modifies this`unit, this`hasTimer, this`hasCtx, this`unloadCalls
      ensures unloadCalls == old(unloadCalls) + 1
      ensures err == old(unit).value.unloadResult
      ensures err.None? ==> unit.None? && !hasTimer && !hasCtx
      ensures err.Some? ==> unit == old(unit) && hasTimer == old(hasTimer) && hasCtx == old(hasCtx)
    {
      unloadCalls := unloadCalls + 1;
      err := unit.value.unloadResult;
      if err.Some? {
        return;
      }
      unit := None;
      hasTimer := false;
      hasCtx := false;
    }

    /**
     * The watcher's one-shot select. It waits until the timer has fired or the
     * context is cancelled, takes exactly one branch (`pick` when both are
     * ready), calls `shutdown` and, on the timer branch, cancels the context.
     */
    method Watch(now: int, pick: Branch) returns (fired: Option<Branch>)
      requires Valid()
      modifies this
      ensures Valid()
      ensures fired.Some? <==> old(phase) == Armed && (old(TimerDue(now)) || old(cancelled))
      ensures fired.None? ==> unchanged(this)
      ensures fired.Some? ==>
        && (fired.value == TimerFired ==> old(TimerDue(now)))
        && (fired.value == Cancelled ==> old(cancelled))
        && (old(TimerDue(now)) && old(cancelled) ==> fired.value == pick)
        && old(unloadCalls) == 0 && unloadCalls == 1
        && phase == ShutdownComplete(fired.value, old(unit).value.unloadResult.None?)
        && cancelled && unloadAt == old(unloadAt) && rawUUID == old(rawUUID)
    {
      if phase != Armed {
        return None;
      }
      var timerReady := TimerDue(now);
      if !timerReady && !cancelled {
        return None;
      }
      var branch := if timerReady && cancelled then pick
                    else if timerReady then TimerFired
                    else Cancelled;
      var err := ShutdownUnit();
      if branch == TimerFired {
        cancelled := true;
      }
      phase := ShutdownComplete(branch, err.None?);
      fired := Some(branch);
    }
  }

  /** Every field of a handle except `cancelled` is as it was. */
  twostate predicate OnlyCancelChanged(h: UnitWrapper)
    reads h
  {
    && h.unloadAt == old(h.unloadAt) && h.hasTimer == old(h.hasTimer) && h.hasCtx == old(h.hasCtx)
    && h.unit == old(h.unit) && h.rawUUID == old(h.rawUUID) && h.phase == old(h.phase)
    && h.unloadCalls == old(h.unloadCalls)
  }

  /** The wallet pool (`Pool`). */
  class Pool {
    const encryptSvc: EncryptService
    const walletMakerFunc: (string, Bytes) -> MakerResult
    const parse: string -> ParseOutcome   // uuid.Parse
    const format: UUID -> string          // uuid.UUID.String
    var walletUnits: map<UUID, UnitWrapper>
    var notifyChan: seq<UUID>             // watchers blocked on their send, oldest first
    ghost var decryptCalls: nat
    ghost var makerCalls: nat

    /**
     * Each entry owns its own handle, which is running (armed, or past
     * shutdown and waiting to be reaped) under the UUID it was admitted with;
     * exactly the entries past shutdown are waiting on the channel, once each.
     */
    ghost predicate Valid()
      reads this, walletUnits.Values
    {
      && (forall k1, k2 :: k1 in walletUnits && k2 in walletUnits && k1 != k2 ==> walletUnits[k1] != walletUnits[k2])
      && (forall k :: k in walletUnits ==> Live(k))
      && (forall i, j :: 0 <= i < j < |notifyChan| ==> notifyChan[i] != notifyChan[j])
      && (forall k :: k in notifyChan <==> k in walletUnits && walletUnits[k].phase.ShutdownComplete?)
    }

    ghost predicate Live(k: UUID)
      requires k in walletUnits
      reads this, walletUnits[k]
    {
      var h := walletUnits[k];
      h.Valid() && h.rawUUID == k && (h.phase.Armed? || h.phase.ShutdownComplete?)
    }

    /** `NewWalletPool`. */
    constructor (encryptSrv: EncryptService, maker: (string, Bytes) -> MakerResult,
                 parseUUID: string -> ParseOutcome, formatUUID: UUID -> string)
      ensures Valid()
      ensures walletUnits == map[] && notifyChan == []
      ensures encryptSvc == encryptSrv && walletMakerFunc == maker && parse == parseUUID && format == formatUUID
    {
      encryptSvc := encryptSrv;
      walletMakerFunc := maker;
      parse := parseUUID;
      format := formatUUID;
      walletUnits := map[];
      notifyChan := [];
      decryptCalls := 0;
      makerCalls := 0;
    }

    /**
     * The unit the maker builds for `id` from `enc` reports a UUID that
     * parses back to `id`, so the watcher started by `Run` neither hangs nor
     * notifies another key.
     */
    ghost predicate UnitReportsId(id: UUID, enc: Bytes)
    {
      var plain := encryptSvc.decrypt(enc);
      plain.Ok? && walletMakerFunc(format(id), plain.value).Made? ==>
        parse(walletMakerFunc(format(id), plain.value).unit.walletUUID) == ParseOutcome(id, None)
    }

    /** The error a new admission of `id` ends with, if any. */
    ghost function AdmissionError(id: UUID, enc: Bytes): Option<Error>
    {
      var plain := encryptSvc.decrypt(enc);
      if plain.Err? then Some(plain.error)
      else match walletMakerFunc(format(id), plain.value)
        case MakeFailed(e) => Some(e)
        case MadeOther => Some(UnableCastPluginEntryToPoolUnitWorker)
        case Made(_) => None
    }

    /**
     * `AddAndStartWalletUnit`: admit or extend. A loaded identifier only has
     * its deadline moved forward; a new one is decrypted, built and started,
     * and a failure on the way leaves the map as it was.
     */
    method AddAndStartWalletUnit(walletUUID: UUID, timeToLive: int, mnemonicEncryptedData: Bytes, now: int)
      returns (r: Outcome<Option<Error>>)
      requires Valid()
      requires UnitReportsId(walletUUID, mnemonicEncryptedData)
      modifies this, walletUnits.Values
      ensures Valid()
      ensures notifyChan == old(notifyChan)
      ensures forall k :: k in old(walletUnits) && k != walletUUID ==>
        k in walletUnits && walletUnits[k] == old(walletUnits[k]) && unchanged(walletUnits[k])
      // an identifier already in the map: extend only, call nothing
      ensures walletUUID in old(walletUnits) ==>
        && walletUnits == old(walletUnits)
        && decryptCalls == old(decryptCalls) && makerCalls == old(makerCalls)
        && walletUnits[walletUUID].unloadAt == NextUnloadAt(old(walletUnits[walletUUID].unloadAt), now, timeToLive)
        && OnlyDeadlineChanged(walletUnits[walletUUID])
        && r == if now + timeToLive > old(walletUnits[walletUUID].unloadAt) && !walletUnits[walletUUID].hasTimer
                then NilDeref else Returned(None)
      // a new identifier: decrypt once, then the maker once if decryption succeeded
      ensures walletUUID !in old(walletUnits) ==>
        && r == Returned(AdmissionError(walletUUID, mnemonicEncryptedData))
        && decryptCalls == old(decryptCalls) + 1
        && makerCalls == old(makerCalls) + (if encryptSvc.decrypt(mnemonicEncryptedData).Ok? then 1 else 0)
      ensures walletUUID !in old(walletUnits) && r.value.Some? ==> walletUnits == old(walletUnits)
      ensures walletUUID !in old(walletUnits) && r.value.None? ==>
        && walletUnits.Keys == old(walletUnits).Keys + {walletUUID}
        && fresh(walletUnits[walletUUID])
        && walletUnits[walletUUID].phase == Armed
        && walletUnits[walletUUID].unloadAt == now + timeToLive
        && walletUnits[walletUUID].TimerDue(now + timeToLive)
        && !walletUnits[walletUUID].cancelled
        && walletUnits[walletUUID].unit
           == Some(walletMakerFunc(format(walletUUID), encryptSvc.decrypt(mnemonicEncryptedData).value).unit)
    {
      if walletUUID in walletUnits {
        var wuWrapper := walletUnits[walletUUID];
        var reset := wuWrapper.ResetTimer(now, timeToLive);
        if reset.NilDeref? {
          return NilDeref;
        }
        return Returned(None);
      }

      decryptCalls := decryptCalls + 1;
      var decryptedData := encryptSvc.decrypt(mnemonicEncryptedData);
      if decryptedData.Err? {
        return Returned(Some(decryptedData.error));
      }

      makerCalls := makerCalls + 1;
      var walletUnitInt := walletMakerFunc(format(walletUUID), decryptedData.value);
      if walletUnitInt.MakeFailed? {
        return Returned(Some(walletUnitInt.err));
      }
      if walletUnitInt.MadeOther? {
        return Returned(Some(UnableCastPluginEntryToPoolUnitWorker));
      }

      StartUnit(walletUUID, walletUnitInt.unit, timeToLive, now);
      return Returned(None);
    }

    /** The end of a new admission: wrap the unit, store the handle, and start its watcher. */
    method StartUnit(walletUUID: UUID, walletUnit: WalletUnit, timeToLive: int, now: int)
      requires Valid() && walletUUID !in walletUnits
      requires parse(walletUnit.walletUUID) == ParseOutcome(walletUUID, None)
      modifies this`walletUnits
      ensures Valid()
      ensures walletUnits.Keys == old(walletUnits).Keys + {walletUUID}
      ensures forall k :: k in old(walletUnits) ==> walletUnits[k] == old(walletUnits[k])
      ensures fresh(walletUnits[walletUUID])
      ensures walletUnits[walletUUID].phase == Armed && !walletUnits[walletUUID].cancelled
      ensures walletUnits[walletUUID].unloadAt == now + timeToLive && walletUnits[walletUUID].TimerDue(now + timeToLive)
      ensures walletUnits[walletUUID].unit == Some(walletUnit)
    {
      var wrapper := new UnitWrapper(walletUnit);
      walletUnits := walletUnits[walletUUID := wrapper];
      wrapper.Run(now, timeToLive, parse);
    }

    /**
     * `UnloadWalletUnit`: an absent identifier is not an error. A present one
     * has its context cancelled and stays in the map until the reaper takes
     * it; on a handle whose unload already succeeded the nil unit is
     * dereferenced before anything is cancelled.
     */
    method UnloadWalletUnit(mnemonicWalletUUID: UUID) returns (r: Outcome<(Option<UUID>, Option<Error>)>)
      requires Valid()
      modifies walletUnits.Values
      ensures Valid()
      ensures forall k :: k in walletUnits && k != mnemonicWalletUUID ==> unchanged(walletUnits[k])
      ensures mnemonicWalletUUID !in walletUnits ==> r == Returned((None, None))
      ensures mnemonicWalletUUID in walletUnits && old(walletUnits[mnemonicWalletUUID].unit).None? ==>
        r == NilDeref && unchanged(walletUnits[mnemonicWalletUUID])
      ensures mnemonicWalletUUID in walletUnits && old(walletUnits[mnemonicWalletUUID].unit).Some? ==>
        && walletUnits[mnemonicWalletUUID].cancelled
        && OnlyCancelChanged(walletUnits[mnemonicWalletUUID])
        && var parsed := parse(walletUnits[mnemonicWalletUUID].unit.value.walletUUID);
           r == Returned(if parsed.err.Some? then (None, parsed.err) else (Some(parsed.value), None))
    {
      if mnemonicWalletUUID !in walletUnits {
        return Returned((None, None));
      }
      var wUnit := walletUnits[mnemonicWalletUUID];
      if wUnit.unit.None? {
        return NilDeref;
      }
      var walletUUID := wUnit.unit.value.walletUUID;
      wUnit.Shutdown();
      var rawUUID := parse(walletUUID);
      if rawUUID.err.Some? {
        return Returned((None, rawUUID.err));
      }
      return Returned((Some(rawUUID.value), None));
    }

    /**
     * `UnloadMultipleWalletUnit`: cancel every listed identifier that is in
     * the map, skip the others, remove nothing, and always return nil.
     */
    method UnloadMultipleWalletUnit(mnemonicWalletUUIDs: seq<UUID>) returns (err: Option<Error>)
      requires Valid()
      modifies walletUnits.Values
      ensures Valid() && err.None?
      ensures forall k :: k in walletUnits ==>
        walletUnits[k].cancelled == (old(walletUnits[k].cancelled) || k in mnemonicWalletUUIDs)
      ensures forall k :: k in walletUnits ==> OnlyCancelChanged(walletUnits[k])
    {
      var i := 0;
      while i < |mnemonicWalletUUIDs|
        invariant 0 <= i <= |mnemonicWalletUUIDs|
        invariant Valid()
        invariant forall k :: k in walletUnits ==>
          walletUnits[k].cancelled == (old(walletUnits[k].cancelled) || k in mnemonicWalletUUIDs[..i])
        invariant forall k :: k in walletUnits ==> OnlyCancelChanged(walletUnits[k])
      {
        var v := mnemonicWalletUUIDs[i];
        assert mnemonicWalletUUIDs[..i + 1] == mnemonicWalletUUIDs[..i] + [v];
        if v in walletUnits {
          walletUnits[v].Shutdown();
        }
        i := i + 1;
      }
      assert mnemonicWalletUUIDs[..i] == mnemonicWalletUUIDs;
      return None;
    }

    /** `GetAccountAddress`: an absent identifier gives a nil address and a nil error. */
    method GetAccountAddress(mnemonicWalletUUID: UUID, accountParameters: Params) returns (r: Outcome<AddressAnswer>)
      ensures mnemonicWalletUUID !in walletUnits ==> r == Returned(AddressAnswer(None, None))
      ensures mnemonicWalletUUID in walletUnits && walletUnits[mnemonicWalletUUID].unit.None? ==> r == NilDeref
      ensures mnemonicWalletUUID in walletUnits && walletUnits[mnemonicWalletUUID].unit.Some? ==>
        r == Returned(walletUnits[mnemonicWalletUUID].unit.value.getAccountAddress(accountParameters))
    {
      if mnemonicWalletUUID !in walletUnits {
        return Returned(AddressAnswer(None, None));
      }
      var wUnit := walletUnits[mnemonicWalletUUID];
      if wUnit.unit.None? {
        return NilDeref;
      }
      return Returned(wUnit.unit.value.getAccountAddress(accountParameters));
    }

    /** `GetMultipleAccounts`: an absent identifier gives a zero count, a nil list and a nil error. */
    method GetMultipleAccounts(mnemonicWalletUUID: UUID, multipleAccountsParameters: Params)
      returns (r: Outcome<AccountsAnswer>)
      ensures mnemonicWalletUUID !in walletUnits ==> r == Returned(AccountsAnswer(0, None, None))
      ensures mnemonicWalletUUID in walletUnits && walletUnits[mnemonicWalletUUID].unit.None? ==> r == NilDeref
      ensures mnemonicWalletUUID in walletUnits && walletUnits[mnemonicWalletUUID].unit.Some? ==>
        r == Returned(walletUnits[mnemonicWalletUUID].unit.value.getMultipleAccounts(multipleAccountsParameters))
    {
      if mnemonicWalletUUID !in walletUnits {
        return Returned(AccountsAnswer(0, None, None));
      }
      var wUnit := walletUnits[mnemonicWalletUUID];
      if wUnit.unit.None? {
        return NilDeref;
      }
      return Returned(wUnit.unit.value.getMultipleAccounts(multipleAccountsParameters));
    }

    /** `LoadAccount`: an absent identifier gives a nil address and a nil error. */
    method LoadAccount(mnemonicWalletUUID: UUID, accountParameters: Params) returns (r: Outcome<AddressAnswer>)
      ensures mnemonicWalletUUID !in walletUnits ==> r == Returned(AddressAnswer(None, None))
      ensures mnemonicWalletUUID in walletUnits && walletUnits[mnemonicWalletUUID].unit.None? ==> r == NilDeref
      ensures mnemonicWalletUUID in walletUnits && walletUnits[mnemonicWalletUUID].unit.Some? ==>
        r == Returned(walletUnits[mnemonicWalletUUID].unit.value.loadAccount(accountParameters))
    {
      if mnemonicWalletUUID !in walletUnits {
        return Returned(AddressAnswer(None, None));
      }
      var wUnit := walletUnits[mnemonicWalletUUID];
      if wUnit.unit.None? {
        return NilDeref;
      }
      return Returned(wUnit.unit.value.loadAccount(accountParameters));
    }

    /** `SignData`: unlike the read accessors, an absent identifier is the error ErrPassedWalletNotFound. */
    method SignData(mnemonicUUID: UUID, accountParameters: Params, dataForSign: Bytes) returns (r: Outcome<SignAnswer>)
      ensures mnemonicUUID !in walletUnits ==> r == Returned(SignAnswer(None, None, Some(PassedWalletNotFound)))
      ensures mnemonicUUID in walletUnits && walletUnits[mnemonicUUID].unit.None? ==> r == NilDeref
      ensures mnemonicUUID in walletUnits && walletUnits[mnemonicUUID].unit.Some? ==>
        r == Returned(walletUnits[mnemonicUUID].unit.value.signData(accountParameters, dataForSign))
    {
      if mnemonicUUID !in walletUnits {
        return Returned(SignAnswer(None, None, Some(PassedWalletNotFound)));
      }
      var wUnit := walletUnits[mnemonicUUID];
      if wUnit.unit.None? {
        return NilDeref;
      }
      return Returned(wUnit.unit.value.signData(accountParameters, dataForSign));
    }

    /**
     * One run of the select of the handle stored under `id`: it fires when
     * the handle is armed and its timer is due or its context cancelled,
     * taking `pick` when both are ready. When it fires, the handle is
     * cancelled, keeps its deadline and is past shutdown, and its UUID is
     * queued on the channel whether or not the unload succeeded; the entry
     * stays in the map.
     */
    method WatcherStep(id: UUID, now: int, pick: Branch) returns (fired: Option<Branch>)
      requires Valid()
      modifies this`notifyChan, walletUnits.Values
      ensures Valid()
      ensures forall k :: k in walletUnits && k != id ==> unchanged(walletUnits[k])
      ensures fired.Some? <==>
        id in walletUnits && old(walletUnits[id].phase) == Armed
        && (old(walletUnits[id].TimerDue(now)) || old(walletUnits[id].cancelled))
      ensures fired.None? ==> notifyChan == old(notifyChan) && (id in walletUnits ==> unchanged(walletUnits[id]))
      ensures fired.Some? ==>
        && (fired.value == TimerFired ==> old(walletUnits[id].TimerDue(now)))
        && (fired.value == Cancelled ==> old(walletUnits[id].cancelled))
        && (old(walletUnits[id].TimerDue(now)) && old(walletUnits[id].cancelled) ==> fired.value == pick)
        && notifyChan == old(notifyChan) + [id]
        && walletUnits[id].cancelled && walletUnits[id].unloadAt == old(walletUnits[id].unloadAt)
        && walletUnits[id].phase == ShutdownComplete(fired.value, old(walletUnits[id].unit).value.unloadResult.None?)
        && old(walletUnits[id].unloadCalls) == 0 && walletUnits[id].unloadCalls == 1
    {
      if id !in walletUnits {
        return None;
      }
      var wrapped := walletUnits[id];
      fired := wrapped.Watch(now, pick);
      if fired.Some? {
        notifyChan := notifyChan + [wrapped.rawUUID];
      }
    }

    /**
     * One receive of the reaper loop in `Run`: take the oldest notification
     * and delete exactly that key; the notifying watcher then ends.
     */
    method ReapNext() returns (reaped: Option<UUID>)
      requires Valid()
      modifies this`walletUnits, this`notifyChan, walletUnits.Values
      ensures Valid()
      ensures old(notifyChan) == [] ==>
        reaped.None? && walletUnits == old(walletUnits) && notifyChan == []
        && forall k :: k in walletUnits ==> unchanged(walletUnits[k])
      ensures old(notifyChan) != [] ==>
        && reaped == Some(old(notifyChan)[0])
        && walletUnits == old(walletUnits) - {reaped.value}
        && notifyChan == old(notifyChan)[1..]
        && old(walletUnits)[reaped.value].phase.Removed?
        && forall k :: k in walletUnits ==> unchanged(walletUnits[k])
    {
      if notifyChan == [] {
        return None;
      }
      var walletUUID := notifyChan[0];
      var wrapped := walletUnits[walletUUID];
      wrapped.phase := Removed(wrapped.phase.via, wrapped.phase.unloaded);
      walletUnits := walletUnits - {walletUUID};
      notifyChan := notifyChan[1..];
      reaped := Some(walletUUID);
    }
  }

  /**
   * The window the accessors expose: in a consistent pool, an entry's unit
   * is nil exactly when its unload succeeded and the reaper has not yet
   * deleted it, and then its timer is nil too.
   */
  lemma UnitNilOnlyAfterSuccessfulUnload(p: Pool, k: UUID)
    requires p.Valid() && k in p.walletUnits
    ensures p.walletUnits[k].unit.None? <==> p.walletUnits[k].phase.ShutdownComplete? && p.walletUnits[k].phase.unloaded
    ensures p.walletUnits[k].unit.None? ==> !p.walletUnits[k].hasTimer && k in p.notifyChan
  {
    assert p.Live(k);
  }

  /** Every field of a handle except the deadline is as it was. */
  twostate predicate OnlyDeadlineChanged(h: UnitWrapper)
    reads h
  {
    && h.hasTimer == old(h.hasTimer) && h.hasCtx == old(h.hasCtx) && h.cancelled == old(h.cancelled)
    && h.unit == old(h.unit) && h.rawUUID == old(h.rawUUID) && h.phase == old(h.phase)
    && h.unloadCalls == old(h.unloadCalls)
  }
}
