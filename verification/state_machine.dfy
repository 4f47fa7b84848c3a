/** The round controller (Assets/Scripts/Core/State/GameStateMachine.cs).
    The machine owns the zone service, the bank, the inventory, the config
    factory, the (never consulted) risk policy and the HUD presenter. The
    wheel view is reduced to the config it shows and whether the last swap
    was animated. The two asynchronous continuations of the source, the
    spin-completion callback and the 0.25 s deferred entry into Ready, are
    queues of pending steps that the environment fires with `CompleteSpin`
    and `FireDeferredReady`, in any order and at any time. */
module StateMachine {
  import opened WheelData
  import opened Zones
  import opened Risk
  import opened Bank
  import opened Inventory
  import opened Shift
  import opened WheelFactory
  import opened Hud

  /** A state object as created by `Create`. Only a Spinning state holds
      data: the config it was handed (`None` for C# null) and its
      `rotationValue`. */
  datatype State =
    | IdleState
    | ReadyState
    | SpinningState(config: Option<WheelConfig>, rotationValue: real)
    | LostState
    | CollectedState

  /** `OnStop(cfg, idx)` waiting for the spin animation to finish. */
  datatype PendingSpin = PendingSpin(config: WheelConfig, index: int)

  function TypeOf(s: State): StateType {
    match s
    case IdleState => IdleT
    case ReadyState => ReadyT
    case SpinningState(_, _) => SpinningT
    case LostState => LostT
    case CollectedState => CollectedT
  }

  /** GameStateMachine.Create<T>: a new state object of the requested type;
      every new Spinning state starts with rotation 0; any other type is
      rejected. */
  function Create(t: StateType, cfg: Option<WheelConfig>): (r: Option<State>)
    ensures r.None? <==> t.OtherT?
    ensures r.Some? ==> TypeOf(r.value) == t
    ensures r.Some? && r.value.SpinningState? ==> r.value == SpinningState(cfg, 0.0)
  {
    match t
    case IdleT => Some(IdleState)
    case ReadyT => Some(ReadyState)
    case SpinningT => Some(SpinningState(cfg, 0.0))
    case LostT => Some(LostState)
    case CollectedT => Some(CollectedState)
    case OtherT(_) => None
  }

  /** C#'s `(int)` cast of a float: truncation toward zero. */
  function TruncateToInt(x: real): int {
    if x >= 0.0 then x.Floor else -((-x).Floor)
  }

  /** A freshly created Spinning state never rotates the slices: its
      rotation is 0, so the shift is 0 and the order is unchanged. */
  lemma FreshSpinningNeverShifts(cfg: Option<WheelConfig>, slices: seq<SliceDef>)
    ensures Create(SpinningT, cfg) == Some(SpinningState(cfg, 0.0))
    ensures TruncateToInt(Create(SpinningT, cfg).value.rotationValue / 45.0) == 0
    ensures Shifted(slices, TruncateToInt(Create(SpinningT, cfg).value.rotationValue / 45.0)) == slices
  {
  }

  /** Spinning's rotation of the slices: copied to an array, shifted by
      `(int)(rotationValue / 45)` and copied back; nothing else of the config
      changes. */
  method RotateSlices(cfg: WheelConfig, rotationValue: real) returns (out: WheelConfig)
    ensures out == cfg.(slices := Shifted(cfg.slices, TruncateToInt(rotationValue / 45.0)))
    ensures multiset(out.slices) == multiset(cfg.slices)
  {
    var arr := new SliceDef[|cfg.slices|](i requires 0 <= i < |cfg.slices| => cfg.slices[i]);
    assert arr[..] == cfg.slices;
    var shifted := ShiftArray(arr, TruncateToInt(rotationValue / 45.0));
    out := cfg.(slices := shifted[..]);
    ShiftedIsPermutation(cfg.slices, TruncateToInt(rotationValue / 45.0));
  }

  class GameStateMachine {
    const zones: ZoneService
    const bank: RewardBank
    const inventory: RewardInventory
    const factory: WheelConfigFactory
    const risk: RiskPolicy
    const hud: HUDPresenter
    var current: Option<State>
    var wheel: Option<WheelConfig>
    var wheelSwapAnimated: bool
    var pendingSpins: seq<PendingSpin>
    var pendingReady: seq<SliceDef>

    ghost predicate Valid()
      reads this, zones, inventory, factory, hud
    {
      && zones.Valid() && inventory.Valid() && factory.Valid()
      && (hud.zones == null || hud.zones == zones)
      && forall k :: 0 <= k < |pendingSpins| ==> 0 <= pendingSpins[k].index < |pendingSpins[k].config.slices|
    }

    constructor (zones: ZoneService, bank: RewardBank, inventory: RewardInventory,
                 factory: WheelConfigFactory, risk: RiskPolicy, hud: HUDPresenter)
      requires zones.Valid() && inventory.Valid() && factory.Valid() && hud.zones == null
      ensures Valid()
      ensures this.zones == zones && this.bank == bank && this.inventory == inventory
      ensures this.factory == factory && this.risk == risk && this.hud == hud
      ensures current == None && wheel == None && pendingSpins == [] && pendingReady == []
    {
      this.zones := zones;
      this.bank := bank;
      this.inventory := inventory;
      this.factory := factory;
      this.risk := risk;
      this.hud := hud;
      current := None;
      wheel := None;
      pendingSpins := [];
      pendingReady := [];
    }

    /** The three bindings every Idle and Ready entry installs; only the
        spin command differs (Ready passes its config on to Spinning). */
    ghost predicate BoundFor(spinConfig: Option<WheelConfig>)
      reads hud
    {
      && hud.spinCmd == Some(SpinCommand(EnterState(SpinningT, spinConfig)))
      && hud.cashOutCmd == Some(CashOutCommand(EnterState(CollectedT, None)))
      && hud.giveUpCmd == Some(GiveUpCommand(EnterState(IdleT, None)))
      && hud.zones == zones
    }

    /** The state right after Idle's Enter: zone, bank and inventory reset,
        cash-out offered iff the start zone is safe or super, the wheel
        showing the config built for that zone. */
    ghost predicate IdleEntered()
      reads this, zones, bank, inventory, factory, hud
    {
      && factory.Valid()
      && current == Some(IdleState)
      && zones.currentZone == Max(1, zones.startZone)
      && bank.total == 0
      && inventory.entries == map[] && inventory.added == []
      && hud.cashOutEnabled == IsCashOutZone(zones.currentZone)
      && hud.shownInventory == [] && hud.imageKeys == {}
      && wheel == Some(factory.Built(zones.currentZone)) && !wheelSwapAnimated
      && BoundFor(None)
    }

    /** The state right after Ready's Enter: cash-out offered iff the zone is
        safe or super, the wheel rebuilt for the zone, the swap animated iff
        this zone or the one before it is safe or super. */
    ghost predicate ReadyEntered()
      reads this, zones, inventory, factory, hud
    {
      && factory.Valid()
      && current == Some(ReadyState)
      && hud.cashOutEnabled == IsCashOutZone(zones.currentZone)
      && IsSnapshotOf(hud.shownInventory, inventory.entries)
      && hud.imageKeys == RenderedKeys(hud.shownInventory)
      && wheel == Some(factory.Built(zones.currentZone))
      && wheelSwapAnimated == (IsCashOutZone(zones.currentZone) || IsCashOutZone(zones.currentZone - 1))
      && BoundFor(Some(factory.Built(zones.currentZone)))
    }

    twostate predicate AccountsUnchanged()
      reads zones, bank, inventory
    {
      && zones.currentZone == old(zones.currentZone) && zones.notified == old(zones.notified)
      && bank.total == old(bank.total)
      && inventory.entries == old(inventory.entries) && inventory.added == old(inventory.added)
    }

    /** The events the exit of the old state emits: leaving Lost restarts. */
    ghost function ExitEvents(s: Option<State>): seq<HudEvent> {
      if s == Some(LostState) then [Restarted] else []
    }

    /** What Spinning's Enter does with the wheel and the pending spins. */
    twostate predicate SpinStarted(config: Option<WheelConfig>, rotationValue: real, outcome: Outcome)
      reads this, zones, factory
      requires factory.Valid()
    {
      var used := if config.Some? then config.value else factory.Built(zones.currentZone);
      && (config.None? ==> wheel == Some(used) && !wheelSwapAnimated)
      && (config.Some? ==> wheel == old(wheel) && wheelSwapAnimated == old(wheelSwapAnimated))
      && (outcome == Done <==> |used.slices| > 0)
      && (outcome == Done ==>
            && |pendingSpins| == |old(pendingSpins)| + 1
            && pendingSpins[..|old(pendingSpins)|] == old(pendingSpins)
            && pendingSpins[|old(pendingSpins)|].config
               == used.(slices := Shifted(used.slices, TruncateToInt(rotationValue / 45.0))))
      && (outcome != Done ==> outcome == ArgumentOutOfRange && pendingSpins == old(pendingSpins))
    }

    /** The whole effect of `Set(next)`: the old state's Exit, then the
        new state's Enter. */
    twostate predicate Switched(next: State, outcome: Outcome)
      reads this, zones, bank, inventory, factory, hud
    {
      var restart := old(current) == Some(LostState);
      var exits := old(hud.events) + ExitEvents(old(current));
      && pendingReady == old(pendingReady)
      && (next != LostState ==> hud.failVisible == (!restart && old(hud.failVisible)))
      && match next
         case IdleState =>
           && IdleEntered() && outcome == Done && pendingSpins == old(pendingSpins)
           && zones.notified == old(zones.notified) + [zones.currentZone]
           && hud.events == exits + [InventoryShown([])]
           && hud.spinEnabled == (restart || old(hud.spinEnabled))
         case ReadyState =>
           && ReadyEntered() && outcome == Done && pendingSpins == old(pendingSpins)
           && AccountsUnchanged()
           && hud.events == exits + [InventoryShown(hud.shownInventory)]
           && hud.spinEnabled == (restart || old(hud.spinEnabled))
         case SpinningState(cfg, rotation) =>
           && factory.Valid()
           && current == Some(next)
           && AccountsUnchanged()
           && !hud.spinEnabled && !hud.cashOutEnabled
           && hud.events == exits
           && hud.shownInventory == old(hud.shownInventory) && hud.imageKeys == old(hud.imageKeys)
           && hud.spinCmd == old(hud.spinCmd) && hud.cashOutCmd == old(hud.cashOutCmd)
           && hud.giveUpCmd == old(hud.giveUpCmd) && hud.zones == old(hud.zones)
           && SpinStarted(cfg, rotation, outcome)
         case LostState =>
           && current == Some(LostState) && outcome == Done && pendingSpins == old(pendingSpins)
           && AccountsUnchanged()
           && hud.failVisible && hud.events == exits + [LostShown]
           && hud.shownInventory == old(hud.shownInventory) && hud.imageKeys == old(hud.imageKeys)
           && hud.spinEnabled == (restart || old(hud.spinEnabled))
           && hud.cashOutEnabled == (restart || old(hud.cashOutEnabled))
           && wheel == old(wheel) && wheelSwapAnimated == old(wheelSwapAnimated)
           && hud.spinCmd == old(hud.spinCmd) && hud.cashOutCmd == old(hud.cashOutCmd)
           && hud.giveUpCmd == old(hud.giveUpCmd) && hud.zones == old(hud.zones)
         case CollectedState =>
           && IdleEntered() && outcome == Done && pendingSpins == old(pendingSpins)
           && zones.notified == old(zones.notified) + [zones.currentZone]
           && |hud.events| == |exits| + 3 && hud.events[..|exits|] == exits
           && hud.events[|exits|].CollectedShown?
           && IsSnapshotOf(hud.events[|exits|].entries, old(inventory.entries))
           && hud.events[|exits| + 1..] == [InventoryShown([]), InventoryShown([])]
           && hud.spinEnabled == (restart || old(hud.spinEnabled))
    }

    /** The effect of OnStop's Bomb branch: the accounts are cleared and the
        empty inventory is shown, then Lost is entered; the zone, the wheel
        and the bindings stay, and the buttons stay as they were unless Lost
        is left on the way. */
    twostate predicate Bombed()
      reads this, zones, bank, inventory, hud
    {
      var restart := old(current) == Some(LostState);
      && current == Some(LostState)
      && bank.total == 0 && inventory.entries == map[] && inventory.added == []
      && zones.currentZone == old(zones.currentZone) && zones.notified == old(zones.notified)
      && hud.failVisible && hud.shownInventory == [] && hud.imageKeys == {}
      && hud.events == old(hud.events) + [InventoryShown([])] + ExitEvents(old(current)) + [LostShown]
      && hud.spinEnabled == (restart || old(hud.spinEnabled))
      && hud.cashOutEnabled == (restart || old(hud.cashOutEnabled))
      && wheel == old(wheel) && wheelSwapAnimated == old(wheelSwapAnimated)
      && hud.spinCmd == old(hud.spinCmd) && hud.cashOutCmd == old(hud.cashOutCmd)
      && hud.giveUpCmd == old(hud.giveUpCmd) && hud.zones == old(hud.zones)
    }

    /** The effect of OnStop's branch for any other slice: bank and
        inventory take it, the zone advances by one, both buttons end up
        enabled; the state, the wheel and the bindings stay. */
    twostate predicate Prized(slice: SliceDef)
      reads this, zones, bank, inventory, hud
    {
      && current == old(current)
      && bank.total == Applied(old(bank.total), slice)
      && inventory.entries == AddTo(old(inventory.entries), slice)
      && zones.currentZone == old(zones.currentZone) + 1
      && zones.notified == old(zones.notified) + [zones.currentZone]
      && hud.spinEnabled && hud.cashOutEnabled
      && hud.failVisible == old(hud.failVisible)
      && IsSnapshotOf(hud.shownInventory, inventory.entries)
      && hud.imageKeys == RenderedKeys(hud.shownInventory)
      && hud.events == old(hud.events) + [InventoryShown(hud.shownInventory)]
      && wheel == old(wheel) && wheelSwapAnimated == old(wheelSwapAnimated)
      && hud.spinCmd == old(hud.spinCmd) && hud.cashOutCmd == old(hud.cashOutCmd)
      && hud.giveUpCmd == old(hud.giveUpCmd) && hud.zones == old(hud.zones)
    }

    /** The effect of running a command's action, `fsm.Enter<T>(cfg)`. */
    twostate predicate Ran(a: Action, outcome: Outcome)
      reads this, zones, bank, inventory, factory, hud
    {
      if a.target.OtherT? then
        outcome == NotSupported(a.target.name) && unchanged(this, zones, bank, inventory, hud)
      else
        Switched(Create(a.target, a.cfg).value, outcome)
    }

    /** Leaving Lost notifies the restart; the other states' Exit is empty. */
    method ExitCurrent()
      modifies hud`spinEnabled, hud`cashOutEnabled, hud`failVisible, hud`events
      ensures current == Some(LostState) ==>
        hud.spinEnabled && hud.cashOutEnabled && !hud.failVisible && hud.events == old(hud.events) + [Restarted]
      ensures current != Some(LostState) ==> unchanged(hud)
    {
      if current == Some(LostState) {
        hud.NotifyRestart();
      }
    }

    /** The first half of Idle's Enter: zone, bank and inventory reset. */
    method ResetAccounts()
      requires Valid()
      modifies zones, bank, inventory
      ensures Valid()
      ensures zones.currentZone == Max(1, zones.startZone)
      ensures zones.notified == old(zones.notified) + [zones.currentZone]
      ensures bank.total == 0 && inventory.entries == map[] && inventory.added == []
    {
      zones.Reset();
      bank.Reset();
      inventory.Reset();
    }

    /** The accounts part of an Idle or Ready entry: cash-out offered iff
        the zone is safe or super, and the inventory shown. */
    method ShowAccounts()
      requires Valid()
      modifies hud`cashOutEnabled, hud`shownInventory, hud`imageKeys, hud`events
      ensures hud.cashOutEnabled == IsCashOutZone(zones.currentZone)
      ensures IsSnapshotOf(hud.shownInventory, inventory.entries)
      ensures hud.imageKeys == RenderedKeys(hud.shownInventory)
      ensures hud.events == old(hud.events) + [InventoryShown(hud.shownInventory)]
    {
      var z := zones.currentZone;
      hud.ShowTotals(z, IsSafeZone(z) || IsSuperZone(z));
      var snap := inventory.Snapshot();
      hud.ShowInventory(snap);
    }

    /** The wheel part of an Idle or Ready entry: the wheel shows the config
        built for the zone, and the commands are bound, the spin command
        passing that config on when `passOn` holds. */
    method ShowWheel(animate: bool, passOn: bool)
      requires Valid()
      modifies this`wheel, this`wheelSwapAnimated, hud`spinCmd, hud`cashOutCmd, hud`giveUpCmd, hud`zones
      ensures Valid()
      ensures wheel == Some(factory.Built(zones.currentZone)) && wheelSwapAnimated == animate
      ensures BoundFor(if passOn then Some(factory.Built(zones.currentZone)) else None)
    {
      var cfg := factory.BuildFor(zones);
      wheel, wheelSwapAnimated := Some(cfg), animate;
      hud.Bind(Some(SpinCommand(EnterState(SpinningT, if passOn then Some(cfg) else None))),
               Some(CashOutCommand(EnterState(CollectedT, None))),
               Some(GiveUpCommand(EnterState(IdleT, None))),
               zones);
    }

    method EnterIdle()
      requires Valid() && current == Some(IdleState)
      modifies this`wheel, this`wheelSwapAnimated, zones, bank, inventory
      modifies hud`cashOutEnabled, hud`shownInventory, hud`imageKeys, hud`events
      modifies hud`spinCmd, hud`cashOutCmd, hud`giveUpCmd, hud`zones
      ensures Valid() && IdleEntered()
      ensures zones.notified == old(zones.notified) + [zones.currentZone]
      ensures hud.events == old(hud.events) + [InventoryShown([])]
      ensures hud.spinEnabled == old(hud.spinEnabled) && hud.failVisible == old(hud.failVisible)
    {
      ResetAccounts();
      ShowAccounts();
      SnapshotOfEmpty(hud.shownInventory);
      ShowWheel(false, false);
    }

    method EnterReady()
      requires Valid() && current == Some(ReadyState)
      modifies this`wheel, this`wheelSwapAnimated
      modifies hud`cashOutEnabled, hud`shownInventory, hud`imageKeys, hud`events
      modifies hud`spinCmd, hud`cashOutCmd, hud`giveUpCmd, hud`zones
      ensures Valid() && ReadyEntered()
      ensures hud.events == old(hud.events) + [InventoryShown(hud.shownInventory)]
      ensures hud.spinEnabled == old(hud.spinEnabled) && hud.failVisible == old(hud.failVisible)
    {
      var z := zones.currentZone;
      ShowAccounts();
      ShowWheel(IsSafeZone(z) || IsSuperZone(z) || IsSafeZone(z - 1) || IsSuperZone(z - 1), true);
    }

    /** Disables input, builds a config if none was handed over, rotates the
        slices by the state's rotation, draws an index in [0, |slices|) and
        starts the spin, whose completion is queued. */
    method EnterSpinning(config: Option<WheelConfig>, rotationValue: real) returns (outcome: Outcome)
      requires Valid()
      modifies this`wheel, this`wheelSwapAnimated, this`pendingSpins, hud`spinEnabled, hud`cashOutEnabled
      ensures Valid()
      ensures !hud.spinEnabled && !hud.cashOutEnabled
      ensures SpinStarted(config, rotationValue, outcome)
    {
      hud.SetButtonsEnabled(false);
      var cfg;
      if config.None? {
        cfg := factory.BuildFor(zones);
        wheel, wheelSwapAnimated := Some(cfg), false;
      } else {
        cfg := config.value;
      }
      cfg := RotateSlices(cfg, rotationValue);
      var count := |cfg.slices|;
      if count == 0 {
        return ArgumentOutOfRange;
      }
      var idx :| 0 <= idx < count;
      pendingSpins := pendingSpins + [PendingSpin(cfg, idx)];
      outcome := Done;
    }

    method EnterLost()
      modifies hud`failVisible, hud`events
      ensures hud.failVisible && hud.events == old(hud.events) + [LostShown]
    {
      hud.NotifyLost();
    }

    /** Shows the collected inventory, clears the accounts and enters Idle
        (Collected's own Exit is empty). */
    method EnterCollected()
      requires Valid() && current == Some(CollectedState)
      modifies this`current, this`wheel, this`wheelSwapAnimated, zones, bank, inventory, hud
      ensures Valid() && IdleEntered()
      ensures zones.notified == old(zones.notified) + [zones.currentZone]
      ensures |hud.events| == |old(hud.events)| + 3 && hud.events[..|old(hud.events)|] == old(hud.events)
      ensures hud.events[|old(hud.events)|].CollectedShown?
      ensures IsSnapshotOf(hud.events[|old(hud.events)|].entries, old(inventory.entries))
      ensures hud.events[|old(hud.events)| + 1..] == [InventoryShown([]), InventoryShown([])]
      ensures hud.spinEnabled == old(hud.spinEnabled) && hud.failVisible == old(hud.failVisible)
    {
      hud.NotifyCollected(inventory);
      bank.Reset();
      inventory.Reset();
      var snap := inventory.Snapshot();
      SnapshotOfEmpty(snap);
      hud.ShowInventory(snap);
      ghost var mid := hud.events;
      current := Some(IdleState);
      EnterIdle();
      assert hud.events == mid + [InventoryShown([])];
    }

    /** GameStateMachine.Set: the old state's Exit, then the new state
        becomes current and is entered. */
    method Set(next: State) returns (outcome: Outcome)
      requires Valid()
      modifies this`current, this`wheel, this`wheelSwapAnimated, this`pendingSpins, zones, bank, inventory, hud
      ensures Valid() && Switched(next, outcome)
    {
      match next {
        case IdleState => SetIdle(); outcome := Done;
        case ReadyState => SetReady(); outcome := Done;
        case SpinningState(cfg, rotation) => outcome := SetSpinning(cfg, rotation);
        case LostState => SetLost(); outcome := Done;
        case CollectedState => SetCollected(); outcome := Done;
      }
    }

    method SetIdle()
      requires Valid()
      modifies this`current, this`wheel, this`wheelSwapAnimated, this`pendingSpins, zones, bank, inventory, hud
      ensures Valid() && Switched(IdleState, Done)
    {
      ExitCurrent();
      current := Some(IdleState);
      EnterIdle();
    }

    method SetReady()
      requires Valid()
      modifies this`current, this`wheel, this`wheelSwapAnimated, this`pendingSpins, zones, bank, inventory, hud
      ensures Valid() && Switched(ReadyState, Done)
    {
      ExitCurrent();
      current := Some(ReadyState);
      EnterReady();
    }

    method SetSpinning(cfg: Option<WheelConfig>, rotation: real) returns (outcome: Outcome)
      requires Valid()
      modifies this`current, this`wheel, this`wheelSwapAnimated, this`pendingSpins, zones, bank, inventory, hud
      ensures Valid() && Switched(SpinningState(cfg, rotation), outcome)
    {
      ExitCurrent();
      current := Some(SpinningState(cfg, rotation));
      outcome := EnterSpinning(cfg, rotation);
    }

    method SetLost()
      requires Valid()
      modifies this`current, this`wheel, this`wheelSwapAnimated, this`pendingSpins, zones, bank, inventory, hud
      ensures Valid() && Switched(LostState, Done)
    {
      ExitCurrent();
      current := Some(LostState);
      EnterLost();
    }

    method SetCollected()
      requires Valid()
      modifies this`current, this`wheel, this`wheelSwapAnimated, this`pendingSpins, zones, bank, inventory, hud
      ensures Valid() && Switched(CollectedState, Done)
    {
      ExitCurrent();
      current := Some(CollectedState);
      EnterCollected();
    }

    /** GameStateMachine.Enter<T>(cfg). */
    method Enter(t: StateType, cfg: Option<WheelConfig>) returns (outcome: Outcome)
      requires Valid()
      modifies this`current, this`wheel, this`wheelSwapAnimated, this`pendingSpins, zones, bank, inventory, hud
      ensures Valid() && Ran(EnterState(t, cfg), outcome)
    {
      var s := Create(t, cfg);
      if s.None? {
        return NotSupported(t.name);
      }
      outcome := Set(s.value);
    }

    /** A click on the spin button: a button that is not interactable drops
        the click; otherwise the bound spin command runs, if any. */
    method PressSpin() returns (outcome: Outcome)
      requires Valid()
      modifies this`current, this`wheel, this`wheelSwapAnimated, this`pendingSpins, zones, bank, inventory, hud
      ensures Valid()
      ensures !old(hud.spinEnabled) || old(hud.spinCmd).None? ==>
        outcome == Done && unchanged(this, zones, bank, inventory, hud)
      ensures old(hud.spinEnabled) && old(hud.spinCmd).Some? ==> Ran(old(hud.spinCmd).value.action, outcome)
    {
      outcome := Done;
      if !hud.spinEnabled {
        return;
      }
      var run := hud.OnSpinPressed();
      if run.Some? {
        outcome := Enter(run.value.target, run.value.cfg);
      }
    }

    /** A click on the exit button: a button that is not interactable drops
        the click; otherwise cash-out runs only in a safe or super zone. */
    method PressCashOut() returns (outcome: Outcome)
      requires Valid()
      modifies this`current, this`wheel, this`wheelSwapAnimated, this`pendingSpins, zones, bank, inventory, hud
      ensures Valid()
      ensures !(old(hud.cashOutEnabled) && old(hud.zones) != null && IsCashOutZone(old(zones.currentZone))
                && old(hud.cashOutCmd).Some?) ==>
        outcome == Done && unchanged(this, zones, bank, inventory, hud)
      ensures old(hud.cashOutEnabled) && old(hud.zones) != null && IsCashOutZone(old(zones.currentZone))
              && old(hud.cashOutCmd).Some? ==>
        Ran(old(hud.cashOutCmd).value.action, outcome)
    {
      outcome := Done;
      if !hud.cashOutEnabled {
        return;
      }
      var run := hud.OnCashOutPressed();
      if run.Some? {
        outcome := Enter(run.value.target, run.value.cfg);
      }
    }

    /** The fail view's give-up button: runs the bound give-up command, if any. */
    method PressGiveUp() returns (outcome: Outcome)
      requires Valid()
      modifies this`current, this`wheel, this`wheelSwapAnimated, this`pendingSpins, zones, bank, inventory, hud
      ensures Valid()
      ensures old(hud.giveUpCmd).None? ==> outcome == Done && unchanged(this, zones, bank, inventory, hud)
      ensures old(hud.giveUpCmd).Some? ==> Ran(old(hud.giveUpCmd).value.action, outcome)
    {
      var run := hud.OnGiveUpPressed();
      outcome := Done;
      if run.Some? {
        outcome := Enter(run.value.target, run.value.cfg);
      }
    }

    /** SpinningState.OnStop for pending spin `k`, whenever the animation
        finishes and whatever state is current then. A Bomb clears the
        bank and the inventory before Lost is entered, and the zone stays.
        Any other slice is applied to the bank, then added to the
        inventory, then the zone advances; the buttons are re-enabled at
        once and Ready is only queued. */
    method CompleteSpin(k: int) returns (outcome: Outcome)
      requires Valid() && 0 <= k < |pendingSpins|
      modifies this`current, this`wheel, this`wheelSwapAnimated, this`pendingSpins, this`pendingReady,
               zones, bank, inventory, hud
      ensures Valid()
      ensures outcome == Done
      ensures pendingSpins == old(pendingSpins[..k] + pendingSpins[k + 1..])
      ensures var slice := old(pendingSpins[k].config.slices[pendingSpins[k].index]);
        slice.kind == Bomb ==> Bombed() && pendingReady == old(pendingReady)
      ensures var slice := old(pendingSpins[k].config.slices[pendingSpins[k].index]);
        slice.kind != Bomb ==>
          Prized(slice) && inventory.added == old(inventory.added) + [slice]
          && pendingReady == old(pendingReady) + [slice]
    {
      var p := pendingSpins[k];
      pendingSpins := pendingSpins[..k] + pendingSpins[k + 1..];
      var slice := p.config.slices[p.index];
      if slice.kind == Bomb {
        outcome := StopOnBomb();
      } else {
        StopOnPrize(slice);
        outcome := Done;
      }
    }

    /** OnStop's Bomb branch. */
    method StopOnBomb() returns (outcome: Outcome)
      requires Valid()
      modifies this`current, this`wheel, this`wheelSwapAnimated, this`pendingSpins, zones, bank, inventory, hud
      ensures Valid()
      ensures outcome == Done && Bombed()
      ensures pendingSpins == old(pendingSpins)
    {
      bank.Reset();
      inventory.Reset();
      var snap := inventory.Snapshot();
      SnapshotOfEmpty(snap);
      hud.ShowInventory(snap);
      outcome := Enter(LostT, None);
    }

    /** The prize's accounting: bank and inventory take the slice and the
        inventory view shows the result. */
    method Collect(slice: SliceDef)
      requires Valid()
      modifies bank, inventory, hud`shownInventory, hud`imageKeys, hud`events
      ensures Valid()
      ensures bank.total == Applied(old(bank.total), slice)
      ensures inventory.entries == AddTo(old(inventory.entries), slice)
      ensures inventory.added == old(inventory.added) + [slice]
      ensures IsSnapshotOf(hud.shownInventory, inventory.entries)
      ensures hud.imageKeys == RenderedKeys(hud.shownInventory)
      ensures hud.events == old(hud.events) + [InventoryShown(hud.shownInventory)]
    {
      bank.Apply(slice);
      inventory.Add(slice);
      var snap := inventory.Snapshot();
      hud.ShowInventory(snap);
    }

    /** OnStop's branch for a Reward or Multiplier slice: the prize is
        taken, then Ready is queued. */
    method StopOnPrize(slice: SliceDef)
      requires Valid() && slice.kind != Bomb
      modifies this`pendingReady, zones, bank, inventory
      modifies hud`shownInventory, hud`imageKeys, hud`events, hud`spinEnabled, hud`cashOutEnabled
      ensures Valid()
      ensures Prized(slice) && inventory.added == old(inventory.added) + [slice]
      ensures pendingReady == old(pendingReady) + [slice]
    {
      TakePrize(slice);
      pendingReady := pendingReady + [slice];
    }

    /** The prize's accounting, then the zone's advance. */
    method TakePrize(slice: SliceDef)
      requires Valid()
      modifies zones, bank, inventory
      modifies hud`shownInventory, hud`imageKeys, hud`events, hud`spinEnabled, hud`cashOutEnabled
      ensures Valid()
      ensures Prized(slice) && inventory.added == old(inventory.added) + [slice]
    {
      Collect(slice);
      AdvanceZone();
    }

    /** The zone half of the prize: the zone advances (notified), cash-out
        is recomputed for the new zone, then both buttons are enabled. */
    method AdvanceZone()
      requires Valid()
      modifies zones, hud`spinEnabled, hud`cashOutEnabled
      ensures Valid()
      ensures zones.currentZone == old(zones.currentZone) + 1
      ensures zones.notified == old(zones.notified) + [zones.currentZone]
      ensures hud.spinEnabled && hud.cashOutEnabled
    {
      zones.Advance();
      var z := zones.currentZone;
      hud.ShowTotals(z, IsSafeZone(z) || IsSuperZone(z));
      hud.SetButtonsEnabled(true);
    }

    /** The deferred callback `k`: plays the reward flight for its slice and
        enters Ready, whatever state is current then. When the flight's
        target lookup throws, the callback stops there: Ready is not
        entered and nothing else changes. */
    method FireDeferredReady(k: int) returns (outcome: Outcome)
      requires Valid() && 0 <= k < |pendingReady|
      modifies this`current, this`wheel, this`wheelSwapAnimated, this`pendingSpins, this`pendingReady,
               zones, bank, inventory, hud
      ensures Valid()
      ensures pendingReady == old(pendingReady[..k] + pendingReady[k + 1..])
      ensures pendingSpins == old(pendingSpins)
      ensures outcome == FlowLookup(old(hud.imageKeys), old(pendingReady[k]))
      ensures outcome != Done ==>
        && unchanged(zones, bank, inventory, hud)
        && current == old(current) && wheel == old(wheel) && wheelSwapAnimated == old(wheelSwapAnimated)
      ensures outcome == Done ==> ReadyAfterFlow(old(pendingReady[k]))
    {
      var slice := pendingReady[k];
      pendingReady := pendingReady[..k] + pendingReady[k + 1..];
      outcome := FlyThenEnterReady(slice);
    }

    /** The effect of the callback when the flight's lookup succeeds: the
        flight is recorded, then Ready is entered from whatever state is
        current, with the accounts unchanged. */
    twostate predicate ReadyAfterFlow(slice: SliceDef)
      reads this, zones, bank, inventory, factory, hud
    {
      && ReadyEntered() && AccountsUnchanged()
      && hud.events == old(hud.events) + [RewardFlow(slice)] + ExitEvents(old(current))
                       + [InventoryShown(hud.shownInventory)]
      && hud.spinEnabled == (old(current) == Some(LostState) || old(hud.spinEnabled))
      && hud.failVisible == (old(current) != Some(LostState) && old(hud.failVisible))
    }

    /** The callback's body: `NotifyRewardFlowAnimation(slice)`, then
        `fsm.Enter<ReadyState>()` unless the first threw. */
    method FlyThenEnterReady(slice: SliceDef) returns (outcome: Outcome)
      requires Valid()
      modifies this`current, this`wheel, this`wheelSwapAnimated, this`pendingSpins, zones, bank, inventory, hud
      ensures Valid()
      ensures pendingSpins == old(pendingSpins)
      ensures outcome == FlowLookup(old(hud.imageKeys), slice)
      ensures outcome != Done ==>
        && unchanged(zones, bank, inventory, hud)
        && current == old(current) && wheel == old(wheel) && wheelSwapAnimated == old(wheelSwapAnimated)
      ensures outcome == Done ==> ReadyAfterFlow(slice)
    {
      outcome := hud.NotifyRewardFlowAnimation(slice);
      if outcome != Done {
        return;
      }
      outcome := EnterReadyLater();
    }

    /** The callback's `fsm.Enter<ReadyState>()`, spelled out. */
    method EnterReadyLater() returns (outcome: Outcome)
      requires Valid()
      modifies this`current, this`wheel, this`wheelSwapAnimated, this`pendingSpins, zones, bank, inventory, hud
      ensures Valid() && outcome == Done
      ensures ReadyEntered() && AccountsUnchanged() && pendingSpins == old(pendingSpins)
      ensures hud.events == old(hud.events) + ExitEvents(old(current)) + [InventoryShown(hud.shownInventory)]
      ensures hud.spinEnabled == (old(current) == Some(LostState) || old(hud.spinEnabled))
      ensures hud.failVisible == (old(current) != Some(LostState) && old(hud.failVisible))
    {
      outcome := Enter(ReadyT, None);
    }
  }
}
