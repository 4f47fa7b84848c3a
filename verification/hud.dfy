/** The HUD presenter (Assets/Scripts/UI/HUDPresenter.cs). The view it drives
    (Assets/Scripts/UI/HUDView.cs) is abstracted into fields: whether the spin
    and exit (cash-out) buttons are interactable, whether the fail view is
    shown, the inventory last rendered and the keys of the image map that
    rendering filled, and a ghost log of one-shot
    notifications. Commands carry the state-machine action their lambda runs;
    the press handlers hand that action back to the machine, which runs it. */
module Hud {
  import opened WheelData
  import opened Zones
  import opened Inventory
  import opened CSharpString

  /** The type argument of GameStateMachine.Enter<T>; `OtherT` is any
      IGameState outside the five the machine knows. */
  datatype StateType = IdleT | ReadyT | SpinningT | LostT | CollectedT | OtherT(name: string)

  /** `fsm.Enter<T>(cfg)`, the body of every command lambda. */
  datatype Action = EnterState(target: StateType, cfg: Option<WheelConfig>)

  datatype Command = SpinCommand(action: Action) | CashOutCommand(action: Action) | GiveUpCommand(action: Action)

  datatype HudEvent =
    | InventoryShown(entries: seq<Entry>)
    | LostShown
    | Restarted
    | CollectedShown(entries: seq<Entry>)
    | RewardFlow(slice: SliceDef)

  /** The keys of the inventory view's image map after it rendered
      `entries`: rendering clears the map and refills it with each entry's
      trimmed id (Assets/Scripts/UI/InventoryView.cs:20-29). */
  function RenderedKeys(entries: seq<Entry>): (keys: set<string>)
    ensures forall i :: 0 <= i < |entries| ==> Trim(entries[i].id) in keys
    ensures forall key :: key in keys ==> exists i :: 0 <= i < |entries| && Trim(entries[i].id) == key
  {
    set i | 0 <= i < |entries| :: Trim(entries[i].id)
  }

  /** The reward flight's target lookup, `imageRefMap[id.Trim()]`: a null id
      throws at `Trim()`, an id not among the image map's keys throws at the
      dictionary. */
  function FlowLookup(keys: set<string>, slice: SliceDef): Outcome {
    match slice.id
    case None => NullReference
    case Some(s) => if Trim(s) in keys then Done else KeyNotFound
  }

  /** Every image key of a rendered snapshot is a trimmed key of the
      dictionary. */
  lemma RenderedFromKeys(r: seq<Entry>, m: map<string, Entry>, t: string)
    requires IsSnapshotOf(r, m) && t in RenderedKeys(r)
    ensures exists key :: key in m && Trim(key) == t
  {
    var i :| 0 <= i < |r| && Trim(r[i].id) == t;
    assert r[i].id in m;
  }

  /** Every trimmed key of the dictionary is an image key of a rendered
      snapshot of it. */
  lemma KeysRendered(r: seq<Entry>, m: map<string, Entry>, key: string)
    requires IsSnapshotOf(r, m) && key in m
    ensures Trim(key) in RenderedKeys(r)
  {
    SnapshotCovers(r, m);
    var i :| 0 <= i < |r| && r[i].id == key;
  }

  /** Rendering a snapshot of an inventory dictionary fills the image map
      with the trimmed keys of the dictionary. */
  lemma RenderedSnapshot(r: seq<Entry>, m: map<string, Entry>)
    requires IsSnapshotOf(r, m)
    ensures RenderedKeys(r) == set key | key in m :: Trim(key)
  {
    forall t | t in RenderedKeys(r)
      ensures t in set key | key in m :: Trim(key)
    {
      RenderedFromKeys(r, m, t);
    }
    forall key | key in m
      ensures Trim(key) in RenderedKeys(r)
    {
      KeysRendered(r, m, key);
    }
  }

  /** Against a rendered snapshot of an inventory dictionary, the lookup
      succeeds exactly when the slice's id and some key agree once both are
      trimmed. */
  lemma FlowLookupBySnapshot(m: map<string, Entry>, r: seq<Entry>, slice: SliceDef)
    requires IsSnapshotOf(r, m)
    ensures FlowLookup(RenderedKeys(r), slice) == Done <==>
      slice.id.Some? && exists key :: key in m && Trim(key) == Trim(slice.id.value)
    ensures slice.id.None? ==> FlowLookup(RenderedKeys(r), slice) == NullReference
  {
    RenderedSnapshot(r, m);
  }

  /** A Reward with a non-empty id, once added, can always be found: its id
      is the key it was filed under. */
  lemma FlowFindsAddedReward(m: map<string, Entry>, slice: SliceDef, r: seq<Entry>)
    requires forall key :: key in m ==> m[key].id == key
    requires slice.kind == Reward && slice.id.Some? && slice.id.value != ""
    requires IsSnapshotOf(r, AddTo(m, slice))
    ensures FlowLookup(RenderedKeys(r), slice) == Done
  {
    AddToEffect(m, slice);
    var key := slice.id.value;
    assert key in AddTo(m, slice);
    FlowLookupBySnapshot(AddTo(m, slice), r, slice);
  }

  /** "_anon" is its own trim. */
  lemma AnonIsTrimmed()
    ensures Trim("_anon") == "_anon"
  {
    TrimOfTrimmed("_anon");
  }

  /** Filing a Reward with an empty id adds "_anon", whose trim is not
      empty. */
  lemma EmptyIdKeepsKeysNonBlank(m: map<string, Entry>, slice: SliceDef)
    requires forall key :: key in m ==> Trim(key) != ""
    requires slice.kind == Reward && slice.id == Some("")
    ensures forall key :: key in AddTo(m, slice) ==> Trim(key) != ""
  {
    AddToEffect(m, slice);
    forall key | key in AddTo(m, slice)
      ensures Trim(key) != ""
    {
      if key !in m {
        assert key == KeyOf(slice.id) == "_anon";
        AnonIsTrimmed();
      }
    }
  }

  /** A Reward with an empty id is filed under "_anon", so after it is
      added its flight's lookup of "" fails unless some earlier key trims to
      the empty string. */
  lemma EmptyIdFlowMisses(m: map<string, Entry>, slice: SliceDef, r: seq<Entry>)
    requires forall key :: key in m ==> Trim(key) != ""
    requires slice.kind == Reward && slice.id == Some("")
    requires IsSnapshotOf(r, AddTo(m, slice))
    ensures FlowLookup(RenderedKeys(r), slice) == KeyNotFound
  {
    EmptyIdKeepsKeysNonBlank(m, slice);
    TrimOfTrimmed("");
    FlowLookupBySnapshot(AddTo(m, slice), r, slice);
  }

  /** A Multiplier is never filed, so its flight's lookup fails unless some
      Reward was filed under an id that trims to the same string. */
  lemma MultiplierFlowMisses(m: map<string, Entry>, slice: SliceDef, r: seq<Entry>)
    requires forall key :: key in m ==> m[key].id == key
    requires slice.kind == Multiplier && slice.id.Some?
    requires forall key :: key in m ==> Trim(key) != Trim(slice.id.value)
    requires IsSnapshotOf(r, AddTo(m, slice))
    ensures FlowLookup(RenderedKeys(r), slice) == KeyNotFound
  {
    FlowLookupBySnapshot(AddTo(m, slice), r, slice);
  }

  /** An empty image map, as after an empty render, makes every lookup
      throw. */
  lemma EmptyMapFlowThrows(slice: SliceDef)
    ensures FlowLookup({}, slice) != Done
    ensures slice.id.Some? ==> FlowLookup({}, slice) == KeyNotFound
  {
  }

  /** The lookup trims the id, so white space around it never matters: the
      image map's keys are trimmed, and trimming is idempotent. */
  lemma FlowIgnoresSurroundingWhiteSpace(keys: set<string>, slice: SliceDef)
    requires slice.id.Some?
    ensures FlowLookup(keys, slice.(id := Some(Trim(slice.id.value)))) == FlowLookup(keys, slice)
  {
    TrimIdempotent(slice.id.value);
  }

  /** A null id throws before any lookup. */
  lemma NullIdFlowThrows(keys: set<string>, kind: SliceType, value: int, icon: Option<Icon>)
    ensures FlowLookup(keys, SliceDef(None, kind, value, icon)) == NullReference
  {
  }

  class HUDPresenter {
    var spinCmd: Option<Command>
    var cashOutCmd: Option<Command>
    var giveUpCmd: Option<Command>
    var zones: ZoneService?
    var spinEnabled: bool
    var cashOutEnabled: bool
    var failVisible: bool
    var shownInventory: seq<Entry>
    var imageKeys: set<string>
    ghost var events: seq<HudEvent>

    /** Nothing is bound yet; the view's initial flags are scene data. */
    constructor ()
      ensures spinCmd == None && cashOutCmd == None && giveUpCmd == None && zones == null
      ensures imageKeys == {} && events == []
    {
      spinCmd, cashOutCmd, giveUpCmd, zones := None, None, None, null;
      imageKeys := {};
      events := [];
    }

    /** Replaces all three commands and the zone reference at once. */
    method Bind(spin: Option<Command>, cashOut: Option<Command>, giveUp: Option<Command>, z: ZoneService?)
      modifies this`spinCmd, this`cashOutCmd, this`giveUpCmd, this`zones
      ensures spinCmd == spin && cashOutCmd == cashOut && giveUpCmd == giveUp && zones == z
    {
      spinCmd := spin;
      cashOutCmd := cashOut;
      giveUpCmd := giveUp;
      zones := z;
    }

    /** Shows or hides cash-out; the zone argument is not used. */
    method ShowTotals(zone: int, canCashOut: bool)
      modifies this`cashOutEnabled
      ensures cashOutEnabled == canCashOut
    {
      cashOutEnabled := canCashOut;
    }

    /** Renders the entries; the view's image map is rebuilt from them. */
    method ShowInventory(entries: seq<Entry>)
      modifies this`shownInventory, this`imageKeys, this`events
      ensures shownInventory == entries && imageKeys == RenderedKeys(entries)
      ensures events == old(events) + [InventoryShown(entries)]
    {
      shownInventory := entries;
      imageKeys := RenderedKeys(entries);
      events := events + [InventoryShown(entries)];
    }

    /** Both buttons follow `on`; the exit button is the cash-out button. */
    method SetButtonsEnabled(on: bool)
      modifies this`spinEnabled, this`cashOutEnabled
      ensures spinEnabled == on && cashOutEnabled == on
    {
      spinEnabled := on;
      cashOutEnabled := on;
    }

    method NotifyLost()
      modifies this`failVisible, this`events
      ensures failVisible && events == old(events) + [LostShown]
    {
      failVisible := true;
      events := events + [LostShown];
    }

    /** Re-enables both buttons and hides the fail view. */
    method NotifyRestart()
      modifies this`spinEnabled, this`cashOutEnabled, this`failVisible, this`events
      ensures spinEnabled && cashOutEnabled && !failVisible
      ensures events == old(events) + [Restarted]
    {
      SetButtonsEnabled(true);
      failVisible := false;
      events := events + [Restarted];
    }

    /** Passes a snapshot of the inventory, as it is now, to the showcase. */
    method NotifyCollected(inv: RewardInventory)
      requires inv.Valid()
      modifies this`events
      ensures |events| == |old(events)| + 1 && events[..|old(events)|] == old(events)
      ensures events[|old(events)|].CollectedShown? && IsSnapshotOf(events[|old(events)|].entries, inv.entries)
    {
      var snap := inv.Snapshot();
      events := events + [CollectedShown(snap)];
    }

    /** Looks up the flight's target in the inventory view's image map,
        then plays the flight, recorded as an event. When the lookup throws,
        nothing is played. */
    method NotifyRewardFlowAnimation(slice: SliceDef) returns (outcome: Outcome)
      modifies this`events
      ensures outcome == FlowLookup(imageKeys, slice)
      ensures outcome == Done ==> events == old(events) + [RewardFlow(slice)]
      ensures outcome != Done ==> events == old(events)
    {
      if slice.id.None? {
        return NullReference;
      }
      if Trim(slice.id.value) !in imageKeys {
        return KeyNotFound;
      }
      events := events + [RewardFlow(slice)];
      outcome := Done;
    }

    /** The action the spin command runs, if one is bound. */
    method OnSpinPressed() returns (run: Option<Action>)
      ensures run.Some? <==> spinCmd.Some?
      ensures run.Some? ==> run.value == spinCmd.value.action
    {
      run := if spinCmd.Some? then Some(spinCmd.value.action) else None;
    }

    /** The cash-out command runs only when a zone service is bound and its
        current zone is safe or super; otherwise pressing does nothing. */
    method OnCashOutPressed() returns (run: Option<Action>)
      ensures run.Some? <==> zones != null && IsCashOutZone(zones.currentZone) && cashOutCmd.Some?
      ensures run.Some? ==> run.value == cashOutCmd.value.action
    {
      run := None;
      if zones != null && (IsSafeZone(zones.currentZone) || IsSuperZone(zones.currentZone)) {
        run := if cashOutCmd.Some? then Some(cashOutCmd.value.action) else None;
      }
    }

    /** The action the give-up command runs, if one is bound. */
    method OnGiveUpPressed() returns (run: Option<Action>)
      ensures run.Some? <==> giveUpCmd.Some?
      ensures run.Some? ==> run.value == giveUpCmd.value.action
    {
      run := if giveUpCmd.Some? then Some(giveUpCmd.value.action) else None;
    }
  }
}
