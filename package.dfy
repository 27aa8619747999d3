/**
 * The package lifecycle (Package in logistics/models.py): a state field with
 * five states, five guarded transitions declared by @transition, and a
 * tracking id assigned on the first save.
 */
module Packages {
  import opened Wrappers

  datatype PackageState = Pending | InTransit | OutForDelivery | Delivered | Cancelled

  datatype Action = StartTransit | MoveToLocation | StartDelivery | CompleteDelivery | CancelPackage

  /**
   * The transition table: the target state of an action when the current state
   * is one of its declared sources, and None (TransitionNotAllowed) otherwise.
   */
  function Next(s: PackageState, a: Action): Option<PackageState> {
    match a
    case StartTransit => if s == Pending then Some(InTransit) else None
    case MoveToLocation => if s == InTransit then Some(InTransit) else None
    case StartDelivery => if s == InTransit then Some(OutForDelivery) else None
    case CompleteDelivery => if s == OutForDelivery then Some(Delivered) else None
    case CancelPackage => if s == Pending || s == InTransit then Some(Cancelled) else None
  }

  predicate Terminal(s: PackageState) {
    s == Delivered || s == Cancelled
  }

  /** The state after attempting the actions in order; a rejected action changes nothing. */
  function Run(s: PackageState, actions: seq<Action>): PackageState
    decreases |actions|
  {
    if actions == [] then s
    else
      var t := Next(s, actions[0]);
      Run(if t.Some? then t.value else s, actions[1..])
  }

  /** No transition leaves a terminal state, and every other state has one. */
  lemma TerminalHasNoTransition(s: PackageState)
    ensures Terminal(s) <==> forall a :: Next(s, a) == None
  {
    if !Terminal(s) {
      assert Next(s, CancelPackage).Some? || Next(s, CompleteDelivery).Some?;
    }
  }

  /** Cancelling is allowed from pending and in transit only, never once out for delivery. */
  lemma CancelSources(s: PackageState)
    ensures Next(s, CancelPackage).Some? <==> s == Pending || s == InTransit
    ensures Next(s, CancelPackage).Some? ==> Next(s, CancelPackage).value == Cancelled
  {
  }

  /** Whatever is attempted later, a delivered or cancelled package stays as it is. */
  lemma {:induction false} TerminalAbsorbs(s: PackageState, actions: seq<Action>)
    requires Terminal(s)
    ensures Run(s, actions) == s
    decreases |actions|
  {
    if actions != [] {
      assert Next(s, actions[0]) == None;
      TerminalAbsorbs(s, actions[1..]);
    }
  }

  /** A package reaches delivered only through a complete_delivery. */
  lemma {:induction false} DeliveredNeedsCompletion(s: PackageState, actions: seq<Action>)
    requires s != Delivered && Run(s, actions) == Delivered
    ensures exists i :: 0 <= i < |actions| && actions[i] == CompleteDelivery
    decreases |actions|
  {
    var t := Next(s, actions[0]);
    var s' := if t.Some? then t.value else s;
    if actions[0] != CompleteDelivery {
      assert s' != Delivered;
      DeliveredNeedsCompletion(s', actions[1..]);
      var i :| 0 <= i < |actions[1..]| && actions[1..][i] == CompleteDelivery;
      assert actions[i + 1] == CompleteDelivery;
    }
  }

  /** How far along the lifecycle a state is; both terminal states are last. */
  function Stage(s: PackageState): nat {
    match s
    case Pending => 0
    case InTransit => 1
    case OutForDelivery => 2
    case Delivered => 3
    case Cancelled => 3
  }

  /** Every allowed transition moves forward or stays in transit; none goes back. */
  lemma {:induction false} NeverBackwards(s: PackageState, actions: seq<Action>)
    ensures Stage(Run(s, actions)) >= Stage(s)
    decreases |actions|
  {
    if actions != [] {
      var t := Next(s, actions[0]);
      var s' := if t.Some? then t.value else s;
      assert Stage(s') >= Stage(s);
      NeverBackwards(s', actions[1..]);
    }
  }

  predicate IsLowerHex(c: char) {
    ('0' <= c <= '9') || ('a' <= c <= 'f')
  }

  predicate IsUpperHex(c: char) {
    ('0' <= c <= '9') || ('A' <= c <= 'F')
  }

  /** Python's str.upper on one character of a hex string. */
  function ToUpper(c: char): (r: char)
    ensures IsLowerHex(c) ==> IsUpperHex(r)
    ensures '0' <= c <= '9' ==> r == c
    ensures 'a' <= c <= 'f' ==> r == "ABCDEF"[c as int - 'a' as int]
  {
    if 'a' <= c <= 'z' then (c as int - 32) as char else c
  }

  /**
   * "PKG-" followed by the first 12 characters of a uuid4 hex string
   * (32 lower-case hex digits), upper-cased.
   */
  function TrackingId(uuidHex: string): (r: string)
    requires |uuidHex| == 32 && forall i :: 0 <= i < |uuidHex| ==> IsLowerHex(uuidHex[i])
    ensures |r| == 16 && r[..4] == "PKG-"
    ensures forall i :: 4 <= i < 16 ==> IsUpperHex(r[i])
    ensures forall i :: 0 <= i < 12 ==> ToUpper(uuidHex[i]) == r[4 + i]
  {
    var digits := seq(12, i requires 0 <= i < 12 => ToUpper(uuidHex[i]));
    assert forall i :: 0 <= i < 12 ==> IsUpperHex(digits[i]);
    "PKG-" + digits
  }

  class Package {
    var trackingId: string
    var origin: int
    var currentLocation: int
    var destination: int
    var weightKg: real
    var description: string
    var state: PackageState
    var deliveredAt: Option<int>

    /** A new package: pending, no tracking id until saved, not delivered. */
    constructor (origin: int, currentLocation: int, destination: int, weightKg: real, description: string)
      ensures state == Pending && trackingId == "" && deliveredAt == None
      ensures this.origin == origin && this.currentLocation == currentLocation && this.destination == destination
      ensures this.weightKg == weightKg && this.description == description
    {
      trackingId := "";
      this.origin := origin;
      this.currentLocation := currentLocation;
      this.destination := destination;
      this.weightKg := weightKg;
      this.description := description;
      state := Pending;
      deliveredAt := None;
    }

    /** save: assigns a tracking id only when there is none; an existing id never changes. */
    method Save(uuidHex: string)
      requires |uuidHex| == 32 && forall i :: 0 <= i < |uuidHex| ==> IsLowerHex(uuidHex[i])
      modifies this`trackingId
      ensures trackingId == if old(trackingId) == "" then TrackingId(uuidHex) else old(trackingId)
    {
      if trackingId == "" {
        trackingId := TrackingId(uuidHex);
      }
    }

    /** start_transit: pending to in transit. */
    method StartTransit() returns (ok: bool)
      modifies this`state
      ensures ok <==> old(state) == Pending
      ensures state == if ok then InTransit else old(state)
      ensures ok == Next(old(state), Action.StartTransit).Some? && (ok ==> state == Next(old(state), Action.StartTransit).value)
    {
      ok := state == Pending;
      if ok {
        state := InTransit;
      }
    }

    /** move_to_location: in transit stays in transit at the new location. */
    method MoveToLocation(newLocation: int) returns (ok: bool)
      modifies this`state, this`currentLocation
      ensures ok <==> old(state) == InTransit
      ensures state == old(state)
      ensures currentLocation == if ok then newLocation else old(currentLocation)
      ensures ok == Next(old(state), Action.MoveToLocation).Some? && (ok ==> state == Next(old(state), Action.MoveToLocation).value)
    {
      ok := state == InTransit;
      if ok {
        currentLocation := newLocation;
        state := InTransit;
      }
    }

    /** start_delivery: in transit to out for delivery. */
    method StartDelivery() returns (ok: bool)
      modifies this`state
      ensures ok <==> old(state) == InTransit
      ensures state == if ok then OutForDelivery else old(state)
      ensures ok == Next(old(state), Action.StartDelivery).Some? && (ok ==> state == Next(old(state), Action.StartDelivery).value)
    {
      ok := state == InTransit;
      if ok {
        state := OutForDelivery;
      }
    }

    /** complete_delivery: out for delivery to delivered, stamping the delivery time. */
    method CompleteDelivery(now: int) returns (ok: bool)
      modifies this`state, this`deliveredAt
      ensures ok <==> old(state) == OutForDelivery
      ensures state == if ok then Delivered else old(state)
      ensures deliveredAt == if ok then Some(now) else old(deliveredAt)
      ensures ok == Next(old(state), Action.CompleteDelivery).Some? && (ok ==> state == Next(old(state), Action.CompleteDelivery).value)
    {
      ok := state == OutForDelivery;
      if ok {
        deliveredAt := Some(now);
        state := Delivered;
      }
    }

    /** cancel_package: pending or in transit to cancelled. */
    method CancelPackage() returns (ok: bool)
      modifies this`state
      ensures ok <==> old(state) == Pending || old(state) == InTransit
      ensures state == if ok then Cancelled else old(state)
      ensures ok == Next(old(state), Action.CancelPackage).Some? && (ok ==> state == Next(old(state), Action.CancelPackage).value)
    {
      ok := state == Pending || state == InTransit;
      if ok {
        state := Cancelled;
      }
    }
  }
}
