/**
 * The two-way binding between the monthly usage field and the monthly bill
 * field, with the tariff blind spot handled on the bill side
 * (src/App.tsx:94-130). The flow diagram, the savings graphs and the plan
 * recommender repeat the same two handlers; their own "fix bill" button
 * differs from the calculator's in that it leaves the usage alone.
 *
 * The handlers are written once as pure steps on a `SyncState` and once as
 * the methods of a class whose fields they update in place.
 */
module BillSync {
  import opened Types
  import opened JsMath

  /** The bill for 1500 kWh: the lower end of the blind spot. */
  function GapLower(e: Engine): real {
    e.calculateBill(1500.0).finalTotal
  }

  /** The bill for 1501 kWh: the upper end of the blind spot. */
  function GapUpper(e: Engine): real {
    e.calculateBill(1501.0).finalTotal
  }

  /** A bill strictly between the bills for 1500 and 1501 kWh. */
  predicate InBlindSpot(e: Engine, bill: real) {
    GapLower(e) < bill < GapUpper(e)
  }

  /** The usage the bill field snaps to inside the blind spot. */
  const SNAP_USAGE: real := 1501.0

  /** The bill shown for a usage: `parseFloat(calculateBill(u).finalTotal.toFixed(2))`. */
  function DisplayedBill(e: Engine, usage: real): (r: real)
    ensures e.calculateBill(usage).finalTotal - 0.005 < r <= e.calculateBill(usage).finalTotal + 0.005
  {
    RoundTo(e.calculateBill(usage).finalTotal, 2)
  }

  /** The bill the "fix" button writes: the upper end of the blind spot to one decimal. */
  function FixedBill(e: Engine): (r: real)
    ensures GapUpper(e) - 0.05 < r <= GapUpper(e) + 0.05
  {
    RoundTo(GapUpper(e), 1)
  }

  datatype SyncState = SyncState(usageKwh: Field<real>, billAmount: Field<real>, gapWarning: bool)

  /**
   * `handleUsageChange`: the usage takes the new value, the warning is
   * cleared, and the bill follows the usage (to the cent) or is emptied
   * with it. Nothing of the previous state survives.
   */
  function UsageChanged(e: Engine, val: Field<real>): (r: SyncState)
    ensures r.usageKwh == val && !r.gapWarning
    ensures val.Num? ==>
      && r.billAmount.Num?
      && e.calculateBill(val.value).finalTotal - 0.005 < r.billAmount.value
      && r.billAmount.value <= e.calculateBill(val.value).finalTotal + 0.005
    ensures val.Num? ==> r.billAmount == Num(DisplayedBill(e, val.value))
    ensures val.Blank? <==> r.billAmount.Blank?
  {
    match val
    case Num(u) => SyncState(val, Num(DisplayedBill(e, u)), false)
    case Blank => SyncState(val, Blank, false)
  }

  /**
   * `handleBillChange`: the bill takes the new value; the warning is raised
   * exactly when the value lies in the blind spot, and then the usage snaps
   * to 1501 kWh; otherwise the usage is the engine's inverse of the bill,
   * or empty with it.
   */
  function BillChanged(e: Engine, val: Field<real>): (r: SyncState)
    ensures r.billAmount == val
    ensures r.gapWarning <==> val.Num? && InBlindSpot(e, val.value)
    ensures r.gapWarning ==> r.usageKwh == Num(SNAP_USAGE)
    ensures val.Num? && !InBlindSpot(e, val.value) ==> r.usageKwh == Num(e.getKwhFromBill(val.value))
    ensures val.Blank? <==> r.usageKwh.Blank?
  {
    if val.Num? && GapLower(e) < val.value && val.value < GapUpper(e) then
      SyncState(Num(SNAP_USAGE), val, true)
    else
      match val
      case Num(b) => SyncState(Num(e.getKwhFromBill(b)), val, false)
      case Blank => SyncState(Blank, val, false)
  }

  /** The calculator's `fixBillAmount`: bill at the upper gap bound, usage 1501 kWh, no warning. */
  function AppFix(e: Engine): (r: SyncState)
    ensures !r.gapWarning && r.usageKwh == Num(SNAP_USAGE)
    ensures r.billAmount.Num? && GapUpper(e) - 0.05 < r.billAmount.value <= GapUpper(e) + 0.05
  {
    SyncState(Num(SNAP_USAGE), Num(FixedBill(e)), false)
  }

  /** The components' `fixBillAmount`: as the calculator's, but the usage is left as it was. */
  function ComponentFix(e: Engine, s: SyncState): (r: SyncState)
    ensures !r.gapWarning && r.usageKwh == s.usageKwh
    ensures r.billAmount == AppFix(e).billAmount
  {
    SyncState(s.usageKwh, Num(FixedBill(e)), false)
  }

  /**
   * The two fields agree: either the warning is up, the bill lies in the
   * blind spot and the usage is 1501 kWh; or both fields are empty; or the
   * bill is the one shown for the usage; or the usage is the inverse of a
   * bill outside the blind spot; or the fix button has just set both.
   * Without the warning the alternatives are close to the union of what the
   * handlers produce, so `HandlersSync` is near-definitional; the invariant's
   * real content is the warning clause: whenever the warning shows, the bill
   * is in the blind spot and the usage is 1501 kWh, which `RunStaysSynced`
   * keeps over any run of user actions.
   */
  predicate Synced(e: Engine, s: SyncState) {
    if s.gapWarning then
      s.billAmount.Num? && InBlindSpot(e, s.billAmount.value) && s.usageKwh == Num(SNAP_USAGE)
    else
      || (s.usageKwh.Blank? && s.billAmount.Blank?)
      || (s.usageKwh.Num? && s.billAmount == Num(DisplayedBill(e, s.usageKwh.value)))
      || (s.billAmount.Num? && !InBlindSpot(e, s.billAmount.value)
          && s.usageKwh == Num(e.getKwhFromBill(s.billAmount.value)))
      || s == AppFix(e)
  }

  /** Whatever the previous state, each handler leaves the two fields in agreement. */
  lemma HandlersSync(e: Engine, val: Field<real>)
    ensures Synced(e, UsageChanged(e, val))
    ensures Synced(e, BillChanged(e, val))
    ensures Synced(e, AppFix(e))
  {
  }

  /**
   * While the warning shows (the only time the components render their fix
   * button) the components' fix and the calculator's fix give the same state.
   */
  lemma FixesAgreeUnderWarning(e: Engine, s: SyncState)
    requires Synced(e, s) && s.gapWarning
    ensures ComponentFix(e, s) == AppFix(e)
  {
  }

  /** A user action on one of the forms. */
  datatype Event = UsageEdited(usage: Field<real>) | BillEdited(bill: Field<real>) | FixClicked

  /**
   * One event. The fix button exists only while the warning shows, so a
   * click without the warning changes nothing. `snapsUsage` tells the
   * calculator's fix (which sets the usage) from the components'.
   */
  function Step(e: Engine, s: SyncState, ev: Event, snapsUsage: bool): SyncState {
    match ev
    case UsageEdited(u) => UsageChanged(e, u)
    case BillEdited(b) => BillChanged(e, b)
    case FixClicked =>
      if !s.gapWarning then s
      else if snapsUsage then AppFix(e)
      else ComponentFix(e, s)
  }

  function Run(e: Engine, s: SyncState, events: seq<Event>, snapsUsage: bool): SyncState
    decreases |events|
  {
    if events == [] then s else Run(e, Step(e, s, events[0], snapsUsage), events[1..], snapsUsage)
  }

  /**
   * From a synced state, any sequence of user actions on either form keeps
   * the usage and the bill in agreement; in particular the warning is up
   * only while the bill lies in the blind spot and the usage is 1501 kWh.
   */
  lemma {:induction false} RunStaysSynced(e: Engine, s: SyncState, events: seq<Event>, snapsUsage: bool)
    requires Synced(e, s)
    ensures Synced(e, Run(e, s, events, snapsUsage))
    ensures Run(e, s, events, snapsUsage).gapWarning ==>
      Run(e, s, events, snapsUsage).usageKwh == Num(SNAP_USAGE)
    decreases |events|
  {
    if events != [] {
      var next := Step(e, s, events[0], snapsUsage);
      match events[0] {
        case UsageEdited(u) => HandlersSync(e, u);
        case BillEdited(b) => HandlersSync(e, b);
        case FixClicked =>
          HandlersSync(e, Blank);
          if s.gapWarning && !snapsUsage {
            FixesAgreeUnderWarning(e, s);
          }
      }
      assert Synced(e, next);
      RunStaysSynced(e, next, events[1..], snapsUsage);
    }
  }

  /** The calculator's start: 1200 kWh and the bill for it, to the cent. */
  function AppInitial(e: Engine): (r: SyncState)
    ensures Synced(e, r) && !r.gapWarning
    ensures r.usageKwh == Num(1200.0) && r.billAmount == Num(DisplayedBill(e, 1200.0))
  {
    SyncState(Num(1200.0), Num(DisplayedBill(e, 1200.0)), false)
  }

  /** A component's start, once its first effect has filled in the bill for the usage it was given. */
  function ComponentInitial(e: Engine, initialUsage: real): (r: SyncState)
    ensures Synced(e, r) && !r.gapWarning
    ensures r.usageKwh == Num(initialUsage) && r.billAmount == Num(DisplayedBill(e, initialUsage))
  {
    SyncState(Num(initialUsage), Num(DisplayedBill(e, initialUsage)), false)
  }

  /** The form state of one view: the usage field, the bill field and the blind-spot warning. */
  class BillUsageSync {
    const engine: Engine
    var usageKwh: Field<real>
    var billAmount: Field<real>
    var gapWarning: bool

    function State(): SyncState
      reads this
    {
      SyncState(usageKwh, billAmount, gapWarning)
    }

    ghost predicate Valid()
      reads this
    {
      Synced(engine, State())
    }

    /** The calculator's fields (src/App.tsx:30-35). */
    constructor ForApp(e: Engine)
      ensures engine == e && Valid()
      ensures State() == AppInitial(e)
    {
      engine := e;
      usageKwh := Num(1200.0);
      billAmount := Num(DisplayedBill(e, 1200.0));
      gapWarning := false;
    }

    /** A component's fields after its first effect. */
    constructor ForComponent(e: Engine, initialUsage: real)
      ensures engine == e && Valid()
      ensures State() == ComponentInitial(e, initialUsage)
    {
      engine := e;
      usageKwh := Num(initialUsage);
      billAmount := Blank;
      gapWarning := false;
      new;
      billAmount := Num(DisplayedBill(engine, OrZero(usageKwh)));
    }

    method HandleUsageChange(val: Field<real>)
      requires Valid()
      modifies this
      ensures Valid()
      ensures State() == UsageChanged(engine, val)
    {
      usageKwh := val;
      gapWarning := false;
      if val.Num? {
        var bill := engine.calculateBill(val.value).finalTotal;
        billAmount := Num(RoundTo(bill, 2));
      } else {
        billAmount := Blank;
      }
      HandlersSync(engine, val);
    }

    method HandleBillChange(val: Field<real>)
      requires Valid()
      modifies this
      ensures Valid()
      ensures State() == BillChanged(engine, val)
    {
      billAmount := val;
      if val.Num? && val.value > GapLower(engine) && val.value < GapUpper(engine) {
        gapWarning := true;
        usageKwh := Num(SNAP_USAGE);
      } else {
        gapWarning := false;
        if val.Num? {
          var kwh := engine.getKwhFromBill(val.value);
          usageKwh := Num(kwh);
        } else {
          usageKwh := Blank;
        }
      }
      HandlersSync(engine, val);
    }

    /** The calculator's fix button. */
    method FixBillAmount()
      requires Valid()
      modifies this
      ensures Valid()
      ensures State() == AppFix(engine)
    {
      billAmount := Num(RoundTo(GapUpper(engine), 1));
      gapWarning := false;
      usageKwh := Num(SNAP_USAGE);
    }

    /** The components' fix button, rendered only while the warning shows. */
    method FixBillAmountKeepUsage()
      requires Valid() && gapWarning
      modifies this
      ensures Valid()
      ensures State() == ComponentFix(engine, old(State()))
      ensures usageKwh == old(usageKwh) == Num(SNAP_USAGE)
    {
      FixesAgreeUnderWarning(engine, State());
      billAmount := Num(RoundTo(GapUpper(engine), 1));
      gapWarning := false;
    }
  }
}
