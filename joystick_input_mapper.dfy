/**
 * Axis-id bookkeeping of the joystick input mapper
 * (services/inputflinger/reader/mapper/JoystickInputMapper.cpp): the compatibility and
 * centred-axis tables, the search for an axis id in use, the pruning of surplus axes and the
 * assignment of generic axis ids in reconfigure.
 *
 * The mapper's axis table is a map from raw (evdev) axis codes to the integer part of each
 * axis record; std::map's iteration in ascending key order is modelled by repeatedly taking the
 * smallest key not yet visited. The float scaling of createAxis and the device queries are left
 * out: what getAbsAxisUsage, getAbsoluteAxisInfo and mapAxis report is an argument.
 */
module Joystick {
  import opened Wrappers

  /** Motion axis ids from the NDK's android/input.h, which is not part of this model. */
  const AMOTION_EVENT_AXIS_X: int := 0
  const AMOTION_EVENT_AXIS_Y: int := 1
  const AMOTION_EVENT_AXIS_ORIENTATION: int := 8
  const AMOTION_EVENT_AXIS_Z: int := 11
  const AMOTION_EVENT_AXIS_RX: int := 12
  const AMOTION_EVENT_AXIS_RY: int := 13
  const AMOTION_EVENT_AXIS_RZ: int := 14
  const AMOTION_EVENT_AXIS_HAT_X: int := 15
  const AMOTION_EVENT_AXIS_HAT_Y: int := 16
  const AMOTION_EVENT_AXIS_LTRIGGER: int := 17
  const AMOTION_EVENT_AXIS_RTRIGGER: int := 18
  const AMOTION_EVENT_AXIS_THROTTLE: int := 19
  const AMOTION_EVENT_AXIS_RUDDER: int := 20
  const AMOTION_EVENT_AXIS_WHEEL: int := 21
  const AMOTION_EVENT_AXIS_GAS: int := 22
  const AMOTION_EVENT_AXIS_BRAKE: int := 23
  const AMOTION_EVENT_AXIS_GENERIC_1: int := 32
  const AMOTION_EVENT_MAXIMUM_VALID_AXIS_VALUE: int := 53

  /** PointerCoords::MAX_AXES and the kernel's ABS_MAX, from headers that are not part of this
      model. */
  const MAX_AXES: nat := 30
  const ABS_MAX: nat := 0x3f

  datatype Mode = Normal | Invert | Split

  /** What the key layout's mapAxis reports for an explicitly mapped raw axis. */
  datatype AxisInfo = AxisInfo(mode: Mode, axis: int, highAxis: int)

  /** The integer part of the mapper's Axis record. */
  datatype Axis = Axis(axis: int, highAxis: int, mode: Mode, explicitlyMapped: bool)

  /** getCompatAxis: the legacy axis registered as a duplicate of `axis`, or -1 when none. */
  function GetCompatAxis(axis: int): (compat: int)
    ensures compat >= 0 <==> axis == AMOTION_EVENT_AXIS_LTRIGGER || axis == AMOTION_EVENT_AXIS_RTRIGGER
    ensures axis == AMOTION_EVENT_AXIS_LTRIGGER ==> compat == AMOTION_EVENT_AXIS_BRAKE
    ensures axis == AMOTION_EVENT_AXIS_RTRIGGER ==> compat == AMOTION_EVENT_AXIS_GAS
    ensures compat < 0 ==> compat == -1
  {
    if axis == AMOTION_EVENT_AXIS_LTRIGGER then AMOTION_EVENT_AXIS_BRAKE
    else if axis == AMOTION_EVENT_AXIS_RTRIGGER then AMOTION_EVENT_AXIS_GAS
    else -1
  }

  /** isCenteredAxis: axes whose rest position is the middle of their range. */
  predicate IsCenteredAxis(axis: int): (centred: bool)
    // the centred axes form four runs of the standard axis ids: X..Y, ORIENTATION, Z..HAT_Y and
    // RUDDER..WHEEL; the triggers, the throttle and the pedals are one-sided
    ensures centred <==>
      || AMOTION_EVENT_AXIS_X <= axis <= AMOTION_EVENT_AXIS_Y
      || axis == AMOTION_EVENT_AXIS_ORIENTATION
      || AMOTION_EVENT_AXIS_Z <= axis <= AMOTION_EVENT_AXIS_HAT_Y
      || AMOTION_EVENT_AXIS_RUDDER <= axis <= AMOTION_EVENT_AXIS_WHEEL
  {
    axis == AMOTION_EVENT_AXIS_X || axis == AMOTION_EVENT_AXIS_Y || axis == AMOTION_EVENT_AXIS_Z ||
    axis == AMOTION_EVENT_AXIS_RX || axis == AMOTION_EVENT_AXIS_RY || axis == AMOTION_EVENT_AXIS_RZ ||
    axis == AMOTION_EVENT_AXIS_HAT_X || axis == AMOTION_EVENT_AXIS_HAT_Y ||
    axis == AMOTION_EVENT_AXIS_ORIENTATION || axis == AMOTION_EVENT_AXIS_RUDDER ||
    axis == AMOTION_EVENT_AXIS_WHEEL
  }

  /** Compatibility duplicates do not chain, and neither a trigger nor its pedal duplicate is
      centred; an unmapped axis (id -1) and every generic axis are not centred either, so they
      get the one-sided scaling. */
  lemma AxisTablesAgree(axis: int)
    ensures GetCompatAxis(axis) >= 0 ==>
      GetCompatAxis(GetCompatAxis(axis)) == -1 && GetCompatAxis(axis) != axis &&
      !IsCenteredAxis(axis) && !IsCenteredAxis(GetCompatAxis(axis))
    ensures axis == -1 || axis >= AMOTION_EVENT_AXIS_GENERIC_1 ==> !IsCenteredAxis(axis)
  {
  }

  /** The axis record reports motion on `id`, as its axis or as the high half of a split axis. */
  predicate Holds(a: Axis, id: int) {
    a.axis == id || (a.mode == Split && a.highAxis == id)
  }

  /** Some axis of the table reports motion on `id` (what haveAxis searches for). */
  predicate HasAxis(axes: map<int, Axis>, id: int) {
    exists k :: k in axes && Holds(axes[k], id)
  }

  /** A non-empty set has an element. */
  lemma NonEmpty(s: set<int>)
    requires s != {}
    ensures exists x :: x in s
  {
    if forall x :: x !in s {
      assert false;
    }
  }

  /** The smallest key: what std::map::begin() points at. */
  ghost function Min(keys: set<int>): (m: int)
    requires keys != {}
    ensures m in keys && forall k :: k in keys ==> m <= k
    decreases keys
  {
    NonEmpty(keys);
    var x :| x in keys;
    if keys == {x} then
      assert forall k :: k in keys ==> k == x;
      x
    else
      var rest := Min(keys - {x});
      assert forall k :: k in keys ==> k == x || k in keys - {x};
      if x < rest then x else rest
  }

  /** The key std::map::begin() reaches on `keys`. */
  method Begin(keys: set<int>) returns (first: int)
    requires keys != {}
    ensures first == Min(keys)
  {
    ghost var m := Min(keys);
    assert m in keys && forall k :: k in keys ==> m <= k;
    first :| first in keys && forall k :: k in keys ==> first <= k;
  }

  /** One test of pruneAxes's loop as written: begin() is erased unless the explicitly mapped
      axes are being spared and it is one of them; then `continue` re-tests the same begin(). */
  ghost function PruneIterationAsWritten(axes: map<int, Axis>, ignoreExplicitlyMappedAxes: bool): (r: map<int, Axis>)
    requires axes != map[]
    ensures r == axes <==> ignoreExplicitlyMappedAxes && axes[Min(axes.Keys)].explicitlyMapped
    ensures r != axes ==> r == axes - {Min(axes.Keys)} && |r| == |axes| - 1
  {
    var first := Min(axes.Keys);
    if ignoreExplicitlyMappedAxes && axes[first].explicitlyMapped then axes else axes - {first}
  }

  /** `n` passes of pruneAxes's loop as written, stopping once the size test fails. */
  ghost function PruneAsWritten(axes: map<int, Axis>, ignoreExplicitlyMappedAxes: bool, n: nat): (r: map<int, Axis>)
    ensures r.Keys <= axes.Keys && forall k :: k in r ==> r[k] == axes[k]
    ensures |axes| <= MAX_AXES ==> r == axes
    ensures |axes| > MAX_AXES ==> MAX_AXES <= |r| <= |axes|
    // without sparing, each pass erases one axis until MAX_AXES remain
    ensures !ignoreExplicitlyMappedAxes && |axes| > MAX_AXES ==>
      |r| == if |axes| - n > MAX_AXES then |axes| - n else MAX_AXES
    decreases n
  {
    if n == 0 || |axes| <= MAX_AXES then axes
    else PruneAsWritten(PruneIterationAsWritten(axes, ignoreExplicitlyMappedAxes), ignoreExplicitlyMappedAxes, n - 1)
  }

  /** pruneAxes(true) as written never returns once the lowest raw axis is explicitly mapped and
      there are too many axes: every pass leaves the table as it was, so the size test keeps
      succeeding. */
  lemma {:induction false} PruneAsWrittenNeverEnds(axes: map<int, Axis>, n: nat)
    requires |axes| > MAX_AXES
    requires axes[Min(axes.Keys)].explicitlyMapped
    ensures PruneAsWritten(axes, true, n) == axes && |PruneAsWritten(axes, true, n)| > MAX_AXES
    decreases n
  {
    if n > 0 {
      assert PruneIterationAsWritten(axes, true) == axes;
      PruneAsWrittenNeverEnds(axes, n - 1);
    }
  }

  /** What the device context reports for one raw axis: whether the joystick claims it
      (getAbsAxisUsage), whether it has raw axis info (getAbsoluteAxisInfo), and the key
      layout's mapping if mapAxis succeeds. */
  datatype AbsQuery = AbsQuery(joystickUsage: bool, hasRawAxisInfo: bool, mapping: Option<AxisInfo>)

  /** The integer part of createAxis: an explicitly mapped axis keeps its mapping; any other
      axis is a normal axis with no id yet (-1; AxisInfo's default highAxis is -1 too). */
  function CreateAxis(q: AbsQuery): (a: Axis)
    ensures a.explicitlyMapped <==> q.mapping.Some?
    ensures !a.explicitlyMapped ==> a.axis < 0 && a.mode == Normal
  {
    match q.mapping
    case Some(info) => Axis(info.axis, info.highAxis, info.mode, true)
    case None => Axis(-1, -1, Normal, false)
  }

  /** The raw axis `abs` becomes a joystick axis. */
  predicate Collects(device: seq<AbsQuery>, abs: int) {
    0 <= abs < |device| && device[abs].joystickUsage && device[abs].hasRawAxisInfo
  }

  class JoystickInputMapper {
    var axes: map<int, Axis>

    constructor ()
      ensures axes == map[]
    {
      axes := map[];
    }

    /** haveAxis: a search in key order for an axis that reports motion on `axisId`. */
    method HaveAxis(axisId: int) returns (found: bool)
      ensures found <==> HasAxis(axes, axisId)
    {
      var remaining := axes.Keys;
      while remaining != {}
        invariant remaining <= axes.Keys
        invariant forall k :: k in axes && k !in remaining ==> !Holds(axes[k], axisId)
        decreases remaining
      {
        var k := Begin(remaining);
        if Holds(axes[k], axisId) {
          return true;
        }
        remaining := remaining - {k};
      }
      return false;
    }

    /** pruneAxes: erase axes from the lowest raw axis code up while there are more than MAX_AXES,
        sparing the explicitly mapped ones when asked to. (The iterator is advanced past a
        spared axis; the code as written re-tests the same one, see PruneAsWrittenNeverEnds.) */
    method PruneAxes(ignoreExplicitlyMappedAxes: bool)
      modifies this
      ensures axes.Keys <= old(axes).Keys && forall k :: k in axes ==> axes[k] == old(axes)[k]
      ensures forall k :: k in old(axes) && k !in axes ==>
        !(ignoreExplicitlyMappedAxes && old(axes)[k].explicitlyMapped)
      ensures forall k, j :: (k in old(axes) && k !in axes && j in axes &&
        !(ignoreExplicitlyMappedAxes && axes[j].explicitlyMapped)) ==> k < j
      ensures |old(axes)| <= MAX_AXES ==> axes == old(axes)
      ensures |old(axes)| > MAX_AXES ==> |axes| >= MAX_AXES
      ensures |axes| <= MAX_AXES ||
        (ignoreExplicitlyMappedAxes && forall k :: k in axes ==> axes[k].explicitlyMapped)
    {
      var remaining := axes.Keys;  // the keys from the iterator on
      while |axes| > MAX_AXES && remaining != {}
        invariant remaining <= axes.Keys <= old(axes).Keys
        invariant forall k :: k in axes ==> axes[k] == old(axes)[k]
        invariant forall k, j :: k in old(axes) && k !in remaining && j in remaining ==> k < j
        invariant forall k :: k in axes && k !in remaining ==>
          ignoreExplicitlyMappedAxes && axes[k].explicitlyMapped
        invariant forall k :: k in old(axes) && k !in axes ==>
          !(ignoreExplicitlyMappedAxes && old(axes)[k].explicitlyMapped)
        invariant |old(axes)| <= MAX_AXES ==> axes == old(axes)
        invariant |old(axes)| > MAX_AXES ==> |axes| >= MAX_AXES
        decreases remaining
      {
        var it := Begin(remaining);
        if ignoreExplicitlyMappedAxes && axes[it].explicitlyMapped {
          remaining := remaining - {it};
          continue;
        }
        assert |axes.Keys - {it}| == |axes.Keys| - 1;
        axes := axes - {it};
        remaining := remaining - {it};
      }
    }

    /** The generic-id loop of reconfigure: every axis without an id gets the next generic id
        that no axis reports, in raw-axis order, or is erased once the generic ids run out. */
    method AssignGenericAxisIds()
      modifies this
      ensures GenericIdsAssigned(old(axes), axes)
    {
      ghost var orig := axes;
      var nextGenericAxisId := AMOTION_EVENT_AXIS_GENERIC_1;
      var remaining := axes.Keys;  // the keys from the iterator on
      while remaining != {}
        invariant AssignInv(orig, axes, remaining, nextGenericAxisId)
        decreases remaining
      {
        var it := Begin(remaining);
        var axis := axes[it];
        if axis.axis < 0 {
          while nextGenericAxisId <= AMOTION_EVENT_MAXIMUM_VALID_AXIS_VALUE
            invariant AssignInv(orig, axes, remaining, nextGenericAxisId)
            decreases AMOTION_EVENT_MAXIMUM_VALID_AXIS_VALUE - nextGenericAxisId
          {
            var taken := HaveAxis(nextGenericAxisId);
            if !taken {
              break;
            }
            TakenIdStep(orig, axes, remaining, nextGenericAxisId);
            nextGenericAxisId := nextGenericAxisId + 1;
          }

          if nextGenericAxisId <= AMOTION_EVENT_MAXIMUM_VALID_AXIS_VALUE {
            AssignStep(orig, axes, remaining, nextGenericAxisId, it);
            axes := axes[it := axis.(axis := nextGenericAxisId)];
            nextGenericAxisId := nextGenericAxisId + 1;
          } else {
            EraseStep(orig, axes, remaining, nextGenericAxisId, it);
            axes := axes - {it};
          }
        } else {
          MappedStep(orig, axes, remaining, nextGenericAxisId, it);
        }
        remaining := remaining - {it};
      }
      AssignDone(orig, axes, nextGenericAxisId);
    }

    /** reconfigure on the first configuration (`changesAny` false): collect the joystick's raw
        axes from the device, prune down to MAX_AXES if there are too many, then give the unmapped
        axes generic ids. Later reconfigurations leave the axes alone. */
    method Reconfigure(changesAny: bool, device: seq<AbsQuery>)
      requires |device| == ABS_MAX + 1
      modifies this
      ensures changesAny ==> axes == old(axes)
      ensures !changesAny ==>
        && |axes| <= MAX_AXES
        && (forall k :: k in axes ==> axes[k].axis >= 0)
        && (forall k :: k in axes ==> k in old(axes) || Collects(device, k))
    {
      if !changesAny {
        CollectAxes(device);
        if |axes| > MAX_AXES {
          PruneAxes(true);
          PruneAxes(false);
        }
        ghost var pruned := axes;
        AssignGenericAxisIds();
        assert |axes| <= |pruned| by {
          assert axes.Keys <= pruned.Keys;
          SubsetCard(axes.Keys, pruned.Keys);
        }
      }
    }

    /** The collection loop of reconfigure: every raw axis the joystick claims and that has raw
        axis info is inserted (std::map::insert keeps an entry already present). */
    method CollectAxes(device: seq<AbsQuery>)
      requires |device| == ABS_MAX + 1
      modifies this
      ensures forall k :: k in old(axes) ==> k in axes && axes[k] == old(axes)[k]
      ensures forall k :: k in axes && k !in old(axes) ==> Collects(device, k) && axes[k] == CreateAxis(device[k])
      ensures forall k :: Collects(device, k) ==> k in axes
    {
      for abs := 0 to ABS_MAX + 1
        invariant forall k :: k in old(axes) ==> k in axes && axes[k] == old(axes)[k]
        invariant forall k :: k in axes && k !in old(axes) ==> k < abs && Collects(device, k) && axes[k] == CreateAxis(device[k])
        invariant forall k :: k < abs && Collects(device, k) ==> k in axes
      {
        if !device[abs].joystickUsage {
          continue;
        }
        if device[abs].hasRawAxisInfo {
          if abs !in axes {
            axes := axes[abs := CreateAxis(device[abs])];
          }
        }
      }
    }
  }

  /** A free generic id in the current table, with every original axis still present and only
      ids changed, is free in the original table too. */
  lemma NoClash(orig: map<int, Axis>, axes: map<int, Axis>, id: int)
    requires id >= 0 && !HasAxis(axes, id) && axes.Keys == orig.Keys
    requires forall k :: k in axes ==>
      axes[k] == orig[k].(axis := axes[k].axis) && (orig[k].axis >= 0 ==> axes[k] == orig[k])
    ensures !HasAxis(orig, id)
  {
    forall k | k in orig
      ensures !Holds(orig[k], id)
    {
      assert !Holds(axes[k], id);
    }
  }

  /** Erasing an axis that still has its original record loses no id from the coverage. */
  lemma KeepsCoverage(orig: map<int, Axis>, axes: map<int, Axis>, it: int, next: int)
    requires it in axes && it in orig && axes[it] == orig[it]
    requires forall id :: AMOTION_EVENT_AXIS_GENERIC_1 <= id < next ==> HasAxis(orig, id) || HasAxis(axes, id)
    ensures forall id :: AMOTION_EVENT_AXIS_GENERIC_1 <= id < next ==> HasAxis(orig, id) || HasAxis(axes - {it}, id)
  {
    forall id | AMOTION_EVENT_AXIS_GENERIC_1 <= id < next && !HasAxis(orig, id)
      ensures HasAxis(axes - {it}, id)
    {
      var k :| k in axes && Holds(axes[k], id);
      assert k != it;
      assert k in axes - {it};
    }
  }

  /** The outcome of the generic-id loop on the table `orig`. */
  ghost predicate GenericIdsAssigned(orig: map<int, Axis>, axes: map<int, Axis>) {
    // no axis is added, and every remaining axis has an id
    && axes.Keys <= orig.Keys
    && (forall k :: k in axes ==> axes[k].axis >= 0)
    // the axes that had an id are kept as they were
    && (forall k :: k in orig && orig[k].axis >= 0 ==> k in axes && axes[k] == orig[k])
    // an axis without an id gets a generic id no axis of the table reported; nothing else of it changes
    && (forall k :: k in axes && orig[k].axis < 0 ==>
          && axes[k] == orig[k].(axis := axes[k].axis)
          && AMOTION_EVENT_AXIS_GENERIC_1 <= axes[k].axis <= AMOTION_EVENT_MAXIMUM_VALID_AXIS_VALUE
          && !HasAxis(orig, axes[k].axis))
    // and it is the next free one: every generic id below it is reported by some axis
    && (forall k, id :: k in axes && k in orig && orig[k].axis < 0 && AMOTION_EVENT_AXIS_GENERIC_1 <= id < axes[k].axis ==>
          HasAxis(orig, id) || HasAxis(axes, id))
    // generic ids increase with the raw axis code
    && (forall k, j :: (k in axes && j in axes && orig[k].axis < 0 && orig[j].axis < 0 && k < j) ==>
          axes[k].axis < axes[j].axis)
    // only axes without an id are erased, and each after every axis that got one
    && (forall k :: k in orig && k !in axes ==>
          orig[k].axis < 0 && forall j :: j in axes && orig[j].axis < 0 ==> j < k)
    // and only once every generic id is reported
    && (axes.Keys != orig.Keys ==>
          forall id :: AMOTION_EVENT_AXIS_GENERIC_1 <= id <= AMOTION_EVENT_MAXIMUM_VALID_AXIS_VALUE ==> HasAxis(orig, id) || HasAxis(axes, id))
  }

  /** The invariant of the generic-id loop: `remaining` holds the keys from the iterator on and
      `next` is nextGenericAxisId. */
  ghost predicate AssignInv(orig: map<int, Axis>, axes: map<int, Axis>, remaining: set<int>, next: int) {
    && Layout(orig, axes, remaining)
    && Numbered(orig, axes, remaining, next)
    && Erasures(orig, axes, remaining, next)
    && Covered(orig, axes, next)
  }

  /** The iterator walks the keys in order, and only ids of visited axes without one change. */
  ghost predicate Layout(orig: map<int, Axis>, axes: map<int, Axis>, remaining: set<int>) {
    && remaining <= axes.Keys <= orig.Keys
    && (forall k, j :: k in orig && k !in remaining && j in remaining ==> k < j)
    && (forall k :: k in axes ==> axes[k] == orig[k].(axis := axes[k].axis))
    && (forall k :: k in axes && (orig[k].axis >= 0 || k in remaining) ==> axes[k] == orig[k])
    && (forall k :: k in orig && orig[k].axis >= 0 ==> k in axes)
  }

  /** The visited axes have ids; those handed out are free, below `next` and increasing. */
  ghost predicate Numbered(orig: map<int, Axis>, axes: map<int, Axis>, remaining: set<int>, next: int)
    requires axes.Keys <= orig.Keys
  {
    && AMOTION_EVENT_AXIS_GENERIC_1 <= next <= AMOTION_EVENT_MAXIMUM_VALID_AXIS_VALUE + 1
    && (forall k :: k in axes && k !in remaining ==> axes[k].axis >= 0)
    && (forall k :: k in axes && k !in remaining && orig[k].axis < 0 ==>
          AMOTION_EVENT_AXIS_GENERIC_1 <= axes[k].axis < next && !HasAxis(orig, axes[k].axis))
    && (forall k, j :: (k in axes && j in axes && k !in remaining && j !in remaining &&
          orig[k].axis < 0 && orig[j].axis < 0 && k < j) ==> axes[k].axis < axes[j].axis)
  }

  /** Erased axes had no id, come after every axis that got one, and only once ids ran out. */
  ghost predicate Erasures(orig: map<int, Axis>, axes: map<int, Axis>, remaining: set<int>, next: int)
    requires axes.Keys <= orig.Keys
  {
    && (forall k :: k in orig && k !in axes ==>
          && orig[k].axis < 0 && k !in remaining
          && forall j :: j in axes && j !in remaining && orig[j].axis < 0 ==> j < k)
    && (axes.Keys != orig.Keys ==> next > AMOTION_EVENT_MAXIMUM_VALID_AXIS_VALUE)
  }

  /** Every generic id below `next` is reported by the original or the current table. */
  ghost predicate Covered(orig: map<int, Axis>, axes: map<int, Axis>, next: int) {
    forall id :: AMOTION_EVENT_AXIS_GENERIC_1 <= id < next ==> HasAxis(orig, id) || HasAxis(axes, id)
  }

  /** Passing an axis that already has an id. */
  lemma MappedStep(orig: map<int, Axis>, axes: map<int, Axis>, remaining: set<int>, next: int, it: int)
    requires AssignInv(orig, axes, remaining, next)
    requires remaining != {} && it == Min(remaining) && axes[it].axis >= 0
    ensures AssignInv(orig, axes, remaining - {it}, next)
  {
    assert Layout(orig, axes, remaining - {it});
    assert Numbered(orig, axes, remaining - {it}, next);
    assert Erasures(orig, axes, remaining - {it}, next);
  }

  /** Passing a generic id some axis reports. */
  lemma TakenIdStep(orig: map<int, Axis>, axes: map<int, Axis>, remaining: set<int>, next: int)
    requires AssignInv(orig, axes, remaining, next)
    requires next <= AMOTION_EVENT_MAXIMUM_VALID_AXIS_VALUE && HasAxis(axes, next)
    ensures AssignInv(orig, axes, remaining, next + 1)
  {
  }

  /** Giving the axis at the iterator the free generic id `next`. */
  lemma AssignStep(orig: map<int, Axis>, axes: map<int, Axis>, remaining: set<int>, next: int, it: int)
    requires AssignInv(orig, axes, remaining, next)
    requires remaining != {} && it == Min(remaining) && axes[it].axis < 0
    requires next <= AMOTION_EVENT_MAXIMUM_VALID_AXIS_VALUE && !HasAxis(axes, next)
    ensures AssignInv(orig, axes[it := axes[it].(axis := next)], remaining - {it}, next + 1)
  {
    NoClash(orig, axes, next);
    AssignLayout(orig, axes, remaining, next, it);
    AssignNumbered(orig, axes, remaining, next, it);
    AssignErasures(orig, axes, remaining, next, it);
    AssignCovered(orig, axes, remaining, next, it);
  }

  lemma AssignLayout(orig: map<int, Axis>, axes: map<int, Axis>, remaining: set<int>, next: int, it: int)
    requires Layout(orig, axes, remaining)
    requires remaining != {} && it == Min(remaining) && axes[it].axis < 0
    ensures Layout(orig, axes[it := axes[it].(axis := next)], remaining - {it})
  {
  }

  lemma AssignNumbered(orig: map<int, Axis>, axes: map<int, Axis>, remaining: set<int>, next: int, it: int)
    requires Layout(orig, axes, remaining) && Numbered(orig, axes, remaining, next)
    requires remaining != {} && it == Min(remaining) && axes[it].axis < 0
    requires next <= AMOTION_EVENT_MAXIMUM_VALID_AXIS_VALUE && !HasAxis(orig, next)
    ensures Numbered(orig, axes[it := axes[it].(axis := next)], remaining - {it}, next + 1)
  {
  }

  lemma AssignErasures(orig: map<int, Axis>, axes: map<int, Axis>, remaining: set<int>, next: int, it: int)
    requires Layout(orig, axes, remaining) && Erasures(orig, axes, remaining, next)
    requires remaining != {} && it == Min(remaining) && next <= AMOTION_EVENT_MAXIMUM_VALID_AXIS_VALUE
    ensures Erasures(orig, axes[it := axes[it].(axis := next)], remaining - {it}, next + 1)
  {
    assert axes.Keys == orig.Keys;
    assert axes[it := axes[it].(axis := next)].Keys == orig.Keys;
  }

  lemma AssignCovered(orig: map<int, Axis>, axes: map<int, Axis>, remaining: set<int>, next: int, it: int)
    requires Layout(orig, axes, remaining) && Covered(orig, axes, next)
    requires remaining != {} && it == Min(remaining)
    ensures Covered(orig, axes[it := axes[it].(axis := next)], next + 1)
  {
    var updated := axes[it := axes[it].(axis := next)];
    forall id | AMOTION_EVENT_AXIS_GENERIC_1 <= id < next + 1 && !HasAxis(orig, id)
      ensures HasAxis(updated, id)
    {
      if id == next {
        assert Holds(updated[it], id);
      } else {
        var k :| k in axes && Holds(axes[k], id);
        assert k != it by {
          assert axes[it] == orig[it];
        }
        assert Holds(updated[k], id);
      }
    }
  }

  /** Erasing the axis at the iterator once the generic ids have run out. */
  lemma EraseStep(orig: map<int, Axis>, axes: map<int, Axis>, remaining: set<int>, next: int, it: int)
    requires AssignInv(orig, axes, remaining, next)
    requires remaining != {} && it == Min(remaining) && axes[it].axis < 0 && next > AMOTION_EVENT_MAXIMUM_VALID_AXIS_VALUE
    ensures AssignInv(orig, axes - {it}, remaining - {it}, next)
  {
    EraseLayout(orig, axes, remaining, it);
    EraseNumbered(orig, axes, remaining, next, it);
    EraseErasures(orig, axes, remaining, next, it);
    KeepsCoverage(orig, axes, it, next);
  }

  lemma EraseLayout(orig: map<int, Axis>, axes: map<int, Axis>, remaining: set<int>, it: int)
    requires Layout(orig, axes, remaining)
    requires remaining != {} && it == Min(remaining) && axes[it].axis < 0
    ensures Layout(orig, axes - {it}, remaining - {it})
  {
  }

  lemma EraseNumbered(orig: map<int, Axis>, axes: map<int, Axis>, remaining: set<int>, next: int, it: int)
    requires Layout(orig, axes, remaining) && Numbered(orig, axes, remaining, next)
    requires remaining != {} && it == Min(remaining)
    ensures Numbered(orig, axes - {it}, remaining - {it}, next)
  {
  }

  lemma EraseErasures(orig: map<int, Axis>, axes: map<int, Axis>, remaining: set<int>, next: int, it: int)
    requires Layout(orig, axes, remaining) && Erasures(orig, axes, remaining, next)
    requires remaining != {} && it == Min(remaining) && axes[it].axis < 0 && next > AMOTION_EVENT_MAXIMUM_VALID_AXIS_VALUE
    ensures Erasures(orig, axes - {it}, remaining - {it}, next)
  {
  }

  /** The loop's invariant at its end is its outcome. */
  lemma AssignDone(orig: map<int, Axis>, axes: map<int, Axis>, next: int)
    requires AssignInv(orig, axes, {}, next)
    ensures GenericIdsAssigned(orig, axes)
  {
  }

  /** After the generic-id loop a generic id that was handed out is reported by its axis alone:
      by no other axis, and not by the high half of the axis itself. */
  lemma GenericIdsAreUnique(orig: map<int, Axis>, axes: map<int, Axis>, k: int, j: int)
    requires GenericIdsAssigned(orig, axes)
    requires k in axes && j in axes && k in orig && orig[k].axis < 0
    ensures j != k ==> !Holds(axes[j], axes[k].axis)
    ensures !(axes[k].mode == Split && axes[k].highAxis == axes[k].axis)
  {
    var id := axes[k].axis;
    assert Holds(orig[k], id) ==> HasAxis(orig, id);
    if j != k {
      assert Holds(orig[j], id) ==> HasAxis(orig, id);
      if orig[j].axis < 0 {
        assert k < j || j < k;
      }
    }
  }

  lemma {:induction false} SubsetCard(a: set<int>, b: set<int>)
    requires a <= b
    ensures |a| <= |b|
    decreases b
  {
    if a != {} {
      NonEmpty(a);
      var x :| x in a;
      SubsetCard(a - {x}, b - {x});
    }
  }
}
