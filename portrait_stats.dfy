/** The crew cache behind the portrait overlay.

    The host keeps the list of crew shown in the portrait gallery and the
    index of the first visible portrait. The overlay keeps
      - currentCrew: a descriptor per crew name, built once and never replaced,
      - activeCrew: the descriptors of the (at most three) visible portraits,
        rebuilt whenever the host's first visible index changes,
      - reload: raised by vessel events, start-up and a periodic clock test,
        cleared only by the reload pass that adds descriptors for new crew.
    The host (its crew list, visible index, camera mode, clock and mouse) is
    passed in as parameters. */
module Stats {
  import opened Traits

  const Int32Max: int := 0x7FFF_FFFF
  const Int32Min: int := -0x8000_0000

  /** Two's-complement wrap-around of a 32-bit signed integer, as unchecked
      C# arithmetic does it. */
  function Wrap32(x: int): (r: int)
    ensures Int32Min <= r <= Int32Max
    ensures (x - r) % 0x1_0000_0000 == 0
    ensures Int32Min <= x <= Int32Max ==> r == x
  {
    (x - Int32Min) % 0x1_0000_0000 + Int32Min
  }

  /** The host's camera modes. */
  datatype CameraMode = Flight | Map | External | IVA | Internal

  /** Labels are not drawn without crew or in the map and interior views. */
  predicate LabelsHidden(crewCount: int, mode: CameraMode) {
    crewCount <= 0 || mode == Map || mode == Internal || mode == IVA
  }

  // ----- The reload pass -----

  /** The names occurring in a crew list. */
  ghost function Names(crew: seq<Kerbal>): set<string> {
    set i | 0 <= i < |crew| :: crew[i].name
  }

  /** One step of the reload pass: a descriptor is added for a name not yet cached. */
  function AddIfAbsent(cache: map<string, KerbalTrait>, k: Kerbal): map<string, KerbalTrait> {
    if k.name in cache then cache else cache[k.name := NewKerbalTrait(k)]
  }

  /** The cache after a reload pass over the crew, front to back. The pass only
      adds: exactly the names of the crew that were missing become keys, and
      every entry already present keeps its descriptor. */
  function Observe(cache: map<string, KerbalTrait>, crew: seq<Kerbal>): (r: map<string, KerbalTrait>)
    ensures r.Keys == cache.Keys + Names(crew)
    ensures forall n :: n in cache ==> r[n] == cache[n]
    decreases |crew|
  {
    if crew == [] then cache
    else
      var front := crew[..|crew| - 1];
      assert Names(crew) == Names(front) + {crew[|crew| - 1].name} by {
        assert forall i :: 0 <= i < |front| ==> front[i] == crew[i];
      }
      AddIfAbsent(Observe(cache, front), crew[|crew| - 1])
  }

  /** A name missing from the cache gets the descriptor of the first crew
      member carrying that name. */
  lemma {:induction false} ObserveInsertsFirst(cache: map<string, KerbalTrait>, crew: seq<Kerbal>, i: int)
    requires 0 <= i < |crew| && crew[i].name !in cache
    requires forall j :: 0 <= j < i ==> crew[j].name != crew[i].name
    ensures Observe(cache, crew)[crew[i].name] == NewKerbalTrait(crew[i])
    decreases |crew|
  {
    var front := crew[..|crew| - 1];
    if i < |crew| - 1 {
      assert front[i] == crew[i];
      ObserveInsertsFirst(cache, front, i);
    } else {
      assert crew[i].name !in Names(front);
    }
  }

  /** Values stored before a reload pass are still stored after it. */
  lemma ObserveKeepsValues(cache: map<string, KerbalTrait>, crew: seq<Kerbal>)
    ensures cache.Values <= Observe(cache, crew).Values
  {
    var r := Observe(cache, crew);
    forall t | t in cache.Values ensures t in r.Values {
      var n :| n in cache && cache[n] == t;
      assert r[n] == t;
    }
  }

  /** A reload pass over crew whose names are all cached changes nothing. */
  lemma ObserveAllCached(cache: map<string, KerbalTrait>, crew: seq<Kerbal>)
    requires Names(crew) <= cache.Keys
    ensures Observe(cache, crew) == cache
  {
  }

  /** A second reload pass over the same crew is a no-op. */
  lemma ObserveIdempotent(cache: map<string, KerbalTrait>, crew: seq<Kerbal>)
    ensures Observe(Observe(cache, crew), crew) == Observe(cache, crew)
  {
    var once := Observe(cache, crew);
    var twice := Observe(once, crew);
    assert twice.Keys == once.Keys;
  }

  /** A reload pass over crew + [k] is the pass over crew followed by one step for k. */
  lemma ObserveSnoc(cache: map<string, KerbalTrait>, crew: seq<Kerbal>, k: Kerbal)
    ensures Observe(cache, crew + [k]) == AddIfAbsent(Observe(cache, crew), k)
  {
    assert (crew + [k])[..|crew|] == crew;
  }

  /** Two reload passes do what one pass over both crew lists does. */
  lemma {:induction false} ObserveConcat(cache: map<string, KerbalTrait>, crew1: seq<Kerbal>, crew2: seq<Kerbal>)
    ensures Observe(Observe(cache, crew1), crew2) == Observe(cache, crew1 + crew2)
    decreases |crew2|
  {
    if crew2 == [] {
      assert crew1 + crew2 == crew1;
    } else {
      var front2, last := crew2[..|crew2| - 1], crew2[|crew2| - 1];
      assert crew2 == front2 + [last];
      assert crew1 + crew2 == (crew1 + front2) + [last];
      ObserveConcat(cache, crew1, front2);
      ObserveSnoc(Observe(cache, crew1), front2, last);
      ObserveSnoc(cache, crew1 + front2, last);
    }
  }

  // ----- The visible window -----

  /** Position p exists in the crew list and its name is cached. */
  predicate Cached(crew: seq<Kerbal>, cache: map<string, KerbalTrait>, p: int) {
    0 <= p < |crew| && crew[p].name in cache
  }

  /** What the window loop appends for position p. */
  function Entry(crew: seq<Kerbal>, cache: map<string, KerbalTrait>, p: int): seq<KerbalTrait> {
    if Cached(crew, cache, p) then [cache[crew[p].name]] else []
  }

  /** The window loop's result after visiting positions hi down to lo. */
  function Collect(crew: seq<Kerbal>, cache: map<string, KerbalTrait>, hi: int, lo: int): seq<KerbalTrait>
    decreases hi - lo
  {
    if hi < lo then [] else Collect(crew, cache, hi, lo + 1) + Entry(crew, cache, lo)
  }

  /** The positions the window loop keeps, hi down to lo. */
  function Kept(crew: seq<Kerbal>, cache: map<string, KerbalTrait>, hi: int, lo: int): seq<int>
    decreases hi - lo
  {
    if hi < lo then []
    else Kept(crew, cache, hi, lo + 1) + (if Cached(crew, cache, lo) then [lo] else [])
  }

  /** Kept positions lie in [lo, hi], are cached and strictly descend;
      there are at most hi - lo + 1 of them. */
  lemma {:induction false} KeptSound(crew: seq<Kerbal>, cache: map<string, KerbalTrait>, hi: int, lo: int)
    ensures var ps := Kept(crew, cache, hi, lo);
      && |ps| <= (if hi < lo then 0 else hi - lo + 1)
      && (forall k :: 0 <= k < |ps| ==> lo <= ps[k] <= hi && Cached(crew, cache, ps[k]))
      && (forall k, l :: 0 <= k < l < |ps| ==> ps[k] > ps[l])
    decreases hi - lo
  {
    if hi >= lo {
      var rest := Kept(crew, cache, hi, lo + 1);
      var tail := if Cached(crew, cache, lo) then [lo] else [];
      KeptSound(crew, cache, hi, lo + 1);
      assert Kept(crew, cache, hi, lo) == rest + tail;
      assert forall k :: 0 <= k < |rest| ==> rest[k] > lo;
    }
  }

  /** Every cached position in [lo, hi] is kept. */
  lemma {:induction false} KeptComplete(crew: seq<Kerbal>, cache: map<string, KerbalTrait>, hi: int, lo: int)
    ensures forall p :: lo <= p <= hi && Cached(crew, cache, p) ==> p in Kept(crew, cache, hi, lo)
    decreases hi - lo
  {
    if hi >= lo {
      KeptComplete(crew, cache, hi, lo + 1);
    }
  }

  /** The window's entries are the cached descriptors of the kept positions, in order. */
  lemma {:induction false} CollectIsKept(crew: seq<Kerbal>, cache: map<string, KerbalTrait>, hi: int, lo: int)
    ensures |Collect(crew, cache, hi, lo)| == |Kept(crew, cache, hi, lo)|
    ensures forall k :: 0 <= k < |Kept(crew, cache, hi, lo)| ==>
      Cached(crew, cache, Kept(crew, cache, hi, lo)[k]) &&
      Collect(crew, cache, hi, lo)[k] == cache[crew[Kept(crew, cache, hi, lo)[k]].name]
    decreases hi - lo
  {
    if hi >= lo {
      CollectIsKept(crew, cache, hi, lo + 1);
    }
  }

  /** First position visited by the window loop: startIndex + 2, wrapped to 32 bits. */
  function WindowTop(startIndex: int): int {
    Wrap32(startIndex + 2)
  }

  /** The visible window for a host start index. */
  function Window(crew: seq<Kerbal>, cache: map<string, KerbalTrait>, startIndex: int): seq<KerbalTrait> {
    Collect(crew, cache, WindowTop(startIndex), startIndex)
  }

  /** The positions shown in the visible window. */
  function WindowPositions(crew: seq<Kerbal>, cache: map<string, KerbalTrait>, startIndex: int): seq<int> {
    Kept(crew, cache, WindowTop(startIndex), startIndex)
  }

  /** The window holds at most three descriptors: those cached for positions
      startIndex + 2 down to startIndex, in descending position order,
      skipping positions past the crew and names not in the cache. When
      startIndex + 2 overflows a 32-bit int the window is empty. */
  lemma WindowSpec(crew: seq<Kerbal>, cache: map<string, KerbalTrait>, startIndex: int)
    requires 0 <= startIndex <= Int32Max
    ensures var w, ps := Window(crew, cache, startIndex), WindowPositions(crew, cache, startIndex);
      && |w| == |ps| <= 3
      && (forall k :: 0 <= k < |ps| ==> startIndex <= ps[k] <= startIndex + 2 && Cached(crew, cache, ps[k]))
      && (forall k :: 0 <= k < |ps| ==> w[k] == cache[crew[ps[k]].name])
      && (forall k, l :: 0 <= k < l < |ps| ==> ps[k] > ps[l])
      && (startIndex + 2 <= Int32Max ==>
            forall p :: startIndex <= p <= startIndex + 2 && Cached(crew, cache, p) ==> p in ps)
      && (startIndex + 2 > Int32Max ==> w == [])
  {
    CollectIsKept(crew, cache, WindowTop(startIndex), startIndex);
    KeptSound(crew, cache, WindowTop(startIndex), startIndex);
    KeptComplete(crew, cache, WindowTop(startIndex), startIndex);
  }

  /** Every window entry is a value of the cache. */
  lemma WindowFromCache(crew: seq<Kerbal>, cache: map<string, KerbalTrait>, startIndex: int)
    requires 0 <= startIndex <= Int32Max
    ensures forall t :: t in Window(crew, cache, startIndex) ==> t in cache.Values
  {
    WindowSpec(crew, cache, startIndex);
  }

  /** A crew of three, all cached: the window lists them last to first. */
  lemma ThreeCrewWindow(crew: seq<Kerbal>, cache: map<string, KerbalTrait>)
    requires |crew| == 3 && forall p :: 0 <= p < 3 ==> crew[p].name in cache
    ensures Window(crew, cache, 0) == [cache[crew[2].name], cache[crew[1].name], cache[crew[0].name]]
  {
    assert Cached(crew, cache, 0) && Cached(crew, cache, 1) && Cached(crew, cache, 2);
  }

  // ----- Display order -----

  /** The display slot of window entry i: the host orders its portraits
      differently for crews of two and three. */
  function DisplaySlot(crewCount: int, i: int): (j: int)
    ensures crewCount != 2 && crewCount != 3 ==> j == i
  {
    if crewCount == 2 then (if i == 0 then 1 else 0)
    else if crewCount == 3 then (if i == 1 then 2 else if i == 2 then 1 else i)
    else i
  }

  /** On the positions a window can hold for a crew, the slot order is a
      permutation: it stays in range and is its own inverse. */
  lemma DisplaySlotPermutes(crewCount: int, i: int)
    requires 0 <= i < crewCount && i < 3
    ensures 0 <= DisplaySlot(crewCount, i) < crewCount && DisplaySlot(crewCount, i) < 3
    ensures DisplaySlot(crewCount, DisplaySlot(crewCount, i)) == i
  {
  }

  // ----- Hover bookkeeping -----

  /** A hover test per window entry: the feature is enabled and the mouse is
      over that entry's display slot. */
  function Hits(enabled: bool, over: int -> bool, crewCount: int): int -> bool {
    i => enabled && over(DisplaySlot(crewCount, i))
  }

  /** The last i below n with hit(i), or -1. */
  function LastIndex(hit: int -> bool, n: nat): (r: int)
    ensures -1 <= r < n
    ensures r >= 0 ==> hit(r) && forall i :: r < i < n ==> !hit(i)
    ensures r == -1 ==> forall i :: 0 <= i < n ==> !hit(i)
    decreases n
  {
    if n <= 0 then -1
    else if hit(n - 1) then n - 1
    else LastIndex(hit, n - 1)
  }

  /** The first i below n with hit(i), or -1. */
  function FirstIndex(hit: int -> bool, n: nat): (r: int)
    ensures -1 <= r < n
    ensures r >= 0 ==> hit(r) && forall i :: 0 <= i < r ==> !hit(i)
    ensures r == -1 ==> forall i :: 0 <= i < n ==> !hit(i)
    decreases n
  {
    if n <= 0 then -1
    else
      var f := FirstIndex(hit, n - 1);
      if f >= 0 then f else if hit(n - 1) then n - 1 else -1
  }

  /** The entry the tooltip refers to after a pass over the first n entries:
      the last trait hover wins; without one, the first experience hover
      (later ones are ignored once a hover is flagged); without either, the
      previous entry. */
  function ToolTipTarget(traitHit: int -> bool, levelHit: int -> bool, n: nat, previous: int): int {
    var t := LastIndex(traitHit, n);
    if t >= 0 then t
    else
      var l := FirstIndex(levelHit, n);
      if l >= 0 then l else previous
  }

  /** The hover bookkeeping of the label pass: the entry the tooltip points
      at, when it started pointing there, and the two flags for the tooltip
      drawn after the pass. */
  datatype Hover = Hover(toolTip: int, time: real, drawTooltip: bool, drawTraitTooltip: bool)

  /** One window entry i of the pass: traitHit and levelHit are its
      (enabled) trait and experience hovers. A trait hover is always
      flagged; an experience hover only while nothing is flagged yet. A
      flagged hover points the tooltip at i, restarting its timer only when
      it pointed elsewhere. */
  function HoverStep(h: Hover, i: int, traitHit: bool, levelHit: bool, now: real): Hover {
    var flagged := traitHit || (levelHit && !h.drawTooltip);
    Hover(
      if flagged then i else h.toolTip,
      if flagged && h.toolTip != i then now else h.time,
      h.drawTooltip || traitHit || levelHit,
      if traitHit then true else if levelHit && !h.drawTooltip then false else h.drawTraitTooltip)
  }

  /** The bookkeeping after the pass over entries 0 .. n - 1. */
  function HoverPass(h: Hover, traitHit: int -> bool, levelHit: int -> bool, n: nat, now: real): Hover
    decreases n
  {
    if n == 0 then h
    else HoverStep(HoverPass(h, traitHit, levelHit, n - 1, now), n - 1, traitHit(n - 1), levelHit(n - 1), now)
  }

  /** What a pass that starts with no tooltip flagged ends with: the trait
      tooltip is drawn exactly when some trait icon is hovered, a tooltip
      exactly when some icon or bar is hovered, and then it points at a
      window entry; the tooltip target is the last trait hover, else the
      first experience hover, else unchanged. */
  lemma {:induction false} HoverPassSpec(h: Hover, traitHit: int -> bool, levelHit: int -> bool, n: nat, now: real)
    requires !h.drawTooltip && !h.drawTraitTooltip
    ensures var r := HoverPass(h, traitHit, levelHit, n, now);
      && r.drawTraitTooltip == AnyHit(traitHit, n)
      && r.drawTooltip == (AnyHit(traitHit, n) || AnyHit(levelHit, n))
      && r.toolTip == ToolTipTarget(traitHit, levelHit, n, h.toolTip)
      && (r.drawTooltip ==> 0 <= r.toolTip < n)
    decreases n
  {
    HitsFound(traitHit, n);
    HitsFound(levelHit, n);
    if n > 0 {
      HoverPassSpec(h, traitHit, levelHit, n - 1, now);
      HitsFound(traitHit, n - 1);
      HitsFound(levelHit, n - 1);
    }
  }

  /** The tooltip timer is only ever set to now, and it is now whenever the
      target moved; a pass that flags nothing leaves target and timer alone. */
  lemma {:induction false} HoverPassTimer(h: Hover, traitHit: int -> bool, levelHit: int -> bool, n: nat, now: real)
    requires !h.drawTooltip
    ensures var r := HoverPass(h, traitHit, levelHit, n, now);
      && (r.toolTip != h.toolTip ==> r.time == now)
      && (r.time == h.time || r.time == now)
      && (!r.drawTooltip ==> r.time == h.time && r.toolTip == h.toolTip)
    decreases n
  {
    if n > 0 {
      HoverPassTimer(h, traitHit, levelHit, n - 1, now);
    }
  }

  /** Some index below n is hit. */
  ghost predicate AnyHit(hit: int -> bool, n: nat) {
    exists i :: 0 <= i < n && hit(i)
  }

  /** Some index below n is hit exactly when the last and the first hit exist. */
  lemma HitsFound(hit: int -> bool, n: nat)
    ensures AnyHit(hit, n) <==> LastIndex(hit, n) >= 0
    ensures AnyHit(hit, n) <==> FirstIndex(hit, n) >= 0
  {
  }

  class PortraitStats {
    var currentCrew: map<string, KerbalTrait>
    var activeCrew: seq<KerbalTrait>
    var reload: bool
    var index: int
    var careerMode: bool
    var currentToolTip: int
    var toolTipTime: real
    // Settings read once from the addon's configuration file.
    var traitTooltip: bool
    var expTooltip: bool

    /** Every visible descriptor is one of the cached ones. */
    ghost predicate Valid()
      reads this
    {
      forall t :: t in activeCrew ==> t in currentCrew.Values
    }

    constructor (traitTooltipSetting: bool, expTooltipSetting: bool)
      ensures Valid()
      ensures currentCrew == map[] && activeCrew == []
      ensures !reload && index == 0 && !careerMode
      ensures currentToolTip == -1 && toolTipTime == 0.0
      ensures traitTooltip == traitTooltipSetting && expTooltip == expTooltipSetting
    {
      currentCrew := map[];
      activeCrew := [];
      reload := false;
      index := 0;
      careerMode := false;
      currentToolTip := -1;
      toolTipTime := 0.0;
      traitTooltip := traitTooltipSetting;
      expTooltip := expTooltipSetting;
    }

    /** Start-up: records the game mode and asks for a reload pass. */
    method Start(careerGame: bool)
      modifies this`careerMode, this`reload
      ensures reload && careerMode == careerGame
    {
      careerMode := careerGame;
      reload := true;
    }

    /** A vessel was modified or changed: ask for a reload pass. */
    method VesselCheck()
      modifies this`reload
      ensures reload
    {
      reload := true;
    }

    /** Per-frame clock test: every whole tenth second asks for a reload pass.
        wholeSeconds is the clock truncated to an int; the test is whether it
        is a multiple of ten, which the C# and Dafny remainders agree on. */
    method Update(wholeSeconds: int)
      modifies this`reload
      ensures reload == (old(reload) || wholeSeconds % 10 == 0)
    {
      if wholeSeconds % 10 == 0 {
        reload := true;
      }
    }

    /** The per-frame pass. It does nothing unless flight is ready and the
        host lists crew. Otherwise a pending reload adds descriptors for the
        new crew names and forces the window to be rebuilt (index is set to
        int.MaxValue), and the window is rebuilt whenever the host's start
        index differs from the stored one. */
    method LateUpdate(flightReady: bool, crew: seq<Kerbal>, startIndex: int)
      requires Valid()
      requires 0 <= startIndex <= Int32Max
      modifies this`currentCrew, this`activeCrew, this`reload, this`index
      ensures Valid()
      ensures !flightReady || |crew| == 0 ==>
        currentCrew == old(currentCrew) && activeCrew == old(activeCrew) && reload == old(reload) && index == old(index)
      ensures flightReady && |crew| > 0 ==>
        && currentCrew == (if old(reload) then Observe(old(currentCrew), crew) else old(currentCrew))
        && !reload
        && index == startIndex
        && activeCrew == (if (if old(reload) then Int32Max else old(index)) != startIndex
                          then Window(crew, currentCrew, startIndex) else old(activeCrew))
      ensures flightReady && |crew| > 0 && old(reload) && startIndex < Int32Max ==>
        activeCrew == Window(crew, currentCrew, startIndex)
      ensures !old(reload) && old(index) == startIndex ==> activeCrew == old(activeCrew)
    {
      if !flightReady {
        return;
      }
      if |crew| <= 0 {
        return;
      }
      if reload {
        AddNewCrew(crew);
        index := Int32Max;
        reload := false;
      }
      if index != startIndex {
        index := startIndex;
        RebuildWindow(crew);
      }
    }

    /** The reload pass: a descriptor for every crew name not yet cached. */
    method AddNewCrew(crew: seq<Kerbal>)
      requires Valid()
      modifies this`currentCrew
      ensures Valid()
      ensures currentCrew == Observe(old(currentCrew), crew)
    {
      for j := 0 to |crew|
        invariant currentCrew == Observe(old(currentCrew), crew[..j])
      {
        assert crew[..j + 1][..j] == crew[..j];
        if crew[j].name in currentCrew {
          continue;
        }
        currentCrew := currentCrew[crew[j].name := NewKerbalTrait(crew[j])];
      }
      assert crew[..|crew|] == crew;
      ObserveKeepsValues(old(currentCrew), crew);
    }

    /** Rebuilds the visible window for the stored start index: positions
        index + 2 down to index, the loop counter wrapping as a C# int does. */
    method RebuildWindow(crew: seq<Kerbal>)
      requires 0 <= index <= Int32Max
      modifies this`activeCrew
      ensures Valid()
      ensures activeCrew == Window(crew, currentCrew, index)
    {
      activeCrew := [];
      var top := Wrap32(index + 2);
      var i := top;
      while i >= index
        invariant i <= top
        invariant top >= index ==> index - 1 <= i
        invariant top < index ==> i == top
        invariant activeCrew == Collect(crew, currentCrew, top, i + 1)
      {
        if i < |crew| {
          var name := crew[i].name;
          if name in currentCrew {
            activeCrew := activeCrew + [currentCrew[name]];
          }
        }
        i := i - 1;
      }
      WindowFromCache(crew, currentCrew, index);
    }

    /** Points the tooltip at window entry i; its timer restarts only when
        the tooltip pointed elsewhere. */
    method FocusToolTip(i: int, now: real)
      modifies this`currentToolTip, this`toolTipTime
      ensures currentToolTip == i
      ensures toolTipTime == if old(currentToolTip) != i then now else old(toolTipTime)
    {
      if currentToolTip != i {
        currentToolTip := i;
        toolTipTime := now;
      }
    }

    /** The hover tests of one window entry i: onTrait and onLevel tell
        whether the mouse is over its trait icon and its experience bar. A
        trait hover is flagged whenever trait tooltips are on; an experience
        hover only when experience tooltips are on and nothing was flagged
        yet in this pass. A flagged hover points the tooltip at i. */
    method HoverEntry(i: int, onTrait: bool, onLevel: bool, now: real, drawTooltipIn: bool, drawTraitTooltipIn: bool)
      returns (drawTooltip: bool, drawTraitTooltip: bool)
      modifies this`currentToolTip, this`toolTipTime
      ensures Hover(currentToolTip, toolTipTime, drawTooltip, drawTraitTooltip)
        == HoverStep(Hover(old(currentToolTip), old(toolTipTime), drawTooltipIn, drawTraitTooltipIn),
                     i, traitTooltip && onTrait, expTooltip && onLevel, now)
    {
      drawTooltip, drawTraitTooltip := drawTooltipIn, drawTraitTooltipIn;
      if traitTooltip {
        if onTrait {
          FocusToolTip(i, now);
          drawTooltip := true;
          drawTraitTooltip := true;
        }
      }
      if careerMode || expTooltip {
        if !drawTooltip && expTooltip {
          if onLevel {
            FocusToolTip(i, now);
            drawTooltip := true;
            drawTraitTooltip := false;
          }
        }
      }
    }

    /** The hover pass of the label drawing. Each window entry i is drawn at
        display slot DisplaySlot(crewCount, i); overTrait and overLevel tell
        whether the mouse is over a slot's trait icon or experience bar, and
        now is the host clock. Returns the slots drawn and the two flags that
        decide whether, and which, tooltip is drawn. */
    method DrawLabels(crewCount: int, mode: CameraMode, now: real, overTrait: int -> bool, overLevel: int -> bool)
      returns (slots: seq<int>, drawTooltip: bool, drawTraitTooltip: bool)
      modifies this`currentToolTip, this`toolTipTime
      ensures LabelsHidden(crewCount, mode) ==>
        slots == [] && !drawTooltip && !drawTraitTooltip
        && currentToolTip == old(currentToolTip) && toolTipTime == old(toolTipTime)
      ensures !LabelsHidden(crewCount, mode) ==>
        var n, traitHit, levelHit := |activeCrew|, Hits(traitTooltip, overTrait, crewCount), Hits(expTooltip, overLevel, crewCount);
        && |slots| == n
        && (forall i :: 0 <= i < n ==> slots[i] == DisplaySlot(crewCount, i))
        && Hover(currentToolTip, toolTipTime, drawTooltip, drawTraitTooltip)
           == HoverPass(Hover(old(currentToolTip), old(toolTipTime), false, false), traitHit, levelHit, n, now)
        && drawTraitTooltip == AnyHit(traitHit, n)
        && drawTooltip == (AnyHit(traitHit, n) || AnyHit(levelHit, n))
        && currentToolTip == ToolTipTarget(traitHit, levelHit, n, old(currentToolTip))
        && (drawTooltip ==> 0 <= currentToolTip < n)
        && (currentToolTip != old(currentToolTip) ==> toolTipTime == now)
        && (toolTipTime == old(toolTipTime) || toolTipTime == now)
        && (!drawTooltip ==> toolTipTime == old(toolTipTime))
    {
      slots, drawTooltip, drawTraitTooltip := [], false, false;
      if crewCount <= 0 {
        return;
      }
      if mode == Map || mode == Internal || mode == IVA {
        return;
      }
      ghost var traitHit, levelHit := Hits(traitTooltip, overTrait, crewCount), Hits(expTooltip, overLevel, crewCount);
      ghost var start := Hover(currentToolTip, toolTipTime, false, false);
      for i := 0 to |activeCrew|
        invariant |slots| == i
        invariant forall k :: 0 <= k < i ==> slots[k] == DisplaySlot(crewCount, k)
        invariant Hover(currentToolTip, toolTipTime, drawTooltip, drawTraitTooltip)
          == HoverPass(start, traitHit, levelHit, i, now)
      {
        var slot := DisplaySlot(crewCount, i);
        slots := slots + [slot];
        drawTooltip, drawTraitTooltip := HoverEntry(i, overTrait(slot), overLevel(slot), now, drawTooltip, drawTraitTooltip);
      }
      HoverPassSpec(start, traitHit, levelHit, |activeCrew|, now);
      HoverPassTimer(start, traitHit, levelHit, |activeCrew|, now);
    }
  }
}
