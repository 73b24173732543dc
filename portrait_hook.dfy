/** The portrait registry: a list of the crew portraits currently alive,
    kept free of duplicates, and the one-tracker-per-portrait rule used when
    trackers are attached to the portrait gallery. */
module Portraits {

  /** A crew portrait widget of the host; trackerCount is the number of
      tracker components attached to its game object. */
  class KerbalPortrait {
    var trackerCount: nat

    constructor ()
      ensures trackerCount == 0
    {
      trackerCount := 0;
    }
  }

  /** No element occurs twice. */
  predicate NoDuplicates<T(==)>(s: seq<T>) {
    forall i, j :: 0 <= i < j < |s| ==> s[i] != s[j]
  }

  /** The list extension that appends an element only if it is not already present. */
  function AddUnique<T(==)>(s: seq<T>, x: T): (r: seq<T>)
    ensures x in r && s <= r && |r| <= |s| + 1
    ensures forall i :: 0 <= i < |r| ==> r[i] in s || r[i] == x
    ensures x in s ==> r == s
    ensures NoDuplicates(s) ==> NoDuplicates(r)
  {
    if x in s then s else s + [x]
  }

  /** Position of the first occurrence of x. */
  function IndexOf<T(==)>(s: seq<T>, x: T): (k: nat)
    requires x in s
    ensures k < |s| && s[k] == x
    ensures forall j :: 0 <= j < k ==> s[j] != x
  {
    if s[0] == x then 0 else 1 + IndexOf(s[1..], x)
  }

  /** The list's Remove: drops the first occurrence of x, if any, and keeps
      the order of the rest. */
  function RemoveFirst<T(==)>(s: seq<T>, x: T): (r: seq<T>)
    ensures x !in s ==> r == s
    ensures |r| == if x in s then |s| - 1 else |s|
  {
    if s == [] then []
    else if s[0] == x then s[1..]
    else
      assert s == [s[0]] + s[1..];
      [s[0]] + RemoveFirst(s[1..], x)
  }

  /** Removing a present x cuts out exactly its first occurrence. */
  lemma {:induction false} RemoveFirstKeepsOrder<T>(s: seq<T>, x: T)
    requires x in s
    ensures RemoveFirst(s, x) == s[..IndexOf(s, x)] + s[IndexOf(s, x) + 1..]
  {
    if s[0] != x {
      assert s == [s[0]] + s[1..];
      var k := IndexOf(s[1..], x);
      RemoveFirstKeepsOrder(s[1..], x);
      assert s[..k + 1] == [s[0]] + s[1..][..k];
      assert s[k + 2..] == s[1..][k + 1..];
    }
  }

  /** RemoveFirst takes away exactly one copy of x when there is one. */
  lemma {:induction false} RemoveFirstCount<T>(s: seq<T>, x: T)
    ensures multiset(RemoveFirst(s, x)) == multiset(s) - multiset{x}
  {
    if s == [] {
    } else {
      assert s == [s[0]] + s[1..];
      if s[0] != x {
        RemoveFirstCount(s[1..], x);
        assert RemoveFirst(s, x) == [s[0]] + RemoveFirst(s[1..], x);
      }
    }
  }

  /** On a list without duplicates RemoveFirst leaves none, and no copy of x. */
  lemma RemoveFirstUnique<T>(s: seq<T>, x: T)
    requires NoDuplicates(s)
    ensures NoDuplicates(RemoveFirst(s, x)) && x !in RemoveFirst(s, x)
  {
    if x in s {
      var k := IndexOf(s, x);
      var r := RemoveFirst(s, x);
      RemoveFirstKeepsOrder(s, x);
      assert forall i :: 0 <= i < k ==> r[i] == s[i];
      assert forall i :: k <= i < |r| ==> r[i] == s[i + 1];
    }
  }

  /** Adding an absent element and removing it again gives back the list. */
  lemma AddThenRemove<T>(s: seq<T>, x: T)
    requires x !in s
    ensures RemoveFirst(AddUnique(s, x), x) == s
  {
    var t := s + [x];
    assert x in t;
    var k := IndexOf(t, x);
    assert k == |s|;
    RemoveFirstKeepsOrder(t, x);
    assert t[..k] == s;
  }

  /** The registry of live portraits. The source keeps it in one static list
      shared by the whole addon; an instance of this class is that list. */
  class PortraitHook {
    var portraitList: seq<KerbalPortrait?>

    /** Only AddPortrait inserts, and it skips null and present portraits. */
    ghost predicate Valid()
      reads this
    {
      null !in portraitList && NoDuplicates(portraitList)
    }

    constructor ()
      ensures Valid() && portraitList == []
    {
      portraitList := [];
    }

    /** Registers a portrait; null and an already registered one change nothing. */
    method AddPortrait(portrait: KerbalPortrait?)
      requires Valid()
      modifies this
      ensures Valid()
      ensures portrait == null ==> portraitList == old(portraitList)
      ensures portrait != null ==> portraitList == AddUnique(old(portraitList), portrait)
    {
      if portrait == null {
        return;
      }
      portraitList := AddUnique(portraitList, portrait);
    }

    /** Unregisters a portrait; an absent one (null included) changes nothing. */
    method RemovePortrait(portrait: KerbalPortrait?)
      requires Valid()
      modifies this
      ensures Valid()
      ensures portrait !in portraitList
      ensures portraitList == RemoveFirst(old(portraitList), portrait)
    {
      RemoveFirstUnique(portraitList, portrait);
      RemoveFirstCount(portraitList, portrait);
      assert null !in multiset(RemoveFirst(portraitList, portrait));
      if portrait in portraitList {
        portraitList := RemoveFirst(portraitList, portrait);
      }
    }
  }

  /** Attaches a tracker unless the portrait already has one. */
  method AddTracker(portrait: KerbalPortrait)
    modifies portrait
    ensures portrait.trackerCount >= 1
    ensures old(portrait.trackerCount) >= 1 ==> portrait.trackerCount == old(portrait.trackerCount)
    ensures old(portrait.trackerCount) == 0 ==> portrait.trackerCount == 1
  {
    if portrait.trackerCount > 0 {
      return;
    }
    portrait.trackerCount := portrait.trackerCount + 1;
  }

  /** Start-up pass over the gallery: the prefab and every existing portrait
      get a tracker, and none ends up with a second one, even when it is
      listed more than once. */
  method AttachTrackers(prefab: KerbalPortrait, portraits: seq<KerbalPortrait>)
    modifies prefab, set p | p in portraits
    ensures forall p :: p == prefab || p in portraits ==> p.trackerCount >= 1
    ensures forall p :: p == prefab || p in portraits ==>
      (old(p.trackerCount) <= 1 ==> p.trackerCount == 1)
    ensures forall p :: p == prefab || p in portraits ==>
      (old(p.trackerCount) >= 1 ==> p.trackerCount == old(p.trackerCount))
  {
    AddTracker(prefab);
    for i := 0 to |portraits|
      invariant prefab.trackerCount >= 1
      invariant old(prefab.trackerCount) >= 1 ==> prefab.trackerCount == old(prefab.trackerCount)
      invariant old(prefab.trackerCount) <= 1 ==> prefab.trackerCount == 1
      invariant forall p :: p in portraits[..i] ==> p.trackerCount >= 1
      invariant forall p :: p in portraits[..i] ==> (old(p.trackerCount) <= 1 ==> p.trackerCount == 1)
      invariant forall p :: p in portraits ==>
        (old(p.trackerCount) >= 1 ==> p.trackerCount == old(p.trackerCount))
      invariant forall p :: p in portraits && p != prefab && p !in portraits[..i] ==>
        p.trackerCount == old(p.trackerCount)
    {
      AddTracker(portraits[i]);
      assert portraits[..i + 1] == portraits[..i] + [portraits[i]];
    }
    assert portraits[..|portraits|] == portraits;
  }
}
