/**
  Device resolution. The system service reports the reachable devices as an
  ordered list; the model sees only their names, and a device is identified by
  its index in that list.
 */
module Directory {
  import opened Wrappers
  import opened Ascii

  /** Whether a reported name matches the (already lower-cased) target. */
  predicate Matches(name: string, target: string) {
    LowerStr(name) == target
  }

  /** `i` is the index `first(where:)` stops at: a match with no match before it. */
  predicate IsFirstMatch(names: seq<string>, target: string, i: int) {
    && 0 <= i < |names|
    && Matches(names[i], target)
    && forall j :: 0 <= j < i ==> !Matches(names[j], target)
  }

  /** Linear scan for the first matching name. */
  function Resolve(names: seq<string>, target: string): (r: Option<nat>)
    ensures r.Some? ==> IsFirstMatch(names, target, r.value)
    ensures r.None? <==> forall j :: 0 <= j < |names| ==> !Matches(names[j], target)
  {
    if names == [] then None
    else if Matches(names[0], target) then Some(0)
    else match Resolve(names[1..], target)
      case None => None
      case Some(i) => Some(i + 1)
  }

  /** The scan as a loop over the list, stopping at the first match. */
  method FindFirst(names: seq<string>, target: string) returns (found: Option<nat>)
    ensures found.Some? ==> IsFirstMatch(names, target, found.value)
    ensures found.None? ==> forall j :: 0 <= j < |names| ==> !Matches(names[j], target)
    ensures found == Resolve(names, target)
  {
    var k := 0;
    while k < |names|
      invariant 0 <= k <= |names|
      invariant forall j :: 0 <= j < k ==> !Matches(names[j], target)
    {
      if LowerStr(names[k]) == target {
        ResolveIsFirstMatch(names, target, k);
        return Some(k);
      }
      k := k + 1;
    }
    return None;
  }

  /** There is at most one first match, so the scan's answer is determined:
      `Resolve` returns `i` exactly when `i` is the first match. */
  lemma ResolveIsFirstMatch(names: seq<string>, target: string, i: int)
    ensures Resolve(names, target) == Some(i) <==> IsFirstMatch(names, target, i)
  {
  }

  /** First match wins: entries appended after a match never change the answer,
      even when they carry the same name. */
  lemma {:induction false} ResolveIgnoresLaterEntries(names: seq<string>, more: seq<string>, target: string)
    requires Resolve(names, target).Some?
    ensures Resolve(names + more, target) == Resolve(names, target)
  {
    assert names != [];
    assert (names + more)[0] == names[0];
    if !Matches(names[0], target) {
      assert (names + more)[1..] == names[1..] + more;
      ResolveIgnoresLaterEntries(names[1..], more, target);
    }
  }

  /** Entries prepended with no match shift the answer by their count. */
  lemma {:induction false} ResolveSkipsNonMatching(prefix: seq<string>, names: seq<string>, target: string)
    requires forall j :: 0 <= j < |prefix| ==> !Matches(prefix[j], target)
    ensures Resolve(names, target).None? ==> Resolve(prefix + names, target).None?
    ensures Resolve(names, target).Some? ==>
      Resolve(prefix + names, target) == Some(|prefix| + Resolve(names, target).value)
  {
    if prefix == [] {
      assert prefix + names == names;
    } else {
      assert !Matches(prefix[0], target);
      assert (prefix + names)[0] == prefix[0];
      assert (prefix + names)[1..] == prefix[1..] + names;
      ResolveSkipsNonMatching(prefix[1..], names, target);
    }
  }
}
