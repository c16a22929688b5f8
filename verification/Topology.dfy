/** Where a new volume is placed: the first topology the caller names that its requirements allow. */
module Topologies {
  import opened Model
  import opened Wire

  type Segments = map<string, string>

  const REGION := "topology.storage.example.cloud/region"
  const ZONE := "topology.storage.example.cloud/zone"

  /** `t` carries every segment that `required` asks for. An absent segment reads as the empty text. */
  ghost predicate Satisfies(t: Segments, required: Segments) {
    forall k :: k in required ==> At(t, k) == required[k]
  }

  ghost predicate Permitted(t: Segments, requisite: seq<Segments>) {
    && At(t, REGION) != "" && At(t, ZONE) != ""
    && (requisite == [] || exists n :: 0 <= n < |requisite| && Satisfies(t, requisite[n]))
  }

  /** The index of the first permitted topology of the list, or its length. */
  ghost predicate IsFirst(candidates: seq<Segments>, requisite: seq<Segments>, n: nat) {
    && n <= |candidates|
    && (forall m :: 0 <= m < n ==> !Permitted(candidates[m], requisite))
    && (n < |candidates| ==> Permitted(candidates[n], requisite))
  }

  method Matches(t: Segments, required: Segments) returns (same: bool)
    ensures same == Satisfies(t, required)
  {
    same := true;
    var todo := required.Keys;
    while todo != {}
      invariant todo <= required.Keys
      invariant same <==> forall k :: k in required && k !in todo ==> At(t, k) == required[k]
      decreases todo
    {
      var k :| k in todo;
      if At(t, k) != required[k] {
        same := false;
      }
      todo := todo - {k};
    }
  }

  method Allowed(t: Segments, requisite: seq<Segments>) returns (allowed: bool)
    ensures allowed <==> requisite == [] || exists n :: 0 <= n < |requisite| && Satisfies(t, requisite[n])
  {
    allowed := |requisite| == 0;
    for n := 0 to |requisite|
      invariant allowed <==> requisite == [] || exists m :: 0 <= m < n && Satisfies(t, requisite[m])
    {
      var same := Matches(t, requisite[n]);
      allowed := allowed || same;
    }
  }

  method FirstPermitted(candidates: seq<Segments>, requisite: seq<Segments>) returns (n: nat)
    ensures IsFirst(candidates, requisite, n)
  {
    n := 0;
    while n < |candidates|
      invariant n <= |candidates|
      invariant forall m :: 0 <= m < n ==> !Permitted(candidates[m], requisite)
    {
      var t := candidates[n];
      if At(t, REGION) != "" && At(t, ZONE) != "" {
        var allowed := Allowed(t, requisite);
        if allowed {
          return;
        }
      }
      n := n + 1;
    }
  }

  datatype Place = Place(region: string, zone: string)

  /** Preferred topologies go first, then the required ones; with neither, the adapter's own place. */
  method Choose(preferred: seq<Segments>, requisite: seq<Segments>, home: Place) returns (place: Option<Place>)
    ensures place.None? <==>
      && |preferred| + |requisite| > 0
      && IsFirst(preferred + requisite, requisite, |preferred| + |requisite|)
    ensures preferred == [] && requisite == [] ==> place == Some(home)
    ensures place.Some? && |preferred| + |requisite| > 0 ==>
      exists n :: 0 <= n < |preferred| + |requisite| && IsFirst(preferred + requisite, requisite, n)
        && place.value == Place(At((preferred + requisite)[n], REGION), At((preferred + requisite)[n], ZONE))
  {
    place := Some(home);
    var all := preferred + requisite;
    var n := FirstPermitted(preferred, requisite);
    if n < |preferred| {
      assert IsFirst(all, requisite, n);
      return Some(Place(At(preferred[n], REGION), At(preferred[n], ZONE)));
    }
    var m := FirstPermitted(requisite, requisite);
    assert IsFirst(all, requisite, |preferred| + m);
    if m < |requisite| {
      assert all[|preferred| + m] == requisite[m];
      return Some(Place(At(requisite[m], REGION), At(requisite[m], ZONE)));
    }
    if |preferred| > 0 || |requisite| > 0 {
      place := None;
    }
  }
}
