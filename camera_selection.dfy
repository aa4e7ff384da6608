/** Choosing the cameras to use and ranking them. The first enumerated device is always used,
    later ones only when they share its subnet, up to the camera limit. The cameras in use are
    then ordered by serial number, and that order decides which camera feeds the first and which
    the second image of every pair. */
module Selection {
  import opened Text

  /** `c_maxCamerasToUse`. */
  const MaxCamerasToUse: nat := 2

  /** What the transport layer reports for an enumerated GigE device. */
  datatype DeviceInfo = DeviceInfo(serial: string, subnet: string)

  function Min(a: nat, b: nat): nat {
    if a <= b then a else b
  }

  // ----- Subnet filter -----

  /** The first `room` devices of `rest` that are on `subnet`, in their order. */
  function Keep(rest: seq<DeviceInfo>, subnet: string, room: nat): seq<DeviceInfo>
  {
    if room == 0 || rest == [] then []
    else if rest[0].subnet == subnet then [rest[0]] + Keep(rest[1..], subnet, room - 1)
    else Keep(rest[1..], subnet, room)
  }

  /** The devices the filter keeps: the first device, then later devices on its subnet while
      there is room. */
  function Usable(all: seq<DeviceInfo>): seq<DeviceInfo>
    requires all != []
  {
    [all[0]] + Keep(all[1..], all[0].subnet, MaxCamerasToUse - 1)
  }

  /** Reference definition: every device of `s` on `subnet`, in order. */
  function OnSubnet(s: seq<DeviceInfo>, subnet: string): seq<DeviceInfo>
  {
    if s == [] then []
    else (if s[0].subnet == subnet then [s[0]] else []) + OnSubnet(s[1..], subnet)
  }

  /** `a` is `b` with some elements left out, the rest in their order. */
  predicate IsSubsequence<T(==)>(a: seq<T>, b: seq<T>)
    decreases |b|
  {
    if a == [] then true
    else if b == [] then false
    else (a[0] == b[0] && IsSubsequence(a[1..], b[1..])) || IsSubsequence(a, b[1..])
  }

  /** The loop of the filter, over the devices after the first. */
  method FilterSubnet(all: seq<DeviceInfo>) returns (usable: seq<DeviceInfo>, subnet: string)
    requires all != []
    ensures usable == Usable(all) && subnet == all[0].subnet
  {
    usable := [all[0]];
    subnet := all[0].subnet;
    var i := 1;
    while i < |all| && |usable| < MaxCamerasToUse
      invariant 1 <= i <= |all|
      invariant 1 <= |usable| <= MaxCamerasToUse
      invariant Usable(all) == usable + Keep(all[i..], subnet, MaxCamerasToUse - |usable|)
    {
      assert all[i..][1..] == all[i + 1..];
      if subnet == all[i].subnet {
        usable := usable + [all[i]];
      }
      i := i + 1;
    }
    assert usable + [] == usable;
  }

  /** `Keep` takes a prefix of the devices on the subnet: as many as there are room for. */
  lemma {:induction false} KeepIsPrefixOfOnSubnet(rest: seq<DeviceInfo>, subnet: string, room: nat)
    ensures Keep(rest, subnet, room) == OnSubnet(rest, subnet)[..Min(room, |OnSubnet(rest, subnet)|)]
  {
    if room != 0 && rest != [] {
      KeepIsPrefixOfOnSubnet(rest[1..], subnet, if rest[0].subnet == subnet then room - 1 else room);
      var tail := OnSubnet(rest[1..], subnet);
      if rest[0].subnet == subnet {
        assert OnSubnet(rest, subnet) == [rest[0]] + tail;
        assert ([rest[0]] + tail)[..Min(room, |tail| + 1)] == [rest[0]] + tail[..Min(room - 1, |tail|)];
      } else {
        assert OnSubnet(rest, subnet) == tail;
      }
    }
  }

  /** Everything `Keep` returns is taken from `rest`, in order. */
  lemma {:induction false} KeepIsSubsequence(rest: seq<DeviceInfo>, subnet: string, room: nat)
    ensures IsSubsequence(Keep(rest, subnet, room), rest)
  {
    if room != 0 && rest != [] {
      if rest[0].subnet == subnet {
        KeepIsSubsequence(rest[1..], subnet, room - 1);
        assert ([rest[0]] + Keep(rest[1..], subnet, room - 1))[1..] == Keep(rest[1..], subnet, room - 1);
      } else {
        KeepIsSubsequence(rest[1..], subnet, room);
      }
    }
  }

  lemma {:induction false} OnSubnetIsOnSubnet(s: seq<DeviceInfo>, subnet: string)
    ensures forall d :: d in OnSubnet(s, subnet) ==> d.subnet == subnet
  {
    if s != [] {
      OnSubnetIsOnSubnet(s[1..], subnet);
    }
  }

  /** The filter's result: it starts with the first device, is an order-preserving subsequence
      of the enumeration, stays on the first device's subnet and holds at most the camera limit;
      it is exactly the first device followed by the earliest later devices on its subnet. */
  lemma UsableProperties(all: seq<DeviceInfo>)
    requires all != []
    ensures var u := Usable(all);
      && u[0] == all[0]
      && IsSubsequence(u, all)
      && (forall i :: 0 <= i < |u| ==> u[i].subnet == all[0].subnet)
      && 1 <= |u| <= MaxCamerasToUse
      && u == [all[0]] + OnSubnet(all[1..], all[0].subnet)[..Min(MaxCamerasToUse - 1, |OnSubnet(all[1..], all[0].subnet)|)]
  {
    var subnet := all[0].subnet;
    var kept := Keep(all[1..], subnet, MaxCamerasToUse - 1);
    KeepIsSubsequence(all[1..], subnet, MaxCamerasToUse - 1);
    KeepIsPrefixOfOnSubnet(all[1..], subnet, MaxCamerasToUse - 1);
    OnSubnetIsOnSubnet(all[1..], subnet);
    var u := Usable(all);
    assert u[1..] == kept;
    assert u[0] == all[0];
    forall i | 1 <= i < |u| ensures u[i].subnet == subnet {
      assert u[i] == kept[i - 1];
      assert kept[i - 1] in OnSubnet(all[1..], subnet);
    }
  }

  /** The "more than the limit" test that follows the filter; it throws when it holds. */
  predicate TooManyCameras(n: nat) {
    n > MaxCamerasToUse
  }

  /** The loop guard makes the "more than the limit" error unreachable. */
  lemma TooManyCamerasUnreachable(all: seq<DeviceInfo>)
    requires all != []
    ensures !TooManyCameras(|Usable(all)|)
  {
    UsableProperties(all);
  }

  /** The "not all the cameras have been detected" warning as written: it repeats the test
      above, so it can never be shown. */
  predicate MissingCamerasAsWritten(n: nat) {
    n > MaxCamerasToUse
  }

  lemma MissingCamerasAsWrittenNeverShown(all: seq<DeviceInfo>)
    requires all != []
    ensures !MissingCamerasAsWritten(|Usable(all)|)
  {
    UsableProperties(all);
  }

  /** The warning as its message intends it: fewer cameras than the limit are in use. */
  predicate MissingCameras(n: nat) {
    n < MaxCamerasToUse
  }

  /** The intended warning is shown exactly when the first device's subnet holds fewer cameras
      than the limit. */
  lemma MissingCamerasShownIffFewOnSubnet(all: seq<DeviceInfo>)
    requires all != []
    ensures MissingCameras(|Usable(all)|) <==> 1 + |OnSubnet(all[1..], all[0].subnet)| < MaxCamerasToUse
  {
    UsableProperties(all);
  }

  // ----- Ranking by serial number -----

  /** An element of the vector that is sorted: a serial number and the camera's array index. */
  datatype SerialNumIdx = SerialNumIdx(number: string, index: nat)

  /** Inserts `x` before the first element whose serial it does not follow. */
  function Insert(x: SerialNumIdx, s: seq<SerialNumIdx>): seq<SerialNumIdx>
  {
    if s == [] || LexLeq(x.number, s[0].number) then [x] + s
    else [s[0]] + Insert(x, s[1..])
  }

  /** A sort by serial number; the order of equal serials is not specified by `std::sort`, and no
      property below depends on it. */
  function SortBySerial(s: seq<SerialNumIdx>): seq<SerialNumIdx>
  {
    if s == [] then [] else Insert(s[0], SortBySerial(s[1..]))
  }

  predicate SortedBySerial(s: seq<SerialNumIdx>) {
    forall a, b :: 0 <= a < b < |s| ==> LexLeq(s[a].number, s[b].number)
  }

  predicate DistinctIndices(s: seq<SerialNumIdx>) {
    forall a, b :: 0 <= a < b < |s| ==> s[a].index != s[b].index
  }

  lemma {:induction false} InsertElements(x: SerialNumIdx, s: seq<SerialNumIdx>)
    ensures |Insert(x, s)| == |s| + 1
    ensures forall y :: y in Insert(x, s) <==> y == x || y in s
  {
    if s != [] && !LexLeq(x.number, s[0].number) {
      InsertElements(x, s[1..]);
      assert s == [s[0]] + s[1..];
    }
  }

  lemma {:induction false} InsertKeepsSorted(x: SerialNumIdx, s: seq<SerialNumIdx>)
    requires SortedBySerial(s)
    ensures SortedBySerial(Insert(x, s))
  {
    if s == [] {
    } else if LexLeq(x.number, s[0].number) {
      var r := [x] + s;
      forall a, b | 0 <= a < b < |r| ensures LexLeq(r[a].number, r[b].number) {
        if a == 0 && b > 1 {
          LexLeqTransitive(x.number, s[0].number, s[b - 1].number);
        }
      }
    } else {
      InsertKeepsSorted(x, s[1..]);
      InsertElements(x, s[1..]);
      var t := Insert(x, s[1..]);
      var r := [s[0]] + t;
      LexLeqTotal(x.number, s[0].number);
      forall b | 0 <= b < |t| ensures LexLeq(s[0].number, t[b].number) {
        assert t[b] in t;
        if t[b] != x {
          var k :| 0 <= k < |s[1..]| && s[1..][k] == t[b];
          assert s[k + 1] == t[b];
        }
      }
      forall a, b | 0 <= a < b < |r| ensures LexLeq(r[a].number, r[b].number) {
        if a == 0 {
          assert r[b] == t[b - 1];
        } else {
          assert r[a] == t[a - 1] && r[b] == t[b - 1];
        }
      }
    }
  }

  lemma {:induction false} InsertKeepsDistinct(x: SerialNumIdx, s: seq<SerialNumIdx>)
    requires DistinctIndices(s) && forall y :: y in s ==> y.index != x.index
    ensures DistinctIndices(Insert(x, s))
  {
    if s != [] && !LexLeq(x.number, s[0].number) {
      InsertKeepsDistinct(x, s[1..]);
      InsertElements(x, s[1..]);
      var t := Insert(x, s[1..]);
      var r := [s[0]] + t;
      forall b | 0 <= b < |t| ensures s[0].index != t[b].index {
        assert t[b] in t;
        if t[b] != x {
          var k :| 0 <= k < |s[1..]| && s[1..][k] == t[b];
          assert s[k + 1] == t[b];
        }
      }
      forall a, b | 0 <= a < b < |r| ensures r[a].index != r[b].index {
        if a == 0 {
          assert r[b] == t[b - 1];
        } else {
          assert r[a] == t[a - 1] && r[b] == t[b - 1];
        }
      }
    } else if s != [] {
      var r := [x] + s;
      forall a, b | 0 <= a < b < |r| ensures r[a].index != r[b].index {
        if a == 0 {
          assert r[b] == s[b - 1] && r[b] in s;
        }
      }
    }
  }

  /** The sort keeps the elements, orders them by serial, and keeps indices distinct. */
  lemma {:induction false} SortBySerialFacts(s: seq<SerialNumIdx>)
    ensures |SortBySerial(s)| == |s|
    ensures forall y :: y in SortBySerial(s) <==> y in s
    ensures SortedBySerial(SortBySerial(s))
    ensures DistinctIndices(s) ==> DistinctIndices(SortBySerial(s))
  {
    if s != [] {
      SortBySerialFacts(s[1..]);
      InsertElements(s[0], SortBySerial(s[1..]));
      InsertKeepsSorted(s[0], SortBySerial(s[1..]));
      assert s == [s[0]] + s[1..];
      if DistinctIndices(s) {
        forall y | y in SortBySerial(s[1..]) ensures y.index != s[0].index {
          var k :| 0 <= k < |s[1..]| && s[1..][k] == y;
          assert s[k + 1] == y;
        }
        InsertKeepsDistinct(s[0], SortBySerial(s[1..]));
      }
    }
  }

  /** `p` lists each of 0 .. n-1 exactly once: it has n entries, all below n, none repeated. */
  predicate IsPermutation(p: seq<nat>, n: nat) {
    |p| == n
    && (forall k :: 0 <= k < n ==> p[k] < n)
    && (forall a, b :: 0 <= a < b < n ==> p[a] != p[b])
  }

  /** The vector of serial numbers and array indices that is sorted. */
  function Indexed(serials: seq<string>): seq<SerialNumIdx> {
    seq(|serials|, k requires 0 <= k < |serials| => SerialNumIdx(serials[k], k))
  }

  /** The sorted vector holds every camera once, ordered by serial number, each entry with the
      serial of the camera it indexes. */
  lemma SortedIndexedFacts(serials: seq<string>)
    ensures var sorted := SortBySerial(Indexed(serials));
      && |sorted| == |serials|
      && SortedBySerial(sorted) && DistinctIndices(sorted)
      && forall k :: 0 <= k < |sorted| ==> sorted[k].index < |serials| && sorted[k].number == serials[sorted[k].index]
  {
    var sn := Indexed(serials);
    var sorted := SortBySerial(sn);
    SortBySerialFacts(sn);
    forall y | y in sn ensures y.index < |serials| && y.number == serials[y.index] {
      var m :| 0 <= m < |sn| && sn[m] == y;
    }
    forall k | 0 <= k < |sorted| ensures sorted[k].index < |serials| && sorted[k].number == serials[sorted[k].index] {
      assert sorted[k] in sorted;
    }
  }

  /** The ranking of cameras with serial numbers `serials`: position k is the array index of the
      camera with the k-th smallest serial number, so it lists every camera once and the serials
      it picks out ascend. */
  function Ranking(serials: seq<string>): (idx: seq<nat>)
    ensures IsPermutation(idx, |serials|)
    ensures forall a, b :: 0 <= a < b < |idx| ==> LexLeq(serials[idx[a]], serials[idx[b]])
  {
    SortedIndexedFacts(serials);
    var sorted := SortBySerial(Indexed(serials));
    seq(|sorted|, k requires 0 <= k < |sorted| => sorted[k].index)
  }

  /** Builds the vector of serial numbers and indices, sorts it, and lists the indices in
      sorted order. */
  method SortedCameraIdx(serials: seq<string>) returns (idx: seq<nat>)
    ensures idx == Ranking(serials)
    ensures IsPermutation(idx, |serials|)
    ensures forall a, b :: 0 <= a < b < |idx| ==> LexLeq(serials[idx[a]], serials[idx[b]])
  {
    var sn: seq<SerialNumIdx> := [];
    for i := 0 to |serials|
      invariant |sn| == i
      invariant forall k :: 0 <= k < i ==> sn[k] == SerialNumIdx(serials[k], k)
    {
      sn := sn + [SerialNumIdx(serials[i], i)];
    }
    assert sn == Indexed(serials);
    var sorted := SortBySerial(sn);
    idx := [];
    for j := 0 to |sorted|
      invariant |idx| == j
      invariant forall k :: 0 <= k < j ==> idx[k] == sorted[k].index
    {
      idx := idx + [sorted[j].index];
    }
  }

  /** With at most two cameras every ranking is its own inverse. */
  lemma SmallPermutationIsInvolution(p: seq<nat>, n: nat)
    requires IsPermutation(p, n) && n <= MaxCamerasToUse
    ensures forall i :: 0 <= i < n ==> p[p[i]] == i
  {
    if n == 2 {
      assert p[0] != p[1];
    }
  }

  /** The grab loop looks the ranking up by array index, asking whether camera `c` is ranked
      first by `p[c] == 0`, where `c == p[0]` is meant. With at most two cameras the two agree. */
  lemma RoutingByArrayIndexIsSound(p: seq<nat>, n: nat, c: nat)
    requires IsPermutation(p, n) && n <= MaxCamerasToUse && c < n
    ensures p[c] == 0 <==> c == p[0]
  {
    SmallPermutationIsInvolution(p, n);
  }

  /** With three cameras they would not: for the ranking [1, 2, 0] camera 2 passes the test,
      although camera 1 has the smallest serial. */
  lemma RoutingByArrayIndexNeedsTwoCameras()
    ensures var p: seq<nat> := [1, 2, 0];
      IsPermutation(p, 3) && p[2] == 0 && p[0] != 2
  {
  }
}
