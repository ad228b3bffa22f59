/**
 * Volume discovery: the mount table a container inspection reports, and the
 * filter that keeps the locally-driven named volumes and projects each one to
 * its in-container destination path (src/index.ts, getMountsFromContainer).
 */
module Mounts {

  /** One entry of the `Mounts` array of a container inspection. `kind` is the
      `Type` field ("volume", "bind", "tmpfs", ...); `driver` is the `Driver`
      field, which bind mounts do not have (any string other than "local"
      stands for that). */
  datatype Mount = Mount(kind: string, driver: string, destination: string)

  /** The filter condition: a named volume of the local volume driver. */
  predicate IsLocalVolume(m: Mount) {
    m.kind == "volume" && m.driver == "local"
  }

  /** The destinations of the local named volumes of `mounts`, in mount order. */
  function MountsFromContainer(mounts: seq<Mount>): (r: seq<string>)
    ensures |r| <= |mounts|
  {
    if mounts == [] then []
    else (if IsLocalVolume(mounts[0]) then [mounts[0].destination] else [])
         + MountsFromContainer(mounts[1..])
  }

  /** `idx` lists, in increasing order, exactly the positions of `mounts` that
      pass the filter, and `r` holds their destinations in that order. */
  ghost predicate Selects(mounts: seq<Mount>, idx: seq<nat>, r: seq<string>) {
    && |idx| == |r|
    && PicksEligible(mounts, idx, r)
    && Increasing(idx)
    && CoversEligible(mounts, idx)
  }

  /** Every picked position passes the filter and yields its destination. */
  ghost predicate PicksEligible(mounts: seq<Mount>, idx: seq<nat>, r: seq<string>)
    requires |idx| == |r|
  {
    forall k :: 0 <= k < |idx| ==>
      idx[k] < |mounts| && IsLocalVolume(mounts[idx[k]]) && r[k] == mounts[idx[k]].destination
  }

  ghost predicate Increasing(idx: seq<nat>) {
    forall k, l :: 0 <= k < l < |idx| ==> idx[k] < idx[l]
  }

  /** No position that passes the filter is left out. */
  ghost predicate CoversEligible(mounts: seq<Mount>, idx: seq<nat>) {
    forall i :: 0 <= i < |mounts| && IsLocalVolume(mounts[i]) ==> i in idx
  }

  /** Every position shifted by one (the positions of a list seen from one
      element further on). */
  function Shift(idx: seq<nat>): (s: seq<nat>)
    ensures |s| == |idx| && forall k :: 0 <= k < |idx| ==> s[k] == idx[k] + 1
  {
    seq(|idx|, k requires 0 <= k < |idx| => idx[k] + 1)
  }

  /** The picks of the tail, shifted, are picks of the whole table. */
  lemma PicksCons(mounts: seq<Mount>, head: seq<nat>, rest: seq<nat>, hr: seq<string>, r': seq<string>)
    requires mounts != [] && |rest| == |r'| && PicksEligible(mounts[1..], rest, r')
    requires (head == [0] && hr == [mounts[0].destination] && IsLocalVolume(mounts[0])) || (head == [] && hr == [])
    ensures |head + Shift(rest)| == |hr + r'| && PicksEligible(mounts, head + Shift(rest), hr + r')
  {
    var idx, r := head + Shift(rest), hr + r';
    forall k | 0 <= k < |idx|
      ensures idx[k] < |mounts| && IsLocalVolume(mounts[idx[k]]) && r[k] == mounts[idx[k]].destination
    {
      if k >= |head| {
        assert idx[k] == rest[k - |head|] + 1;
        assert mounts[1..][rest[k - |head|]] == mounts[idx[k]];
      }
    }
  }

  lemma IncreasingCons(head: seq<nat>, rest: seq<nat>)
    requires Increasing(rest)
    requires head == [0] || head == []
    ensures Increasing(head + Shift(rest))
  {
    var idx := head + Shift(rest);
    forall k, l | 0 <= k < l < |idx|
      ensures idx[k] < idx[l]
    {
      if k >= |head| {
        assert idx[k] == rest[k - |head|] + 1 && idx[l] == rest[l - |head|] + 1;
      }
    }
  }

  lemma CoversCons(mounts: seq<Mount>, head: seq<nat>, rest: seq<nat>)
    requires mounts != [] && CoversEligible(mounts[1..], rest)
    requires (head == [0] && IsLocalVolume(mounts[0])) || (head == [] && !IsLocalVolume(mounts[0]))
    ensures CoversEligible(mounts, head + Shift(rest))
  {
    var idx := head + Shift(rest);
    forall i | 0 <= i < |mounts| && IsLocalVolume(mounts[i])
      ensures i in idx
    {
      if i > 0 {
        assert mounts[1..][i - 1] == mounts[i];
        assert i - 1 in rest;
        var k :| 0 <= k < |rest| && rest[k] == i - 1;
        assert idx[k + |head|] == i;
      }
    }
  }

  /** Selecting after the head, seen from the head: positions shift by one,
      and position 0 joins the selection when the head passes the filter. */
  lemma SelectsCons(mounts: seq<Mount>, rest: seq<nat>, r': seq<string>) returns (idx: seq<nat>)
    requires mounts != []
    requires Selects(mounts[1..], rest, r')
    ensures Selects(mounts, idx, (if IsLocalVolume(mounts[0]) then [mounts[0].destination] else []) + r')
  {
    var head: seq<nat> := if IsLocalVolume(mounts[0]) then [0] else [];
    var hr := if IsLocalVolume(mounts[0]) then [mounts[0].destination] else [];
    PicksCons(mounts, head, rest, hr, r');
    IncreasingCons(head, rest);
    CoversCons(mounts, head, rest);
    idx := head + Shift(rest);
  }

  /** The filter keeps exactly the local named volumes, drops bind mounts and
      other drivers, and keeps the inspected order: the result is the
      destinations of a strictly increasing selection of positions that
      contains every eligible position and no other. */
  lemma {:induction false} MountsFromContainerSelects(mounts: seq<Mount>) returns (idx: seq<nat>)
    ensures Selects(mounts, idx, MountsFromContainer(mounts))
  {
    if mounts == [] {
      idx := [];
    } else {
      var rest := MountsFromContainerSelects(mounts[1..]);
      idx := SelectsCons(mounts, rest, MountsFromContainer(mounts[1..]));
    }
  }

  /** Filtering a concatenated mount table filters each part and keeps them
      in the same order. */
  lemma {:induction false} MountsFromContainerAppend(a: seq<Mount>, b: seq<Mount>)
    ensures MountsFromContainer(a + b) == MountsFromContainer(a) + MountsFromContainer(b)
  {
    if a == [] {
      assert a + b == b;
    } else {
      assert (a + b)[1..] == a[1..] + b;
      MountsFromContainerAppend(a[1..], b);
    }
  }

  /** A table of local named volumes only is kept whole: every destination in
      its original order. */
  lemma {:induction false} AllLocalVolumesKept(mounts: seq<Mount>)
    requires forall i :: 0 <= i < |mounts| ==> IsLocalVolume(mounts[i])
    ensures |MountsFromContainer(mounts)| == |mounts|
    ensures forall i :: 0 <= i < |mounts| ==> MountsFromContainer(mounts)[i] == mounts[i].destination
  {
    if mounts != [] {
      AllLocalVolumesKept(mounts[1..]);
    }
  }

  /** A table without any local named volume yields no destination. */
  lemma {:induction false} NoLocalVolumeNothingKept(mounts: seq<Mount>)
    requires forall i :: 0 <= i < |mounts| ==> !IsLocalVolume(mounts[i])
    ensures MountsFromContainer(mounts) == []
  {
    if mounts != [] {
      NoLocalVolumeNothingKept(mounts[1..]);
    }
  }
}
