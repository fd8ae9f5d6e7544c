/**
 * The steps of the biometric scan pages and the synthetic progress counter both scans advance:
 * `for (let i = 0; i <= 100; i += stride) setScanProgress(i)` with stride 10 for the face and 15
 * for the retina.
 */
module ScanProgress {
  import opened Arith

  datatype ScanStep = PermissionRequest | CameraAccess | FaceScan | RetinaScan | Completed

  const ProgressLimit: nat := 100
  const FaceStride: nat := 10
  const RetinaStride: nat := 15

  /** The values the counter takes, in order. */
  function Schedule(stride: nat, limit: nat): seq<nat>
    requires stride > 0
  {
    seq(limit / stride + 1, k => k * stride)
  }

  /** The counter starts at 0, shows exactly the multiples of the stride up to the limit, and stops at the last of them. */
  lemma ScheduleValues(stride: nat, limit: nat, v: int)
    requires stride > 0
    ensures Schedule(stride, limit)[0] == 0
    ensures Schedule(stride, limit)[|Schedule(stride, limit)| - 1] == limit - limit % stride
    ensures v in Schedule(stride, limit) <==> 0 <= v <= limit && v % stride == 0
  {
    var s := Schedule(stride, limit);
    var q := limit / stride;
    assert s[q] == q * stride == limit - limit % stride;
    if v in s {
      var k :| 0 <= k < |s| && s[k] == v;
      MultipleFits(k, stride, limit);
      MulAddDivMod(k, stride, 0);
    }
    if 0 <= v <= limit && v % stride == 0 {
      var k := v / stride;
      assert v == k * stride;
      MultipleFits(k, stride, limit);
      assert s[k] == v;
    }
  }

  /** The face counter ends at 100 and stays within [0, 100]. */
  lemma FaceScheduleReachesLimit()
    ensures |Schedule(FaceStride, ProgressLimit)| == 11
    ensures Schedule(FaceStride, ProgressLimit)[10] == 100
    ensures forall k :: 0 <= k < 11 ==> 0 <= Schedule(FaceStride, ProgressLimit)[k] <= 100
  {
  }

  /** The retina counter ends at 90: it never shows 100, so the completion mark tied to 100 never appears for it. */
  lemma RetinaScheduleStopsShort()
    ensures |Schedule(RetinaStride, ProgressLimit)| == 7
    ensures Schedule(RetinaStride, ProgressLimit)[6] == 90
    ensures 100 !in Schedule(RetinaStride, ProgressLimit)
  {
    ScheduleValues(RetinaStride, ProgressLimit, 100);
  }

  /** The counting loop itself: the values set, in order. */
  method Sweep(stride: nat, limit: nat) returns (shown: seq<nat>)
    requires stride > 0
    ensures shown == Schedule(stride, limit)
  {
    shown := [];
    var i: nat := 0;
    while i <= limit
      invariant i == |shown| * stride
      invariant |shown| <= limit / stride + 1
      invariant forall k :: 0 <= k < |shown| ==> shown[k] == k * stride
    {
      MultipleFits(|shown|, stride, limit);
      shown := shown + [i];
      i := i + stride;
    }
    MultipleFits(|shown|, stride, limit);
  }
}
