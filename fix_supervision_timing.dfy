/**
 * Repairing supervision timing in a cuts manifest
 * (egs/spanish/ASR/fix-supervision-timing.py).
 *
 * Each input line is one cut. A supervision that ends later than the cut's
 * duration plus a tolerance is truncated so that it ends exactly at the cut's
 * end; everything else is written back unchanged, one cut per line. Durations
 * are real numbers here, not IEEE doubles.
 */
module FixSupervisionTiming {
  import opened Wrappers
  import opened JsonValue

  /** A supervision: the two fields the repair reads, and all its other JSON members. */
  datatype Supervision = Supervision(start: real, duration: real, others: seq<(string, Json)>)

  /**
   * A cut: its id, its duration, its `supervisions` member (`None` when the
   * member is absent) and all its other JSON members.
   */
  datatype Cut = Cut(id: string, duration: real, supervisions: Option<seq<Supervision>>,
                     others: seq<(string, Json)>)

  /** The script's default tolerance, in seconds. */
  const DefaultTolerance: real := 0.001

  /** The supervision ends after the cut's end plus the tolerance. */
  predicate Violates(s: Supervision, cutDuration: real, tolerance: real)
  {
    s.start + s.duration > cutDuration + tolerance
  }

  /** Every supervision of the cut ends within the cut plus the tolerance. */
  predicate WithinBounds(c: Cut, tolerance: real)
  {
    c.supervisions.Some? ==>
      forall j :: 0 <= j < |c.supervisions.value| ==> !Violates(c.supervisions.value[j], c.duration, tolerance)
  }

  /** The repair of one supervision: a late one is cut back to end at the cut's end. */
  function FixSupervision(s: Supervision, cutDuration: real, tolerance: real): (r: Supervision)
    ensures r.start == s.start && r.others == s.others
    ensures Violates(s, cutDuration, tolerance) ==> r.start + r.duration == cutDuration
    ensures !Violates(s, cutDuration, tolerance) ==> r == s
    ensures tolerance >= 0.0 ==> !Violates(r, cutDuration, tolerance)
  {
    if Violates(s, cutDuration, tolerance) then s.(duration := cutDuration - s.start) else s
  }

  function FixEach(sups: seq<Supervision>, cutDuration: real, tolerance: real): (r: seq<Supervision>)
    ensures |r| == |sups|
  {
    seq(|sups|, j requires 0 <= j < |sups| => FixSupervision(sups[j], cutDuration, tolerance))
  }

  /** The repair of one cut: only the supervisions' durations may change. */
  function FixCut(c: Cut, tolerance: real): (r: Cut)
    ensures r.id == c.id && r.duration == c.duration && r.others == c.others
    ensures r.supervisions.Some? <==> c.supervisions.Some?
    ensures c.supervisions.Some? ==> |r.supervisions.value| == |c.supervisions.value|
    ensures c.supervisions.Some? ==>
              forall j :: 0 <= j < |r.supervisions.value| ==>
                r.supervisions.value[j] == FixSupervision(c.supervisions.value[j], c.duration, tolerance)
  {
    match c.supervisions
    case Some(sups) =>
      if |sups| > 0 then c.(supervisions := Some(FixEach(sups, c.duration, tolerance))) else c
    case None => c
  }

  /** How many of the supervisions violate the bound. */
  function ViolationCount(sups: seq<Supervision>, cutDuration: real, tolerance: real): nat
    decreases |sups|
  {
    if sups == [] then 0
    else ViolationCount(sups[..|sups| - 1], cutDuration, tolerance)
         + (if Violates(sups[|sups| - 1], cutDuration, tolerance) then 1 else 0)
  }

  function CutViolations(c: Cut, tolerance: real): nat
  {
    match c.supervisions
    case Some(sups) => ViolationCount(sups, c.duration, tolerance)
    case None => 0
  }

  /** The number of supervisions, over all cuts, that violate the bound. */
  function TotalViolations(cuts: seq<Cut>, tolerance: real): nat
    decreases |cuts|
  {
    if cuts == [] then 0
    else TotalViolations(cuts[..|cuts| - 1], tolerance) + CutViolations(cuts[|cuts| - 1], tolerance)
  }

  /** The ids of the cuts with at least one late supervision, in input order. */
  function FixedIds(cuts: seq<Cut>, tolerance: real): seq<string>
    decreases |cuts|
  {
    if cuts == [] then []
    else
      var last := cuts[|cuts| - 1];
      FixedIds(cuts[..|cuts| - 1], tolerance) + (if CutViolations(last, tolerance) > 0 then [last.id] else [])
  }

  /**
   * The body of the outer loop of `fix_supervisions` for one cut: repairs its
   * supervisions one by one and reports how many were late and whether any was.
   */
  method FixOneCut(cut: Cut, tolerance: real) returns (fixed: Cut, count: nat, anyFixed: bool)
    ensures fixed == FixCut(cut, tolerance)
    ensures count == CutViolations(cut, tolerance)
    ensures anyFixed <==> count > 0
  {
    fixed, count, anyFixed := cut, 0, false;
    if cut.supervisions.Some? && |cut.supervisions.value| > 0 {
      var original := cut.supervisions.value;
      var sups := original;
      var j := 0;
      while j < |sups|
        invariant j <= |sups| == |original|
        invariant forall m :: 0 <= m < j ==> sups[m] == FixSupervision(original[m], cut.duration, tolerance)
        invariant forall m :: j <= m < |sups| ==> sups[m] == original[m]
        invariant count == ViolationCount(original[..j], cut.duration, tolerance)
        invariant anyFixed <==> count > 0
      {
        assert original[..j + 1][..j] == original[..j];
        assert ViolationCount(original[..j + 1], cut.duration, tolerance)
               == count + (if Violates(original[j], cut.duration, tolerance) then 1 else 0);
        var sup := sups[j];
        if sup.start + sup.duration > cut.duration + tolerance {
          sups := sups[j := sup.(duration := cut.duration - sup.start)];
          anyFixed := true;
          count := count + 1;
        }
        assert sups[j] == FixSupervision(original[j], cut.duration, tolerance);
        j := j + 1;
      }
      assert original[..j] == original;
      assert sups == FixEach(original, cut.duration, tolerance);
      fixed := cut.(supervisions := Some(sups));
    }
  }

  /**
   * `fix_supervisions`: one pass over the cuts, repairing supervisions in place.
   * Returns the cuts to write (one line each, in input order), `fixed_count`,
   * `total_count`, and the ids reported as "Fixed cut".
   */
  method FixSupervisions(cuts: seq<Cut>, tolerance: real)
    returns (out: seq<Cut>, fixedCount: nat, totalCount: nat, fixedIds: seq<string>)
    ensures totalCount == |cuts| && |out| == |cuts|
    ensures forall i :: 0 <= i < |cuts| ==> out[i] == FixCut(cuts[i], tolerance)
    ensures fixedCount == TotalViolations(cuts, tolerance)
    ensures fixedIds == FixedIds(cuts, tolerance)
  {
    out, fixedCount, totalCount, fixedIds := [], 0, 0, [];
    while totalCount < |cuts|
      invariant totalCount <= |cuts| && |out| == totalCount
      invariant forall i :: 0 <= i < totalCount ==> out[i] == FixCut(cuts[i], tolerance)
      invariant fixedCount == TotalViolations(cuts[..totalCount], tolerance)
      invariant fixedIds == FixedIds(cuts[..totalCount], tolerance)
    {
      var cut := cuts[totalCount];
      assert cuts[..totalCount + 1][..totalCount] == cuts[..totalCount];
      totalCount := totalCount + 1;
      var count, fixedThisCut;
      cut, count, fixedThisCut := FixOneCut(cut, tolerance);
      fixedCount := fixedCount + count;
      if fixedThisCut {
        fixedIds := fixedIds + [cut.id];
      }
      out := out + [cut];
    }
    assert cuts[..totalCount] == cuts;
  }

  /**
   * The script's entry point: a usage error (status 1, nothing written) without
   * two paths; otherwise the repaired cuts with the default tolerance, and
   * status 0 because the returned count is never negative.
   */
  method RunScript(argv: seq<string>, cuts: seq<Cut>) returns (status: int, out: seq<Cut>)
    ensures status == 0 <==> |argv| >= 3
    ensures status != 0 ==> status == 1 && out == []
    ensures status == 0 ==> |out| == |cuts| && forall i :: 0 <= i < |cuts| ==> out[i] == FixCut(cuts[i], DefaultTolerance)
  {
    if |argv| < 3 {
      return 1, [];
    }
    var fixed, total, ids;
    out, fixed, total, ids := FixSupervisions(cuts, DefaultTolerance);
    status := if fixed >= 0 then 0 else 1;
  }

  // ---------------------------------------------------------------------
  // Properties
  // ---------------------------------------------------------------------

  /** No supervision is late exactly when the count of late supervisions is zero. */
  lemma {:induction false} ViolationCountZero(sups: seq<Supervision>, cutDuration: real, tolerance: real)
    ensures ViolationCount(sups, cutDuration, tolerance) == 0 <==>
              forall j :: 0 <= j < |sups| ==> !Violates(sups[j], cutDuration, tolerance)
    decreases |sups|
  {
    if sups != [] {
      var init := sups[..|sups| - 1];
      ViolationCountZero(init, cutDuration, tolerance);
      assert forall j :: 0 <= j < |init| ==> init[j] == sups[j];
    }
  }

  /** With a non-negative tolerance, every supervision of a repaired cut ends within bounds. */
  lemma FixCutWithinBounds(c: Cut, tolerance: real)
    requires tolerance >= 0.0
    ensures WithinBounds(FixCut(c, tolerance), tolerance)
    ensures CutViolations(FixCut(c, tolerance), tolerance) == 0
  {
    var r := FixCut(c, tolerance);
    if r.supervisions.Some? {
      var sups := r.supervisions.value;
      if |c.supervisions.value| == 0 {
        assert sups == [];
      }
      ViolationCountZero(sups, r.duration, tolerance);
    }
  }

  /** A cut already within bounds is left exactly as it is. */
  lemma FixCutWithinBoundsUnchanged(c: Cut, tolerance: real)
    requires WithinBounds(c, tolerance)
    ensures FixCut(c, tolerance) == c
  {
    if c.supervisions.Some? && |c.supervisions.value| > 0 {
      var sups := c.supervisions.value;
      assert FixEach(sups, c.duration, tolerance) == sups;
    }
  }

  /**
   * Idempotence: with a non-negative tolerance, a second pass over the output
   * changes nothing and fixes no supervision.
   */
  lemma {:induction false} SecondPassFixesNothing(cuts: seq<Cut>, tolerance: real, out: seq<Cut>)
    requires tolerance >= 0.0
    requires |out| == |cuts| && forall i :: 0 <= i < |cuts| ==> out[i] == FixCut(cuts[i], tolerance)
    ensures TotalViolations(out, tolerance) == 0
    ensures forall i :: 0 <= i < |out| ==> FixCut(out[i], tolerance) == out[i]
    decreases |cuts|
  {
    forall i | 0 <= i < |out| ensures FixCut(out[i], tolerance) == out[i] {
      FixCutWithinBounds(cuts[i], tolerance);
      FixCutWithinBoundsUnchanged(out[i], tolerance);
    }
    if cuts != [] {
      SecondPassFixesNothing(cuts[..|cuts| - 1], tolerance, out[..|out| - 1]);
      FixCutWithinBounds(cuts[|cuts| - 1], tolerance);
    }
  }

  /**
   * Counting is per supervision: at least as many supervisions are fixed as
   * cuts are reported, and none are fixed exactly when no cut is reported.
   */
  lemma {:induction false} FixedCountCoversReportedCuts(cuts: seq<Cut>, tolerance: real)
    ensures |FixedIds(cuts, tolerance)| <= TotalViolations(cuts, tolerance)
    ensures TotalViolations(cuts, tolerance) == 0 <==> FixedIds(cuts, tolerance) == []
    decreases |cuts|
  {
    if cuts != [] {
      FixedCountCoversReportedCuts(cuts[..|cuts| - 1], tolerance);
    }
  }
}
