/**
 * What `_compute_exg_proj` and its two wrappers promise, stated over `Ssp.Run`:
 * the pruning of the caller's rejection dict, the fate of an unknown mode, the order of
 * detection and filtering, the layout of the returned projector list, and what the
 * shared default rejection dicts do to a later default call.
 */
module SspProperties {
  import opened Wrappers
  import opened Fiff
  import opened External
  import opened Ssp

  /** No category occurs twice in `cats`. */
  predicate Distinct(cats: seq<Category>) {
    forall i, j :: 0 <= i < j < |cats| ==> cats[i] != cats[j]
  }

  /**
   * Pruning over distinct categories succeeds exactly when every absent category's key is
   * in the dict, and then removes exactly those keys; when it fails, the key reported is
   * an absent category's key missing from the dict. Either way it only ever deletes keys,
   * and never those of present categories or keys that name no category.
   */
  lemma {:induction false} PruneSpec(d: Reject, c: Counts, cats: seq<Category>)
    requires Distinct(cats)
    ensures var r := Prune(d, c, cats);
            var absent := AbsentKeys(c, cats);
            && (r.missing.None? <==> absent <= d.Keys)
            && (r.missing.None? ==> r.reject == d - absent)
            && (r.missing.Some? ==> r.missing.value in absent && r.missing.value !in d)
            && r.reject.Keys <= d.Keys
            && (forall k :: k in d && k !in absent ==> k in r.reject && r.reject[k] == d[k])
    decreases |cats|
  {
    if cats == [] {
      assert AbsentKeys(c, cats) == {};
    } else {
      var k0, rest := cats[0], cats[1..];
      assert Distinct(rest) by {
        forall i, j | 0 <= i < j < |rest| ensures rest[i] != rest[j] {
          assert rest[i] == cats[i + 1] && rest[j] == cats[j + 1];
        }
      }
      assert AbsentKeys(c, cats)
          == AbsentKeys(c, rest) + (if c.Of(k0) == 0 then {KeyOf(k0)} else {}) by {
        assert forall k :: k in cats <==> k == k0 || k in rest;
      }
      assert KeyOf(k0) !in AbsentKeys(c, rest) by {
        forall k | k in rest ensures k != k0 {
          var j :| 0 <= j < |rest| && rest[j] == k;
          assert cats[j + 1] == k;
        }
      }
      if c.Of(k0) != 0 {
        PruneSpec(d, c, rest);
      } else if KeyOf(k0) in d {
        PruneSpec(d - {KeyOf(k0)}, c, rest);
      }
    }
  }

  /**
   * The KeyError path. If the `i`-th category is the first one with no channel whose key is
   * missing, pruning reports exactly that key, and the dict has lost the keys of the absent
   * categories before it and nothing else: the keys of later categories are all still there.
   */
  lemma {:induction false} PruneStopsAtFirstMissing(d: Reject, c: Counts, cats: seq<Category>, i: nat)
    requires Distinct(cats) && i < |cats|
    requires c.Of(cats[i]) == 0 && KeyOf(cats[i]) !in d
    requires AbsentKeys(c, cats[..i]) <= d.Keys
    ensures Prune(d, c, cats) == PruneResult(d - AbsentKeys(c, cats[..i]), Some(KeyOf(cats[i])))
    decreases i
  {
    if i == 0 {
      assert AbsentKeys(c, cats[..0]) == {};
      assert d - {} == d;
    } else {
      var k0, rest := cats[0], cats[1..];
      assert Distinct(rest) by {
        forall x, y | 0 <= x < y < |rest| ensures rest[x] != rest[y] {
          assert rest[x] == cats[x + 1] && rest[y] == cats[y + 1];
        }
      }
      assert rest[i - 1] == cats[i];
      assert cats[..i] == [k0] + rest[..i - 1];
      assert AbsentKeys(c, cats[..i])
          == AbsentKeys(c, rest[..i - 1]) + (if c.Of(k0) == 0 then {KeyOf(k0)} else {}) by {
        assert forall k :: k in cats[..i] <==> k == k0 || k in rest[..i - 1];
      }
      assert KeyOf(k0) !in AbsentKeys(c, rest[..i - 1]) by {
        var before := rest[..i - 1];
        forall j | 0 <= j < |before| ensures before[j] != k0 {
          assert before[j] == cats[j + 1];
        }
      }
      if c.Of(k0) != 0 {
        PruneStopsAtFirstMissing(d, c, rest, i - 1);
      } else {
        assert KeyOf(k0) in d;
        assert KeyOf(cats[i]) != KeyOf(k0) by { assert cats[i] != k0; }
        PruneStopsAtFirstMissing(d - {KeyOf(k0)}, c, rest, i - 1);
        assert d - {KeyOf(k0)} - AbsentKeys(c, rest[..i - 1]) == d - AbsentKeys(c, cats[..i]);
      }
    }
  }

  /** The four categories the source prunes, one `del` each, in a fixed order. */
  lemma PruneOrderDistinct()
    ensures Distinct(PruneOrder)
    ensures forall k :: AbsentKeys(k, PruneOrder) == set cat: Category | k.Of(cat) == 0 :: KeyOf(cat)
  {
    forall k: Counts ensures AbsentKeys(k, PruneOrder) == set cat: Category | k.Of(cat) == 0 :: KeyOf(cat) {
      forall cat: Category ensures cat in PruneOrder {
        match cat
        case Grad => assert PruneOrder[0] == cat;
        case Mag => assert PruneOrder[1] == cat;
        case Eeg => assert PruneOrder[2] == cat;
        case Eog => assert PruneOrder[3] == cat;
      }
    }
  }

  /**
   * The caller's rejection dict after a call on a loaded recording: the key of every
   * category with no channel is deleted, and every other key keeps its threshold. A
   * KeyError is raised exactly when such a key is already missing; it names a missing key
   * of an absent category, and it comes before any filter call.
   */
  lemma RunPrunesReject(tb: Toolbox, raw: RawView, d: Reject, a: Args)
    requires raw.preloaded
    ensures var o := Run(tb, raw, d, a);
            var absent := AbsentKeys(raw.info.counts, PruneOrder);
            && ((o.result.Err? && o.result.error.MissingRejectKey?) <==> !(absent <= d.Keys))
            && (absent <= d.Keys ==> o.reject == d - absent)
            && o.reject.Keys <= d.Keys
            && (forall k :: k in d && k !in absent ==> k in o.reject && o.reject[k] == d[k])
            && (o.result.Err? && o.result.error.MissingRejectKey? ==>
                  o.result.error.key in absent && o.result.error.key !in d
                  && o.raw.filterLog == raw.filterLog)
  {
    PruneOrderDistinct();
    PruneSpec(d, raw.info.counts, PruneOrder);
  }

  /**
   * An unknown mode raises no error of its own: the ValueError is built and dropped. The
   * call goes on to prune and to filter, and only then fails, at the `Epochs` call, because
   * `events` was never assigned. A loaded recording never gets a result from it.
   */
  lemma RunUnknownMode(tb: Toolbox, raw: RawView, d: Reject, a: Args)
    requires raw.preloaded && a.mode != "ECG" && a.mode != "EOG"
    ensures var o := Run(tb, raw, d, a);
            && o.result.Err?
            && (AbsentKeys(raw.info.counts, PruneOrder) <= d.Keys ==>
                  o.result == Err(EventsUnbound)
                  && o.reject == d - AbsentKeys(raw.info.counts, PruneOrder)
                  && o.raw.filterLog
                     == raw.filterLog
                        + FilterPlan(PicksFor(tb, Prepared(tb, raw, a), a), a.lFreq, a.hFreq, a.filterLength, a.nJobs))
  {
    PruneOrderDistinct();
    PruneSpec(d, raw.info.counts, PruneOrder);
  }

  /**
   * Events are detected on the recording as it was before the call's filtering: the
   * cardiac detector is given the channel name and event id and only the first part of
   * its triple is kept; the ocular detector is given the event id.
   */
  lemma RunDetectsBeforeFiltering(tb: Toolbox, raw: RawView, d: Reject, a: Args)
    ensures var o := Run(tb, raw, d, a);
            var before := Prepared(tb, raw, a);
            && before.filterLog == raw.filterLog
            && (o.result.Ok? && a.mode == "ECG" ==> o.result.value == tb.findEcgEvents(before, a.chName, a.eventId).0)
            && (o.result.Ok? && a.mode == "EOG" ==> o.result.value == tb.findEogEvents(before, a.eventId))
            && (o.result.Ok? ==> a.mode == "ECG" || a.mode == "EOG")
  {
  }

  /**
   * The layout of the returned list when the recording's projectors are kept and the
   * average reference is asked for: the recording's projectors, then the average-reference
   * projector, then the reducer's; and the recording now holds that same list.
   */
  lemma RunOutputOrder(tb: Toolbox, raw: RawView, d: Reject, a: Args)
    requires a.avgRef && !a.noProj
    ensures var o := Run(tb, raw, d, a);
            o.result.Ok? ==>
              && |o.projs| > |raw.info.projs|
              && o.projs[..|raw.info.projs|] == raw.info.projs
              && o.projs[|raw.info.projs|] == tb.makeEegAverageRefProj(raw.info)
              && o.raw.info.projs == o.projs
  {
    var o := Run(tb, raw, d, a);
    if o.result.Ok? {
      var start := raw.info.projs + [tb.makeEegAverageRefProj(raw.info)];
      assert start <= o.projs;
      assert o.projs[..|raw.info.projs|] == start[..|raw.info.projs|];
    }
  }

  /**
   * The shared default dict. Once a call has pruned the dict for a recording with no
   * channel of some category, a later call given the same dict on a recording that also
   * lacks that category raises KeyError, whatever its other arguments.
   */
  lemma SharedRejectSecondCallFails(tb: Toolbox, raw1: RawView, raw2: RawView, d: Reject,
                                    a1: Args, a2: Args, cat: Category)
    requires Run(tb, raw1, d, a1).result.Ok?
    requires raw2.preloaded
    requires raw1.info.counts.Of(cat) == 0 && raw2.info.counts.Of(cat) == 0
    ensures var o2 := Run(tb, raw2, Run(tb, raw1, d, a1).reject, a2);
            o2.result.Err? && o2.result.error.MissingRejectKey?
  {
    var o1 := Run(tb, raw1, d, a1);
    PruneOrderDistinct();
    RunPrunesReject(tb, raw1, d, a1);
    assert KeyOf(cat) in AbsentKeys(raw1.info.counts, PruneOrder);
    assert KeyOf(cat) !in o1.reject;
    assert KeyOf(cat) in AbsentKeys(raw2.info.counts, PruneOrder);
    RunPrunesReject(tb, raw2, o1.reject, a2);
  }

  /**
   * Two calls of `compute_proj_ecg` that leave `reject` out, so both receive the one
   * default dict. If the first succeeds on a recording with no channel of `cat` and the
   * second recording is loaded and has none either, the second raises KeyError, because
   * the first deleted that key from the shared dict.
   */
  method TwoDefaultEcgCalls(tb: Toolbox, raw1: Raw, raw2: Raw, defaults: DefaultRejects, cat: Category)
    returns (r1: Result<Returned, Exc>, r2: Result<Returned, Exc>)
    modifies raw1`filterLog, raw1.projs, raw2`filterLog, raw2.projs, defaults.ecg
    ensures r1.Ok? && raw1.counts.Of(cat) == 0 && raw2.preloaded && raw2.counts.Of(cat) == 0 ==>
              r2.Err? && r2.error.MissingRejectKey?
  {
    ghost var view1 := raw1.View();
    ghost var d := defaults.ecg.entries;
    r1 := ComputeProjEcg(tb, raw1, EcgDefaults, defaults.ecg);
    ghost var view2 := raw2.View();
    ghost var d1 := defaults.ecg.entries;
    assert d1 == Run(tb, view1, d, EcgArgs(EcgDefaults)).reject;
    r2 := ComputeProjEcg(tb, raw2, EcgDefaults, defaults.ecg);
    if r1.Ok? && raw1.counts.Of(cat) == 0 && raw2.preloaded && raw2.counts.Of(cat) == 0 {
      SharedRejectSecondCallFails(tb, view1, view2, d, EcgArgs(EcgDefaults), EcgArgs(EcgDefaults), cat);
    }
  }

  /**
   * A cardiac call with the wrapper's defaults: the recording's own projectors are left
   * out of the result and left in place, the band 1-35 Hz selects one band-pass call, and
   * the events carry id 999.
   */
  lemma EcgDefaultsBehaviour(tb: Toolbox, raw: RawView, d: Reject)
    ensures var o := Run(tb, raw, d, EcgArgs(EcgDefaults));
            && AssembledProjs(tb, raw, EcgArgs(EcgDefaults)) == []
            && o.raw.info.projs == raw.info.projs
            && (o.result.Ok? ==>
                  o.result.value == tb.findEcgEvents(raw, None, 999).0
                  && |o.raw.filterLog| == |raw.filterLog| + 1
                  && o.raw.filterLog[|raw.filterLog|].BandPass?)
  {
    var a := EcgArgs(EcgDefaults);
    assert Prepared(tb, raw, a) == raw;
    if raw.preloaded { RunPrunesReject(tb, raw, d, a); }
  }

  /**
   * An ocular call with the wrapper's defaults: the recording's own projectors are left
   * out of the result and left in place, no channel name reaches the detector, and the
   * events carry id 998.
   */
  lemma EogDefaultsBehaviour(tb: Toolbox, raw: RawView, d: Reject)
    ensures var o := Run(tb, raw, d, EogArgs(EogDefaults));
            && AssembledProjs(tb, raw, EogArgs(EogDefaults)) == []
            && o.raw.info.projs == raw.info.projs
            && (o.result.Ok? ==>
                  o.result.value == tb.findEogEvents(raw, 998)
                  && |o.raw.filterLog| == |raw.filterLog| + 1
                  && o.raw.filterLog[|raw.filterLog|].BandPass?)
  {
    var a := EogArgs(EogDefaults);
    assert Prepared(tb, raw, a) == raw;
    if raw.preloaded { RunPrunesReject(tb, raw, d, a); }
  }

  /**
   * The default thresholds: both dicts name the four categories; the cardiac dict's EOG
   * threshold is finite, the ocular dict's is unbounded (`np.inf`).
   */
  lemma DefaultRejectThresholds()
    ensures EcgRejectDefault.Keys == EogRejectDefault.Keys == {"grad", "mag", "eeg", "eog"}
    ensures EcgRejectDefault["eog"].Finite? && EogRejectDefault["eog"] == Unbounded
    ensures EcgRejectDefault["eeg"].Finite? && EogRejectDefault["eeg"].Finite?
  {
  }
}
