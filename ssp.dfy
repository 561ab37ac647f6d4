/**
 * The artifact-projection pipeline of mne/preprocessing/ssp.py: `_compute_exg_proj`,
 * which detects cardiac (ECG) or ocular (EOG) events, prunes the rejection dict,
 * filters the recording in place, epochs it, reduces the epochs to projectors and
 * appends them to a projector list, and its two wrappers `compute_proj_ecg` and
 * `compute_proj_eog`.
 *
 * `Run` states the whole computation on values; `ComputeExgProj` does it step by step
 * on the objects the source mutates (the recording, its projector list, the caller's
 * rejection dict) and is proved to end in the state `Run` describes.
 */
module Ssp {
  import opened Wrappers
  import opened Fiff
  import opened External

  /** The exceptions the pipeline itself raises. */
  datatype Exc =
    | NotPreloaded                   // ValueError: the recording is not in memory
    | MissingRejectKey(key: string)  // KeyError from `del reject[key]`
    | EventsUnbound                  // UnboundLocalError at the Epochs call: `events` was never assigned

  /** A Python dict of rejection thresholds: an object that `del` changes in place. */
  class RejectDict {
    var entries: Reject

    constructor (entries: Reject)
      ensures this.entries == entries
    {
      this.entries := entries;
    }

    /** `del d[key]`; `found` is false where Python raises KeyError, and then nothing changes. */
    method Delete(key: string) returns (found: bool)
      modifies this
      ensures found == (key in old(entries))
      ensures entries == old(entries) - {key}
    {
      found := key in entries;
      entries := entries - {key};
    }
  }

  /** The arguments of `_compute_exg_proj` other than the recording and the rejection dict. */
  datatype Args = Args(
    mode: string, tmin: real, tmax: real, nGrad: int, nMag: int, nEeg: int,
    lFreq: Option<real>, hFreq: Option<real>, average: bool, filterLength: int, nJobs: int,
    chName: Option<string>, bads: seq<string>, avgRef: bool, noProj: bool, eventId: int)

  /** The key of a category in a rejection dict. */
  function KeyOf(k: Category): (key: string) {
    match k
    case Grad => "grad"
    case Mag => "mag"
    case Eeg => "eeg"
    case Eog => "eog"
  }

  /** The order in which the source prunes the categories. */
  const PruneOrder: seq<Category> := [Grad, Mag, Eeg, Eog]

  /** The dict after pruning, and the key whose absence raised KeyError, if one did. */
  datatype PruneResult = PruneResult(reject: Reject, missing: Option<string>)

  /**
   * Delete, in the order of `cats`, the key of every category that has no channel;
   * stop at the first such key that is not in the dict, keeping the deletions made
   * before it.
   */
  function Prune(d: Reject, c: Counts, cats: seq<Category>): (r: PruneResult)
    ensures r.reject.Keys <= d.Keys
    ensures forall key :: key in r.reject ==> r.reject[key] == d[key]
    ensures r.missing.Some? ==> r.missing.value !in r.reject
    decreases |cats|
  {
    if cats == [] then PruneResult(d, None)
    else if c.Of(cats[0]) != 0 then Prune(d, c, cats[1..])
    else if KeyOf(cats[0]) in d then Prune(d - {KeyOf(cats[0])}, c, cats[1..])
    else PruneResult(d, Some(KeyOf(cats[0])))
  }

  /** The keys of the categories in `cats` that have no channel. */
  function AbsentKeys(c: Counts, cats: seq<Category>): (keys: set<string>) {
    set k | k in cats && c.Of(k) == 0 :: KeyOf(k)
  }

  /**
   * The filter calls made for the given bounds, in the order of the source's three
   * `if` statements. The low-pass call receives `hFreq`, as the source passes it.
   */
  function FilterPlan(picks: Picks, lFreq: Option<real>, hFreq: Option<real>, filterLength: int, nJobs: int)
    : (ops: seq<FilterOp>)
    ensures |ops| <= 1
    ensures ops == [] <==> lFreq.None? && hFreq.None?
    ensures (|ops| == 1 && ops[0].HighPass?) <==> lFreq.None? && hFreq.Some?
    ensures (|ops| == 1 && ops[0].LowPass?) <==> lFreq.Some? && hFreq.None?
    ensures (|ops| == 1 && ops[0].BandPass?) <==> lFreq.Some? && hFreq.Some?
    ensures forall op :: op in ops ==> op.picks == picks && op.filterLength == filterLength && op.nJobs == nJobs
    ensures forall op :: op in ops && op.HighPass? ==> hFreq == Some(op.freq)
    ensures forall op :: op in ops && op.LowPass? ==> op.cutoff == hFreq == None
    ensures forall op :: op in ops && op.BandPass? ==> lFreq == Some(op.lFreq) && hFreq == Some(op.hFreq)
  {
    (if lFreq.None? && hFreq.Some? then [HighPass(picks, hFreq.value, filterLength, nJobs)] else [])
    + (if lFreq.Some? && hFreq.None? then [LowPass(picks, hFreq, filterLength, nJobs)] else [])
    + (if lFreq.Some? && hFreq.Some? then [BandPass(picks, lFreq.value, hFreq.value, filterLength, nJobs)] else [])
  }

  /**
   * The events the mode selects: the first component of the cardiac detector's triple,
   * or the ocular detector's result. For any other mode the source builds a ValueError
   * without raising it and leaves `events` unassigned, written here as `None`.
   */
  function DetectEvents(tb: Toolbox, raw: RawView, a: Args): (events: Option<seq<Event>>)
    ensures events.Some? <==> a.mode == "ECG" || a.mode == "EOG"
    ensures a.mode == "ECG" ==> events == Some(tb.findEcgEvents(raw, a.chName, a.eventId).0)
    ensures a.mode == "EOG" ==> events == Some(tb.findEogEvents(raw, a.eventId))
  {
    if a.mode == "ECG" then Some(tb.findEcgEvents(raw, a.chName, a.eventId).0)
    else if a.mode == "EOG" then Some(tb.findEogEvents(raw, a.eventId))
    else None
  }

  /** The projectors computed from the epochs: from their average, or from the epochs themselves. */
  function ReduceEpochs(tb: Toolbox, ep: EpochSet, average: bool, nGrad: int, nMag: int, nEeg: int): (projs: seq<Proj>) {
    if average then tb.computeProjEvoked(tb.average(ep), nGrad, nMag, nEeg)
    else tb.computeProjEpochs(ep, nGrad, nMag, nEeg)
  }

  /** The list `projs` starts as: a new empty list, or the recording's own list. */
  function StartProjs(raw: RawView, a: Args): (projs: seq<Proj>) {
    if a.noProj then [] else raw.info.projs
  }

  /** The list `projs` once the average-reference projector has been appended if requested. */
  function AssembledProjs(tb: Toolbox, raw: RawView, a: Args): (projs: seq<Proj>) {
    StartProjs(raw, a) + (if a.avgRef then [tb.makeEegAverageRefProj(raw.info)] else [])
  }

  /**
   * The recording once the list `projs` holds `ps`: it changes only when that list
   * is the recording's own list object.
   */
  function SharedListHolds(raw: RawView, a: Args, ps: seq<Proj>): (view: RawView) {
    if a.noProj then raw else raw.(info := raw.info.(projs := ps))
  }

  /** The channels filtered and epoched: MEG, EEG and EOG channels, less both lists of bad channels. */
  function PicksFor(tb: Toolbox, raw: RawView, a: Args): (picks: Picks) {
    tb.pickMegEegEog(raw.info, raw.info.bads + a.bads)
  }

  /**
   * What a call leaves behind: the recording, the rejection dict, the contents of the
   * list `projs` (the list returned on success), and the events returned or the
   * exception raised.
   */
  datatype Outcome = Outcome(raw: RawView, reject: Reject, projs: seq<Proj>, result: Result<seq<Event>, Exc>)

  /** The recording once the list `projs` has been set up (lines 92-101), before detection. */
  function Prepared(tb: Toolbox, raw: RawView, a: Args): (view: RawView) {
    SharedListHolds(raw, a, AssembledProjs(tb, raw, a))
  }

  /**
   * `_compute_exg_proj` on values: the recording `raw` and the rejection dict `d` before the call.
   * The contract gathers what the call promises about each step:
   * - an unloaded recording is refused, and then nothing has changed;
   * - on success the list holds the start list, the average-reference projector if asked
   *   for, and the reducer's projectors, in that order, and the recording's own list is that
   *   list unless `noProj` holds, in which case the recording's list is left alone;
   * - the events returned are the detector's, run on the recording before any filtering;
   * - a call that gets past the preload check and the pruning has made exactly the filter
   *   call `FilterPlan` names (so `Epochs` sees the filtered recording); one that does not has
   *   made none; nothing but the filter log and (through aliasing) the projector list changes.
   */
  function Run(tb: Toolbox, raw: RawView, d: Reject, a: Args): (o: Outcome)
    ensures o.result == Err(NotPreloaded) <==> !raw.preloaded
    ensures !raw.preloaded ==> o.raw == raw && o.reject == d && o.projs == []
    ensures o.raw.preloaded == raw.preloaded && o.raw.info.bads == raw.info.bads
    ensures o.raw.info.counts == raw.info.counts
    ensures a.noProj ==> o.raw.info.projs == raw.info.projs
    ensures raw.preloaded && !a.noProj ==> o.raw.info.projs == o.projs
    ensures raw.preloaded ==> AssembledProjs(tb, raw, a) <= o.projs
    ensures o.raw.filterLog
         == if !raw.preloaded || (o.result.Err? && o.result.error.MissingRejectKey?) then raw.filterLog
            else raw.filterLog
                 + FilterPlan(PicksFor(tb, Prepared(tb, raw, a), a), a.lFreq, a.hFreq, a.filterLength, a.nJobs)
    ensures o.result.Ok? ==> raw.preloaded && Some(o.result.value) == DetectEvents(tb, Prepared(tb, raw, a), a)
    ensures o.result.Ok? ==>
              o.projs == AssembledProjs(tb, raw, a)
                         + ReduceEpochs(tb, tb.epochs(SharedListHolds(o.raw, a, AssembledProjs(tb, raw, a)),
                                                      o.result.value, a.tmin, a.tmax,
                                                      PicksFor(tb, Prepared(tb, raw, a), a), o.reject),
                                        a.average, a.nGrad, a.nMag, a.nEeg)
  {
    if !raw.preloaded then Outcome(raw, d, [], Err(NotPreloaded))
    else
      var raw1 := Prepared(tb, raw, a);
      RunAfterDetection(tb, raw1, d, a, AssembledProjs(tb, raw, a), DetectEvents(tb, raw1, a))
  }

  /**
   * The rest of `_compute_exg_proj` once the list `projs` holds `assembled` (so that the
   * recording is `raw1`) and event detection has given `events`: pruning, filtering,
   * epoching, reduction and the final `extend`.
   */
  function RunAfterDetection(tb: Toolbox, raw1: RawView, d: Reject, a: Args, assembled: seq<Proj>,
                             events: Option<seq<Event>>): (o: Outcome) {
    var pruned := Prune(d, raw1.info.counts, PruneOrder);
    if pruned.missing.Some? then
      Outcome(raw1, pruned.reject, assembled, Err(MissingRejectKey(pruned.missing.value)))
    else
      var picks := PicksFor(tb, raw1, a);
      var raw2 := raw1.(filterLog := raw1.filterLog + FilterPlan(picks, a.lFreq, a.hFreq, a.filterLength, a.nJobs));
      if events.None? then Outcome(raw2, pruned.reject, assembled, Err(EventsUnbound))
      else
        var ep := tb.epochs(raw2, events.value, a.tmin, a.tmax, picks, pruned.reject);
        var projs := assembled + ReduceEpochs(tb, ep, a.average, a.nGrad, a.nMag, a.nEeg);
        Outcome(SharedListHolds(raw2, a, projs), pruned.reject, projs, Ok(events.value))
  }

  /** What `_compute_exg_proj` returns: the list `projs` and the events. */
  datatype Returned = Returned(projs: ProjList, events: seq<Event>)

  /** The method's return value or exception agrees with the outcome `o`. */
  ghost predicate Reflects(r: Result<Returned, Exc>, o: Outcome)
    reads if r.Ok? then {r.value.projs} else {}
  {
    match r
    case Ok(v) => o.result == Ok(v.events) && v.projs.items == o.projs
    case Err(e) => o.result == Err(e)
  }

  /**
   * The four `del` statements: for grad, mag, eeg and eog in turn, delete the key of a
   * category with no channel; `missing` is the key whose `del` raised KeyError.
   */
  method PruneReject(reject: RejectDict, c: Counts) returns (missing: Option<string>)
    modifies reject
    ensures PruneResult(reject.entries, missing) == Prune(old(reject.entries), c, PruneOrder)
  {
    ghost var pruned := Prune(reject.entries, c, PruneOrder);
    var found: bool;
    if c.grad == 0 {
      found := reject.Delete("grad");
      if !found {
        return Some("grad");
      }
    }
    assert pruned == Prune(reject.entries, c, [Mag, Eeg, Eog]);
    if c.mag == 0 {
      found := reject.Delete("mag");
      if !found {
        return Some("mag");
      }
    }
    assert pruned == Prune(reject.entries, c, [Eeg, Eog]);
    if c.eeg == 0 {
      found := reject.Delete("eeg");
      if !found {
        return Some("eeg");
      }
    }
    assert pruned == Prune(reject.entries, c, [Eog]);
    if c.eog == 0 {
      found := reject.Delete("eog");
      if !found {
        return Some("eog");
      }
    }
    return None;
  }

  /** The three `if` statements that filter the recording in place. */
  method FilterRaw(raw: Raw, picks: Picks, lFreq: Option<real>, hFreq: Option<real>, filterLength: int, nJobs: int)
    modifies raw`filterLog
    ensures raw.filterLog == old(raw.filterLog) + FilterPlan(picks, lFreq, hFreq, filterLength, nJobs)
  {
    if lFreq.None? && hFreq.Some? {
      raw.HighPassFilter(picks, hFreq.value, filterLength, nJobs);
    }
    if lFreq.Some? && hFreq.None? {
      raw.LowPassFilter(picks, hFreq, filterLength, nJobs);
    }
    if lFreq.Some? && hFreq.Some? {
      raw.BandPassFilter(picks, lFreq.value, hFreq.value, filterLength, nJobs);
    }
  }

  /**
   * The start of the projector list: a new empty list, or the recording's own list
   * object when `noProj` is false, with the average-reference projector appended to it
   * if `avgRef` holds.
   */
  method StartProjList(tb: Toolbox, raw: Raw, avgRef: bool, noProj: bool) returns (projs: ProjList)
    modifies raw.projs
    ensures if noProj then fresh(projs) && raw.projs.items == old(raw.projs.items) else projs == raw.projs
    ensures projs.items == (if noProj then [] else old(raw.projs.items))
                           + (if avgRef then [tb.makeEegAverageRefProj(old(raw.MeasInfo()))] else [])
  {
    if noProj {
      projs := new ProjList();
    } else {
      projs := raw.projs;
    }
    if avgRef {
      var eegProj := tb.makeEegAverageRefProj(raw.MeasInfo());
      projs.Append(eegProj);
    }
  }

  /**
   * Epoch the recording around `events`, reduce the epochs (or their average) to
   * projectors, and extend `projs` with them.
   */
  method ExtendWithReduced(tb: Toolbox, raw: Raw, projs: ProjList, events: seq<Event>, tmin: real, tmax: real,
                           picks: Picks, reject: Reject, average: bool, nGrad: int, nMag: int, nEeg: int)
    modifies projs
    ensures projs.items == old(projs.items)
              + ReduceEpochs(tb, tb.epochs(old(raw.View()), events, tmin, tmax, picks, reject), average, nGrad, nMag, nEeg)
  {
    var epochs := tb.epochs(raw.View(), events, tmin, tmax, picks, reject);
    var evProjs: seq<Proj>;
    if average {
      var evoked := tb.average(epochs);
      evProjs := tb.computeProjEvoked(evoked, nGrad, nMag, nEeg);
    } else {
      evProjs := tb.computeProjEpochs(epochs, nGrad, nMag, nEeg);
    }
    projs.Extend(evProjs);
  }

  /**
   * Lines 112-147 of `_compute_exg_proj`, once the list `projs` is set up and detection has
   * given `events` (`None` when the mode matched neither branch): prune the caller's dict,
   * filter the recording, epoch it, reduce, and extend `projs`. The list is the recording's
   * own list exactly when `noProj` is false.
   */
  method PruneFilterAndReduce(tb: Toolbox, raw: Raw, projs: ProjList, events: Option<seq<Event>>,
                              reject: RejectDict, a: Args)
    returns (r: Result<Returned, Exc>)
    requires if a.noProj then projs != raw.projs else projs == raw.projs
    modifies raw`filterLog, raw.projs, projs, reject
    ensures var o := RunAfterDetection(tb, old(raw.View()), old(reject.entries), a, old(projs.items), events);
            raw.View() == o.raw && reject.entries == o.reject && Reflects(r, o)
    ensures r.Ok? ==> r.value.projs == projs
  {
    ghost var raw1 := raw.View();
    ghost var o := RunAfterDetection(tb, raw1, reject.entries, a, projs.items, events);

    var missing := PruneReject(reject, raw.counts);
    if missing.Some? {
      r := Err(MissingRejectKey(missing.value));
      return;
    }

    var picks := tb.pickMegEegEog(raw.MeasInfo(), raw.bads + a.bads);
    assert picks == PicksFor(tb, raw1, a);
    FilterRaw(raw, picks, a.lFreq, a.hFreq, a.filterLength, a.nJobs);
    if events.None? {
      r := Err(EventsUnbound);
      return;
    }

    ExtendWithReduced(tb, raw, projs, events.value, a.tmin, a.tmax, picks, reject.entries, a.average,
                      a.nGrad, a.nMag, a.nEeg);
    r := Ok(Returned(projs, events.value));
  }

  /**
   * `_compute_exg_proj`. The recording's filter log and projector list and the caller's
   * rejection dict are changed in place, as `Run` describes; the returned list is the
   * recording's own list object unless `noProj` holds, and a new list otherwise.
   */
  method ComputeExgProj(tb: Toolbox, mode: string, raw: Raw, tmin: real, tmax: real,
                        nGrad: int, nMag: int, nEeg: int, lFreq: Option<real>, hFreq: Option<real>,
                        average: bool, filterLength: int, nJobs: int, chName: Option<string>,
                        reject: RejectDict, bads: seq<string>, avgRef: bool, noProj: bool, eventId: int)
    returns (r: Result<Returned, Exc>)
    modifies raw`filterLog, raw.projs, reject
    ensures var o := Run(tb, old(raw.View()), old(reject.entries),
                         Args(mode, tmin, tmax, nGrad, nMag, nEeg, lFreq, hFreq, average, filterLength,
                              nJobs, chName, bads, avgRef, noProj, eventId));
            raw.View() == o.raw && reject.entries == o.reject && Reflects(r, o)
    ensures r.Ok? ==> if noProj then fresh(r.value.projs) else r.value.projs == raw.projs
  {
    var a := Args(mode, tmin, tmax, nGrad, nMag, nEeg, lFreq, hFreq, average, filterLength,
                  nJobs, chName, bads, avgRef, noProj, eventId);
    ghost var raw0 := raw.View();
    ghost var d0 := reject.entries;
    if !raw.preloaded {
      r := Err(NotPreloaded);
      return;
    }

    var projs := StartProjList(tb, raw, avgRef, noProj);
    ghost var raw1 := raw.View();
    assert raw1 == Prepared(tb, raw0, a);

    var events: Option<seq<Event>> := None;
    if mode == "ECG" {
      var (ecgEvents, _, _) := tb.findEcgEvents(raw.View(), chName, eventId);
      events := Some(ecgEvents);
    } else if mode == "EOG" {
      events := Some(tb.findEogEvents(raw.View(), eventId));
    } else {
      // The source builds ValueError("mode must be 'ECG' or 'EOG'") here and drops it.
    }
    assert Run(tb, raw0, d0, a) == RunAfterDetection(tb, raw1, d0, a, projs.items, events);

    r := PruneFilterAndReduce(tb, raw, projs, events, reject, a);
  }

  /** The parameters of `compute_proj_ecg` after the recording, in the source's order. */
  datatype EcgParams = EcgParams(
    tmin: real, tmax: real, nGrad: int, nMag: int, nEeg: int, lFreq: Option<real>, hFreq: Option<real>,
    average: bool, filterLength: int, nJobs: int, chName: Option<string>, bads: seq<string>,
    avgRef: bool, noProj: bool, eventId: int)

  /** The parameters of `compute_proj_eog` after the recording: no channel name. */
  datatype EogParams = EogParams(
    tmin: real, tmax: real, nGrad: int, nMag: int, nEeg: int, lFreq: Option<real>, hFreq: Option<real>,
    average: bool, filterLength: int, nJobs: int, bads: seq<string>,
    avgRef: bool, noProj: bool, eventId: int)

  /** The defaults of `compute_proj_ecg` other than `reject`. */
  const EcgDefaults: EcgParams :=
    EcgParams(-0.2, 0.4, 2, 2, 2, Some(1.0), Some(35.0), false, 2048, 1, None, [], false, true, 999)

  /** The defaults of `compute_proj_eog` other than `reject`. */
  const EogDefaults: EogParams :=
    EogParams(-0.15, 0.15, 2, 2, 2, Some(1.0), Some(35.0), false, 2048, 1, [], false, true, 998)

  /** The contents of `compute_proj_ecg`'s default rejection dict when the module is loaded. */
  const EcgRejectDefault: Reject := map[
    "grad" := Finite(0.0000000002), "mag" := Finite(0.000000000003),
    "eeg" := Finite(0.00005), "eog" := Finite(0.00025)]

  /** The contents of `compute_proj_eog`'s default rejection dict when the module is loaded. */
  const EogRejectDefault: Reject := map[
    "grad" := Finite(0.0000000002), "mag" := Finite(0.000000000003),
    "eeg" := Finite(0.0005), "eog" := Unbounded]

  /** The arguments `compute_proj_ecg` passes on: mode "ECG" and its own parameters unchanged. */
  function EcgArgs(p: EcgParams): (a: Args) {
    Args("ECG", p.tmin, p.tmax, p.nGrad, p.nMag, p.nEeg, p.lFreq, p.hFreq, p.average, p.filterLength,
         p.nJobs, p.chName, p.bads, p.avgRef, p.noProj, p.eventId)
  }

  /** The arguments `compute_proj_eog` passes on: mode "EOG", channel name `None`, the rest unchanged. */
  function EogArgs(p: EogParams): (a: Args) {
    Args("EOG", p.tmin, p.tmax, p.nGrad, p.nMag, p.nEeg, p.lFreq, p.hFreq, p.average, p.filterLength,
         p.nJobs, None, p.bads, p.avgRef, p.noProj, p.eventId)
  }

  /**
   * The two default rejection dicts. Python evaluates a default argument once, when the
   * function is defined, so every call that leaves `reject` out receives the same dict
   * object; whatever `_compute_exg_proj` deletes from it stays deleted for later calls.
   */
  class DefaultRejects {
    const ecg: RejectDict
    const eog: RejectDict

    constructor ()
      ensures fresh(ecg) && fresh(eog) && ecg != eog
      ensures ecg.entries == EcgRejectDefault && eog.entries == EogRejectDefault
    {
      ecg := new RejectDict(EcgRejectDefault);
      eog := new RejectDict(EogRejectDefault);
    }
  }

  /**
   * `compute_proj_ecg`: `_compute_exg_proj` with mode "ECG". A call that leaves its
   * arguments out passes `EcgDefaults` and the shared dict `DefaultRejects.ecg`.
   */
  method ComputeProjEcg(tb: Toolbox, raw: Raw, p: EcgParams, reject: RejectDict)
    returns (r: Result<Returned, Exc>)
    modifies raw`filterLog, raw.projs, reject
    ensures var o := Run(tb, old(raw.View()), old(reject.entries), EcgArgs(p));
            raw.View() == o.raw && reject.entries == o.reject && Reflects(r, o)
    ensures r.Ok? ==> if p.noProj then fresh(r.value.projs) else r.value.projs == raw.projs
  {
    r := ComputeExgProj(tb, "ECG", raw, p.tmin, p.tmax, p.nGrad, p.nMag, p.nEeg, p.lFreq, p.hFreq,
                        p.average, p.filterLength, p.nJobs, p.chName, reject, p.bads, p.avgRef,
                        p.noProj, p.eventId);
  }

  /**
   * `compute_proj_eog`: `_compute_exg_proj` with mode "EOG" and no channel name. A call
   * that leaves its arguments out passes `EogDefaults` and the shared dict `DefaultRejects.eog`.
   */
  method ComputeProjEog(tb: Toolbox, raw: Raw, p: EogParams, reject: RejectDict)
    returns (r: Result<Returned, Exc>)
    modifies raw`filterLog, raw.projs, reject
    ensures var o := Run(tb, old(raw.View()), old(reject.entries), EogArgs(p));
            raw.View() == o.raw && reject.entries == o.reject && Reflects(r, o)
    ensures r.Ok? ==> if p.noProj then fresh(r.value.projs) else r.value.projs == raw.projs
  {
    r := ComputeExgProj(tb, "EOG", raw, p.tmin, p.tmax, p.nGrad, p.nMag, p.nEeg, p.lFreq, p.hFreq,
                        p.average, p.filterLength, p.nJobs, None, reject, p.bads, p.avgRef,
                        p.noProj, p.eventId);
  }
}
