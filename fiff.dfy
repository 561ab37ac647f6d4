/**
 * The parts of a continuous recording (`mne.fiff.Raw`) that the artifact-projection
 * pipeline reads or changes. Signal data is not represented by samples: the recording
 * keeps a log of the in-place filter calls made on it, so "the data as it stands" is
 * the original data plus that log.
 */
module Fiff {
  import opened Wrappers

  /** A signal-space projection vector, an opaque token told apart by its description. */
  datatype Proj = Proj(desc: string)

  /** The channel categories whose rejection thresholds the pipeline prunes. */
  datatype Category = Grad | Mag | Eeg | Eog

  /** The number of channels of each category that `pick_types` finds in the recording. */
  datatype Counts = Counts(grad: nat, mag: nat, eeg: nat, eog: nat) {
    function Of(k: Category): (n: nat) {
      match k
      case Grad => grad
      case Mag => mag
      case Eeg => eeg
      case Eog => eog
    }
  }

  /** Channel indices, as `pick_types` returns them. */
  type Picks = seq<nat>

  /** One in-place filter call on the recording, with the arguments it was given. */
  datatype FilterOp =
    | HighPass(picks: Picks, freq: real, filterLength: int, nJobs: int)
      /** `cutoff` is whatever was passed in the cutoff slot, which may be `None`. */
    | LowPass(picks: Picks, cutoff: Option<real>, filterLength: int, nJobs: int)
    | BandPass(picks: Picks, lFreq: real, hFreq: real, filterLength: int, nJobs: int)

  /** The measurement info: attached projectors, bad-channel names, per-category channel counts. */
  datatype Info = Info(projs: seq<Proj>, bads: seq<string>, counts: Counts)

  /** A snapshot of a recording: whether it is in memory, its info, and the filters run on it. */
  datatype RawView = RawView(preloaded: bool, info: Info, filterLog: seq<FilterOp>)

  /** A Python list of projectors: an object that `append` and `extend` change in place. */
  class ProjList {
    var items: seq<Proj>

    constructor ()
      ensures items == []
    {
      items := [];
    }

    method Append(p: Proj)
      modifies this
      ensures items == old(items) + [p]
    {
      items := items + [p];
    }

    method Extend(ps: seq<Proj>)
      modifies this
      ensures items == old(items) + ps
    {
      items := items + ps;
    }
  }

  /** A recording. `projs` is the list object stored under `info['projs']`. */
  class Raw {
    var preloaded: bool
    var projs: ProjList
    var bads: seq<string>
    var counts: Counts
    var filterLog: seq<FilterOp>

    constructor (preloaded: bool, projs: ProjList, bads: seq<string>, counts: Counts)
      ensures this.preloaded == preloaded && this.projs == projs
      ensures this.bads == bads && this.counts == counts && filterLog == []
    {
      this.preloaded := preloaded;
      this.projs := projs;
      this.bads := bads;
      this.counts := counts;
      filterLog := [];
    }

    /** The current measurement info. */
    function MeasInfo(): (info: Info)
      reads this, projs
    {
      Info(projs.items, bads, counts)
    }

    /** The current state of the recording as a value. */
    function View(): (view: RawView)
      reads this, projs
    {
      RawView(preloaded, MeasInfo(), filterLog)
    }

    method HighPassFilter(picks: Picks, freq: real, filterLength: int, nJobs: int)
      modifies this`filterLog
      ensures filterLog == old(filterLog) + [HighPass(picks, freq, filterLength, nJobs)]
    {
      filterLog := filterLog + [HighPass(picks, freq, filterLength, nJobs)];
    }

    method LowPassFilter(picks: Picks, cutoff: Option<real>, filterLength: int, nJobs: int)
      modifies this`filterLog
      ensures filterLog == old(filterLog) + [LowPass(picks, cutoff, filterLength, nJobs)]
    {
      filterLog := filterLog + [LowPass(picks, cutoff, filterLength, nJobs)];
    }

    method BandPassFilter(picks: Picks, lFreq: real, hFreq: real, filterLength: int, nJobs: int)
      modifies this`filterLog
      ensures filterLog == old(filterLog) + [BandPass(picks, lFreq, hFreq, filterLength, nJobs)]
    {
      filterLog := filterLog + [BandPass(picks, lFreq, hFreq, filterLength, nJobs)];
    }
  }
}
