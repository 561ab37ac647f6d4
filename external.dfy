/**
 * The collaborators the pipeline calls but does not define: the event detectors,
 * channel picking, epoching, averaging, the PCA reducers and the average-reference
 * constructor. Each is a total function of what it is given, so the model says
 * which collaborator is called, with which arguments, in which order, and on which
 * state of the recording, but not what any of them computes.
 */
module External {
  import opened Wrappers
  import opened Fiff

  /** A detected artifact event: its sample index and its event id. */
  datatype Event = Event(sample: int, id: int)

  /** The auxiliary outputs of the cardiac detector, which the pipeline discards. */
  datatype Trace = Trace(samples: seq<real>)

  /** An epoch collection built around the detected events. */
  datatype EpochSet = EpochSet(id: nat)

  /** The average of an epoch collection. */
  datatype Evoked = Evoked(id: nat)

  /** A peak-to-peak rejection threshold; `Unbounded` is `np.inf`. */
  datatype Threshold = Finite(amplitude: real) | Unbounded

  /** A rejection configuration: a dictionary from channel-category key to threshold. */
  type Reject = map<string, Threshold>

  /**
   * The collaborators, as function values.
   * - findEcgEvents(raw, ch_name, event_id): `find_ecg_events`, a triple whose first component is the events
   * - findEogEvents(raw, event_id): `find_eog_events`
   * - makeEegAverageRefProj(info): `make_eeg_average_ref_proj`
   * - pickMegEegEog(info, exclude): `pick_types(info, meg=True, eeg=True, eog=True, exclude=exclude)`
   * - epochs(raw, events, tmin, tmax, picks, reject): `Epochs(raw, events, None, tmin, tmax,
   *   baseline=None, picks=picks, reject=reject, proj=True)`
   * - average(epochs): `epochs.average()`
   * - computeProjEvoked / computeProjEpochs(x, n_grad, n_mag, n_eeg): the PCA reducers
   */
  datatype Toolbox = Toolbox(
    findEcgEvents: (RawView, Option<string>, int) -> (seq<Event>, Trace, Trace),
    findEogEvents: (RawView, int) -> seq<Event>,
    makeEegAverageRefProj: Info -> Proj,
    pickMegEegEog: (Info, seq<string>) -> Picks,
    epochs: (RawView, seq<Event>, real, real, Picks, Reject) -> EpochSet,
    average: EpochSet -> Evoked,
    computeProjEvoked: (Evoked, int, int, int) -> seq<Proj>,
    computeProjEpochs: (EpochSet, int, int, int) -> seq<Proj>)
}
