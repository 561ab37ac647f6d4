# Artifact SSP projection pipeline (MNE `ssp.py`) in Dafny

This project models the control skeleton of `mne/preprocessing/ssp.py`:

- `_compute_exg_proj` computes signal-space projectors (SSP) for cardiac (ECG) or ocular (EOG)
  artifacts. It refuses a recording that is not preloaded. It builds the projector list, which
  starts empty or as the recording's own `info['projs']` list object, and appends the EEG
  average-reference projector if asked. It detects events with the detector that the mode
  selects. It deletes, in place, the caller's rejection-dict keys for channel categories that
  have no channel. It filters the recording in place (high-pass, low-pass, band-pass or none).
  Finally it epochs the recording, reduces the epochs (or their average) to projectors and
  appends those to the list.
- `compute_proj_ecg` and `compute_proj_eog` forward to it with their own defaults.

The collaborators are function values of `External.Toolbox`, and the model says nothing about
what they compute. They are the detectors, `pick_types`, `Epochs`, `average`, the two PCA
reducers and the average-reference constructor. The model tracks which collaborator is called,
with which arguments, in which order, and on which state of the recording.

The recording (`Fiff.Raw`) is a class with these fields:

- the preload flag;
- its projector list, a `Fiff.ProjList` object, so the list can be shared;
- its bad channels;
- its per-category channel counts;
- a log of the in-place filter calls made on it, which stands in for the signal data.

The caller's rejection dict is a `Ssp.RejectDict` object. `Ssp.Run` states the whole call on
values. `Ssp.ComputeExgProj` performs the steps in the source's order on the objects and is
proved to end in the state `Run` describes. On success the returned list is the recording's own
list object if `no_proj` is false, and a fresh list otherwise.

Where the code and its surrounding documentation disagree, the model follows the code:

- An unknown mode raises nothing at the point where the mode is tested: the `ValueError` is
  built and discarded. The call goes on to prune the dict and to filter. It fails only at the
  `Epochs` call, because `events` was never bound (`Ssp.Exc.EventsUnbound`).
- Events are detected before the rejection dict is pruned and before filtering, so detection
  sees the unfiltered recording.
- When only `l_freq` is given, the low-pass call receives `h_freq`, which is `None`, as its cutoff.
- Pruning is not silent when a key is already missing: `del reject[key]` raises `KeyError`.
  The model records this as `Ssp.Exc.MissingRejectKey`. Deletions made before the error remain.
- The default rejection dicts are created once and shared by every call that leaves `reject`
  out. Deletions therefore persist into later default calls. As a result, a second default call
  on another recording that lacks the same channel category raises `KeyError`
  (`SspProperties.SharedRejectSecondCallFails` on values, and `SspProperties.TwoDefaultEcgCalls`
  on the objects, with both calls given `DefaultRejects.ecg`).
  The default `bads=[]` list is shared too, but it is never mutated: the source concatenates it
  into a new list.

## Model

| member | source | states |
|---|---|---|
| `Ssp.Run` | mne/preprocessing/ssp.py:89-147 | an unloaded recording raises ValueError before anything changes; on success the list is start list ++ [avg-ref projector if requested] ++ reducer output; the recording's list equals the returned list unless `no_proj`, in which case it is unchanged; events are the detector's on the unfiltered recording; a call that passes the preload check and the pruning adds exactly the filter call of `FilterPlan` (so `Epochs` sees the filtered recording), and any other call adds none |
| `Ssp.ComputeExgProj` | mne/preprocessing/ssp.py:16-147 | step by step on the objects, the recording, the caller's dict and the returned value end as `Run` says; the returned list is the recording's own list object unless `no_proj`, and a fresh list otherwise |
| `Ssp.FilterPlan` | mne/preprocessing/ssp.py:124-131 | at most one filter call; none iff both bounds are None; high-pass at `h_freq` iff only `h_freq` is set; low-pass iff only `l_freq` is set, with cutoff `h_freq` = None; band-pass (`l_freq`, `h_freq`) iff both are set; every call uses the same picks, filter length and job count |
| `Ssp.Prune` | mne/preprocessing/ssp.py:115-122 | pruning only deletes keys and leaves the surviving keys' thresholds unchanged; a reported KeyError names a key that is not in the dict as left |
| `Ssp.DetectEvents` | mne/preprocessing/ssp.py:103-110 | events are produced iff the mode is 'ECG' or 'EOG'; 'ECG' keeps the first part of `find_ecg_events(raw, ch_name, event_id)`; 'EOG' uses `find_eog_events(raw, event_id)`; any other mode leaves `events` unbound and raises nothing |
| `Ssp.PruneFilterAndReduce` | mne/preprocessing/ssp.py:112-147 | from a set-up list and detected (or unbound) events, the recording, the dict and the result end as `RunAfterDetection` says; on success the list returned is the list that was set up |
| `Ssp.FilterRaw` | mne/preprocessing/ssp.py:126-131 | the recording's filter log grows by exactly the calls of `FilterPlan` |
| `Ssp.PruneReject` | mne/preprocessing/ssp.py:115-122 | the four `del` statements, in order grad, mag, eeg, eog, change the dict as `Prune` says and report the key whose `del` raised KeyError |
| `Ssp.RejectDict.Delete` | mne/preprocessing/ssp.py:116 | `del d[key]` removes the key; it reports whether the key was there, and KeyError is raised when it was not |
| `Ssp.StartProjList` | mne/preprocessing/ssp.py:92-101 | the list is a fresh empty list if `no_proj`, else the recording's own list object; the avg-ref projector built from the info is appended if `avg_ref`; the recording's list is untouched if `no_proj` |
| `Ssp.ExtendWithReduced` | mne/preprocessing/ssp.py:133-143 | `Epochs` is called on the recording, the events, the window, the picks and the pruned dict; the list is extended with `compute_proj_evoked` of the average if `average`, else with `compute_proj_epochs` of the epochs, with the same three budgets |
| `Ssp.ComputeProjEcg` | mne/preprocessing/ssp.py:223-228 | forwards mode 'ECG' and every parameter unchanged; ends as `Run` says for those arguments |
| `Ssp.ComputeProjEog` | mne/preprocessing/ssp.py:304-309 | forwards mode 'EOG' with channel name None and every other parameter unchanged; ends as `Run` says for those arguments |
| `Ssp.DefaultRejects.constructor` | mne/preprocessing/ssp.py:150-236 | the two default dicts are distinct fresh objects holding the source's default thresholds (cardiac at lines 153-154, ocular at lines 234-235) |
| `Fiff.ProjList.Append` | mne/preprocessing/ssp.py:101 | `list.append` adds one projector at the end |
| `Fiff.ProjList.Extend` | mne/preprocessing/ssp.py:143 | `list.extend` adds the projectors at the end, in order |
| `Fiff.ProjList.constructor` | mne/preprocessing/ssp.py:93 | a new list is empty |
| `Fiff.Raw.HighPassFilter` | mne/preprocessing/ssp.py:127 | records one high-pass call with its picks, cutoff, filter length and job count |
| `Fiff.Raw.LowPassFilter` | mne/preprocessing/ssp.py:129 | records one low-pass call with the value passed as cutoff, which may be None |
| `Fiff.Raw.BandPassFilter` | mne/preprocessing/ssp.py:131 | records one band-pass call with both bounds |
| `SspProperties.PruneSpec` | mne/preprocessing/ssp.py:115-122 | for distinct categories, pruning succeeds iff every absent category's key is present, and then it deletes exactly those keys; on failure it names an absent category's missing key; it never adds keys, and it keeps the keys of present categories and unrelated keys with their values |
| `SspProperties.RunPrunesReject` | mne/preprocessing/ssp.py:115-131 | on a loaded recording, KeyError is raised iff the key of some empty category is missing, and then no filter call has been made; when no KeyError is raised, the caller's dict has lost exactly the keys of empty categories; in every case the other keys keep their thresholds and no key is added |
| `SspProperties.PruneStopsAtFirstMissing` | mne/preprocessing/ssp.py:115-122 | on the KeyError path, the key reported is the first empty category's key, in grad, mag, eeg, eog order, that is missing; the keys of the empty categories before it are deleted, and every other key, including those of later categories, is kept |
| `SspProperties.RunUnknownMode` | mne/preprocessing/ssp.py:103-134 | a mode other than 'ECG'/'EOG' never succeeds; no ValueError is raised; once pruning succeeds, the filter call has already been made when the call fails at `Epochs` with `events` unbound |
| `SspProperties.RunDetectsBeforeFiltering` | mne/preprocessing/ssp.py:103-131 | the detector sees the recording with its original filter log; ECG keeps the first part of `find_ecg_events(raw, ch_name, event_id)`; EOG returns `find_eog_events(raw, event_id)` |
| `SspProperties.RunOutputOrder` | mne/preprocessing/ssp.py:92-147 | with `avg_ref` and not `no_proj`, the result begins with the recording's projectors, followed by the avg-ref projector, and the recording holds that same list |
| `SspProperties.SharedRejectSecondCallFails` | mne/preprocessing/ssp.py:150-155 | once a call has pruned a dict for a recording that lacks a category, a later call with that dict on a recording lacking the same category raises KeyError |
| `SspProperties.TwoDefaultEcgCalls` | mne/preprocessing/ssp.py:150-228 | two `compute_proj_ecg` calls share the default dict object; if the first succeeds on a recording with no channel of a category, a second on a loaded recording also lacking it raises KeyError |
| `SspProperties.EcgDefaultsBehaviour` | mne/preprocessing/ssp.py:150-155 | with the ECG defaults the recording's projectors are neither included nor changed, exactly one band-pass call is made, and events come from the ECG detector with no channel name and id 999 |
| `SspProperties.EogDefaultsBehaviour` | mne/preprocessing/ssp.py:231-236 | with the EOG defaults the recording's projectors are neither included nor changed, exactly one band-pass call is made, and events come from the EOG detector with id 998 |
| `SspProperties.DefaultRejectThresholds` | mne/preprocessing/ssp.py:153-235 | both default dicts name grad, mag, eeg and eog; the ECG dict's eog threshold is finite and the EOG dict's is unbounded (`np.inf`) |

## Left out

- Filter numerics: `high_pass_filter`, `low_pass_filter` and `band_pass_filter` are recorded as
  calls with their arguments. The meaning of `filter_length` and `n_jobs` is not modelled.
- Event detection: `find_ecg_events` and `find_eog_events` are uninterpreted functions of the
  recording's state. The auxiliary traces of the cardiac detector are discarded.
- `Epochs`, `average`, `compute_proj_evoked` and `compute_proj_epochs` are uninterpreted. So the
  bound "at most the requested number of vectors per category" is the reducers' promise and is
  not stated. Exceptions raised inside any collaborator are not modelled.
- `make_eeg_average_ref_proj` is an uninterpreted function of the info.
- `pick_types` for the final picks is an uninterpreted function of the info and the exclusion
  list. For the four emptiness tests, the per-category channel counts are given as part of the
  recording.
- Threshold values are opaque (`Finite` or `Unbounded`); only key presence matters to the pipeline.
  The source's float literals are written as exact decimals.
- Console output (`print`) and the unused `os` import are not modelled.
- Python keyword-argument syntax is not modelled: a default call is a call that passes
  `Ssp.EcgDefaults` or `Ssp.EogDefaults` and the matching dict of `Ssp.DefaultRejects`.
