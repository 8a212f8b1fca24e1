# Presensi Kehadiran: the cascading region selector

This project models the attendance form `AbsensiForm` of the
presensi-kehadiran web app as a pure transition system, and proves
properties of it in Dafny.

The form holds a record of eight strings. Four are free-text identity
fields: `nama`, `telepon`, `alamat` and `sekolah`. Four are place names, one
per Indonesian administrative level: `provinsi`, `kota`, `kecamatan` and
`kelurahan`. The form also holds four region lists (`prov`, `city`, `dist`,
`village`) that feed the four region selects, a `loading` flag and a
`showSuccess` flag.

Choosing a province, city or district records it and clears every deeper
place and list. It also requests the child list from the geographic
reference service. Choosing a village is a plain assignment. Submitting
sends the record; on success every field is reset.

- `regions.dfy` (module `Regions`): regions, the four levels, and the
  first-match `find` by name that the province, city and district selects
  perform.
- `form.dfy` (module `Form`): the record, the region lists, level-indexed
  views of both, and the reference description of the cascade.
  `Reselected` says a place was set and every deeper place cleared.
  `Invalidated` says every deeper list was emptied.
- `absensi.dfy` (module `Absensi`): the state, the events, one function
  per handler, `Step` and `Run`.
- `properties.dfy` (module `Properties`): the hierarchy invariant over
  reachable states, the cascade uniformly over all levels, idempotent
  reselection, the submission round trips, and the stale-arrival race.

A region fetch is modelled as two steps. The handler that issues the
request appends a `Fetch(level, parent)` to `pending`. A later event
`Arrive(k, data)` completes the fetch at index `k` with the list `data`.
Fetches may complete in any order. A fetch that fails never arrives.
The mount-time province request is pending in `Init`.

An arriving list replaces its level's list without looking at the current
selection. So the model does not claim that the city list belongs to the
chosen province. `StaleSelectionIsReachable` shows a reachable record whose
province is JAWA TIMUR and whose city comes from the list requested for
JAWA BARAT. What the model does prove in every reachable state is the
hierarchy: a village is chosen only with a district, a district only with
a city, and a city only with a province.

Where the code's behaviour is surprising, the model follows the code:
- Selections are made by display name. The handler takes the first region
  with the chosen name, so of two regions sharing a name only the first can
  be chosen.
- One might expect the final city list to match the last chosen province.
  The code does not guarantee this (src/App.tsx:32), and
  `StaleSelectionIsReachable` gives a counterexample.
- The village select does not look its value up in the village list; it
  assigns whatever value the change event carries.

## Model

| member | source | states |
|---|---|---|
| Regions.FirstIndexOf | src/App.tsx:136 | the index returned is that of the first region with the name, and no earlier region has it; it is the length when none has it |
| Regions.FindByName | src/App.tsx:136-137 | a region is found exactly when some option carries the name; the one found carries the name and no earlier region does |
| Form.SetText | src/App.tsx:102-129 | editing a text field sets that field, keeps the other three text fields and keeps all four places |
| Form.Install | src/App.tsx:24-48 | an arriving list becomes the list of its level and every other level's list is kept |
| Absensi.Init | src/App.tsx:10-25 | the mounted form has an empty record, four empty lists, no loading, no overlay, and only the province request in flight |
| Absensi.ProvChange | src/App.tsx:27-33 | the province is set, city, district and village are cleared in the record and in the lists, identity fields and the province list are kept, and one city request for the province is issued |
| Absensi.CityChange | src/App.tsx:35-41 | the city is set, district and village are cleared in the record and in the lists, the province and identity fields are kept, and one district request is issued |
| Absensi.DistChange | src/App.tsx:43-49 | the district is set, only the village is cleared in the record and in the lists, and one village request is issued |
| Absensi.OnProvinceSelect | src/App.tsx:135-140 | a name not in the province list, including the placeholder "", changes nothing; a listed name is recorded with the cascade and the city request goes to the first province carrying that name |
| Absensi.OnCitySelect | src/App.tsx:146-150 | with no province chosen, or with an unlisted name, nothing changes; otherwise the city is recorded with the cascade below it and the district request goes to the first city carrying that name |
| Absensi.OnDistrictSelect | src/App.tsx:158-162 | with no city chosen, or with an unlisted name, nothing changes; otherwise the district is recorded with the cascade below it and the village request goes to the first district carrying that name |
| Absensi.OnVillageSelect | src/App.tsx:170-171 | with no district chosen nothing changes; otherwise the village is assigned, possibly "", and nothing else changes |
| Absensi.OnEdit | src/App.tsx:100-129 | a text input changes exactly its own field |
| Absensi.OnArrive | src/App.tsx:29-48 | completing a pending fetch replaces exactly its level's list, removes it from the pending requests and leaves the record and flags alone; with no such fetch nothing changes |
| Absensi.OnSubmit | src/App.tsx:51-61 | while loading the disabled button does nothing; otherwise loading is set and nothing else changes |
| Absensi.OnSubmitSucceeded | src/App.tsx:63-78 | every field is reset, the city, district and village lists are emptied, the province list is kept, the overlay is shown and loading is cleared |
| Absensi.OnSubmitFailed | src/App.tsx:74-78 | the record, lists and overlay are kept and loading is cleared |
| Absensi.OnDismiss | src/App.tsx:200 | the overlay is hidden and nothing else changes |
| Absensi.Step | src/App.tsx:27-171 | every event keeps the hierarchy of places |
| Properties.RunKeepsNested | src/App.tsx:146-171 | any sequence of events from a nested record yields a nested record |
| Properties.ReachableIsNested | src/App.tsx:135-171 | in every reachable state a village implies a district, a district a city, and a city a province |
| Properties.SelectCascades | src/App.tsx:27-49 | at every level an accepted selection sets that level, clears every deeper place and list and keeps shallower ones; a selection that is not accepted changes nothing |
| Properties.ReselectionIsIdempotent | src/App.tsx:135-171 | two identical change events in a row leave the record and lists as one does |
| Properties.ProvinceClearedOnlyBySubmission | src/App.tsx:135-140 | when no province is named "", a chosen province becomes empty exactly when a pending submission succeeds |
| Properties.FailedSubmissionRestores | src/App.tsx:51-78 | submit followed by failure returns exactly the state before submitting |
| Properties.SucceededSubmissionResets | src/App.tsx:66-72 | submit followed by success leaves an empty record, only the province list, the overlay shown and submit enabled |
| Properties.ArrivalIgnoresSelection | src/App.tsx:40 | the lists after an arrival do not depend on the record, and the record is unchanged |
| Properties.ReselectedProvinceLeavesRequestInFlight | src/App.tsx:27-33 | choosing a second province leaves the first province's city request pending |
| Properties.SlowRequestWinsRace | src/App.tsx:32 | the request that arrives last installs its list, and the city select then accepts a city from the list of the previous province |
| Properties.StaleSelectionIsReachable | src/App.tsx:24-41 | a reachable record names one province and a city taken from the list requested for another |

## Left out

- Network calls and response parsing: the fetches to the reference service
  and to the submission endpoint, `res.json()`, and the `no-cors` mode. They
  are I/O. A region fetch is a pending request plus a later arrival with an
  arbitrary list. A submission is a later success or failure event.
- Region fetch failures: the source does not handle them, so a failed
  fetch is one that never arrives.
- The body sent on submission (`JSON.stringify(formData)`): it is output
  only, and no state depends on it.
- React specifics: `useState`, `useEffect` and batching. Handlers that
  spread `formData` from the render closure are modelled as applying to the
  current state, one event at a time.
- Browser behaviour: `required` validation and `alert`. Submit is guarded
  by "not loading" only; the failure alert changes no state.
- Rendering: the JSX, styles, icons and the success modal markup. Only the
  `showSuccess` flag and its dismissal are modelled.
- Which values a select can deliver: the DOM limits a change event to an
  option's value. The model lets any string arrive, which is harmless since
  the handlers look province, city and district values up in the list.
- Properties.ReselectionIsIdempotent: the model delivers a change event
  even for the option already shown, which a browser does not; in the
  program such a repeated event arises only from picking another option
  with the same name.
