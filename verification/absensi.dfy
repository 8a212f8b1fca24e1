/** The `AbsensiForm` component as a transition system (src/App.tsx:9-79,
    135-181, 200). Every user action and every completed network call is an
    event applied to the current state. A region fetch is split in two: the
    handler that issues it appends a `Fetch` to `pending`, and a later
    `Arrive` event completes one pending fetch, in any order. */
module Absensi {
  import opened Regions
  import opened Form

  /** An issued region request: the level whose list it fills, and the
      region it was issued for (none for the province list loaded on mount). */
  datatype Fetch = Fetch(level: Level, parent: Option<Region>)

  datatype State = State(
    form: FormData,
    regions: RegionLists,
    loading: bool,
    showSuccess: bool,
    pending: seq<Fetch>)

  datatype Event =
    | Select(level: Level, value: string)    // change event of a region select
    | Edit(field: TextField, value: string)  // change event of a free-text input
    | Arrive(index: nat, data: seq<Region>)  // pending[index] completes with `data`
    | Submit                                 // the form's submit event
    | SubmitSucceeded                        // the submission request resolved
    | SubmitFailed                           // the submission request threw
    | Dismiss                                // the success overlay's close button

  /** The level a selection at `l` fetches the options of. */
  function Child(l: Level): (c: Level)
    requires l != Village
    ensures c.Rank() == l.Rank() + 1
  {
    match l
    case Province => City
    case City => District
    case District => Village
  }

  /** The mounted component: empty record and lists, nothing loading, and
      the province request of the mount effect in flight. */
  function Init(): (s: State)
    ensures s.form == Blank && !s.loading && !s.showSuccess
    ensures forall l: Level :: ListAt(s.regions, l) == []
    ensures s.pending == [Fetch(Province, None)]
  {
    State(Blank, NoLists, false, false, [Fetch(Province, None)])
  }

  /** handleProvChange: record the province, clear the deeper places and
      lists, and request the province's cities. */
  function ProvChange(s: State, p: Region): (t: State)
    ensures Reselected(s.form, t.form, Province, p.name)
    ensures Invalidated(s.regions, t.regions, Province)
    ensures t.pending == s.pending + [Fetch(Child(Province), Some(p))]
    ensures t.loading == s.loading && t.showSuccess == s.showSuccess
  {
    s.(form := s.form.(provinsi := p.name, kota := "", kecamatan := "", kelurahan := ""),
       regions := s.regions.(city := [], dist := [], village := []),
       pending := s.pending + [Fetch(City, Some(p))])
  }

  /** handleCityChange: record the city, clear district and village, and
      request the city's districts. */
  function CityChange(s: State, c: Region): (t: State)
    ensures Reselected(s.form, t.form, City, c.name)
    ensures Invalidated(s.regions, t.regions, City)
    ensures t.pending == s.pending + [Fetch(Child(City), Some(c))]
    ensures t.loading == s.loading && t.showSuccess == s.showSuccess
  {
    s.(form := s.form.(kota := c.name, kecamatan := "", kelurahan := ""),
       regions := s.regions.(dist := [], village := []),
       pending := s.pending + [Fetch(District, Some(c))])
  }

  /** handleDistChange: record the district, clear the village, and request
      the district's villages. */
  function DistChange(s: State, d: Region): (t: State)
    ensures Reselected(s.form, t.form, District, d.name)
    ensures Invalidated(s.regions, t.regions, District)
    ensures t.pending == s.pending + [Fetch(Child(District), Some(d))]
    ensures t.loading == s.loading && t.showSuccess == s.showSuccess
  {
    s.(form := s.form.(kecamatan := d.name, kelurahan := ""),
       regions := s.regions.(village := []),
       pending := s.pending + [Fetch(Village, Some(d))])
  }

  /** The province select's change handler: look the chosen name up in the
      province list and call handleProvChange only when it is there; the
      request goes to the first province carrying the name. The
      placeholder option has value "" and matches no region unless the list
      itself holds a region named "". */
  function OnProvinceSelect(s: State, v: string): (t: State)
    ensures !Offers(s.regions.prov, v) ==> t == s
    ensures Offers(s.regions.prov, v) ==>
      && Reselected(s.form, t.form, Province, v)
      && Invalidated(s.regions, t.regions, Province)
      && exists k :: 0 <= k < |s.regions.prov| && s.regions.prov[k].name == v
           && (forall j :: 0 <= j < k ==> s.regions.prov[j].name != v)
           && t.pending == s.pending + [Fetch(Child(Province), Some(s.regions.prov[k]))]
  {
    match FindByName(s.regions.prov, v)
    case Some(p) => ProvChange(s, p)
    case None => s
  }

  /** The city select: disabled while no province is chosen; otherwise as
      the province select, one level down. */
  function OnCitySelect(s: State, v: string): (t: State)
    ensures s.form.provinsi == "" || !Offers(s.regions.city, v) ==> t == s
    ensures s.form.provinsi != "" && Offers(s.regions.city, v) ==>
      && Reselected(s.form, t.form, City, v)
      && Invalidated(s.regions, t.regions, City)
      && exists k :: 0 <= k < |s.regions.city| && s.regions.city[k].name == v
           && (forall j :: 0 <= j < k ==> s.regions.city[j].name != v)
           && t.pending == s.pending + [Fetch(Child(City), Some(s.regions.city[k]))]
  {
    if s.form.provinsi == "" then s
    else match FindByName(s.regions.city, v)
      case Some(c) => CityChange(s, c)
      case None => s
  }

  /** The district select: disabled while no city is chosen. */
  function OnDistrictSelect(s: State, v: string): (t: State)
    ensures s.form.kota == "" || !Offers(s.regions.dist, v) ==> t == s
    ensures s.form.kota != "" && Offers(s.regions.dist, v) ==>
      && Reselected(s.form, t.form, District, v)
      && Invalidated(s.regions, t.regions, District)
      && exists k :: 0 <= k < |s.regions.dist| && s.regions.dist[k].name == v
           && (forall j :: 0 <= j < k ==> s.regions.dist[j].name != v)
           && t.pending == s.pending + [Fetch(Child(District), Some(s.regions.dist[k]))]
  {
    if s.form.kota == "" then s
    else match FindByName(s.regions.dist, v)
      case Some(d) => DistChange(s, d)
      case None => s
  }

  /** The village select: disabled while no district is chosen; otherwise a
      plain assignment of the chosen value, with no lookup and no fetch. */
  function OnVillageSelect(s: State, v: string): (t: State)
    ensures s.form.kecamatan == "" ==> t == s
    ensures s.form.kecamatan != "" ==>
      && Reselected(s.form, t.form, Village, v)
      && t.regions == s.regions && t.pending == s.pending
      && t.loading == s.loading && t.showSuccess == s.showSuccess
  {
    if s.form.kecamatan == "" then s
    else s.(form := s.form.(kelurahan := v))
  }

  /** A free-text input's change handler. */
  function OnEdit(s: State, field: TextField, v: string): (t: State)
    ensures Text(t.form, field) == v
    ensures forall other: TextField :: other != field ==> Text(t.form, other) == Text(s.form, other)
    ensures SamePlaces(s.form, t.form)
    ensures t.regions == s.regions && t.pending == s.pending
    ensures t.loading == s.loading && t.showSuccess == s.showSuccess
  {
    s.(form := SetText(s.form, field, v))
  }

  /** Completion of the pending fetch at `k`: its data replaces the list of
      its level whatever the record currently selects. An index with no
      pending fetch behind it changes nothing. */
  function OnArrive(s: State, k: nat, data: seq<Region>): (t: State)
    ensures k >= |s.pending| ==> t == s
    ensures k < |s.pending| ==>
      && ListAt(t.regions, s.pending[k].level) == data
      && (forall m: Level :: m != s.pending[k].level ==> ListAt(t.regions, m) == ListAt(s.regions, m))
      && t.pending == s.pending[..k] + s.pending[k + 1..]
      && t.form == s.form && t.loading == s.loading && t.showSuccess == s.showSuccess
  {
    if k >= |s.pending| then s
    else
      s.(regions := Install(s.regions, s.pending[k].level, data),
         pending := s.pending[..k] + s.pending[k + 1..])
  }

  /** handleSubmit up to its await: the submit button is disabled while
      loading, otherwise loading is set and the record is sent. */
  function OnSubmit(s: State): (t: State)
    ensures s.loading ==> t == s
    ensures !s.loading ==>
      && t.loading
      && t.form == s.form && t.regions == s.regions && t.pending == s.pending
      && t.showSuccess == s.showSuccess
  {
    if s.loading then s else s.(loading := true)
  }

  /** The submission resolved: show the success overlay, reset every field,
      empty the city, district and village lists, keep the province list,
      and clear loading. Without a submission in flight nothing happens. */
  function OnSubmitSucceeded(s: State): (t: State)
    ensures !s.loading ==> t == s
    ensures s.loading ==>
      && t.form == Blank
      && Invalidated(s.regions, t.regions, Province)
      && t.showSuccess && !t.loading
      && t.pending == s.pending
  {
    if !s.loading then s
    else
      s.(showSuccess := true,
         form := Blank,
         regions := s.regions.(city := [], dist := [], village := []),
         loading := false)
  }

  /** The submission threw: an alert is shown, the record and lists stay as
      they are, and loading is cleared. */
  function OnSubmitFailed(s: State): (t: State)
    ensures !s.loading ==> t == s
    ensures s.loading ==>
      && !t.loading
      && t.form == s.form && t.regions == s.regions && t.pending == s.pending
      && t.showSuccess == s.showSuccess
  {
    if !s.loading then s else s.(loading := false)
  }

  /** The success overlay's close button. */
  function OnDismiss(s: State): (t: State)
    ensures !t.showSuccess
    ensures t.form == s.form && t.regions == s.regions && t.pending == s.pending
    ensures t.loading == s.loading
  {
    s.(showSuccess := false)
  }

  /** One event applied to the current state. Every event keeps the
      hierarchy of places. */
  function Step(s: State, e: Event): (t: State)
    ensures Nested(s.form) ==> Nested(t.form)
  {
    match e
    case Select(l, v) =>
      (match l
       case Province => OnProvinceSelect(s, v)
       case City => OnCitySelect(s, v)
       case District => OnDistrictSelect(s, v)
       case Village => OnVillageSelect(s, v))
    case Edit(field, v) => OnEdit(s, field, v)
    case Arrive(k, data) => OnArrive(s, k, data)
    case Submit => OnSubmit(s)
    case SubmitSucceeded => OnSubmitSucceeded(s)
    case SubmitFailed => OnSubmitFailed(s)
    case Dismiss => OnDismiss(s)
  }

  /** The state after applying `es` in order, starting from `s`. */
  function Run(s: State, es: seq<Event>): State
    decreases |es|
  {
    if |es| == 0 then s else Run(Step(s, es[0]), es[1..])
  }
}
