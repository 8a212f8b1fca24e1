/** The record being entered and the four region lists offered by the selects
    (src/App.tsx:12-19), with level-indexed views of both and the reference
    description of the cascade: choosing at one level clears every deeper level. */
module Form {
  import opened Regions

  /** The `formData` record: four free-text identity fields and one place
      name per region level. */
  datatype FormData = FormData(
    nama: string, telepon: string, alamat: string, sekolah: string,
    provinsi: string, kota: string, kecamatan: string, kelurahan: string)

  /** The free-text inputs: full name, phone, address and school. */
  datatype TextField = Nama | Telepon | Alamat | Sekolah

  /** The record as created on load and as reset after a successful submission. */
  const Blank := FormData("", "", "", "", "", "", "", "")

  /** The `regions` state: the options of the four region selects. */
  datatype RegionLists = RegionLists(
    prov: seq<Region>, city: seq<Region>, dist: seq<Region>, village: seq<Region>)

  const NoLists := RegionLists([], [], [], [])

  function Text(f: FormData, field: TextField): string {
    match field
    case Nama => f.nama
    case Telepon => f.telepon
    case Alamat => f.alamat
    case Sekolah => f.sekolah
  }

  /** The place name the record holds at level `l`. */
  function Place(f: FormData, l: Level): string {
    match l
    case Province => f.provinsi
    case City => f.kota
    case District => f.kecamatan
    case Village => f.kelurahan
  }

  /** The options the select at level `l` currently offers. */
  function ListAt(r: RegionLists, l: Level): seq<Region> {
    match l
    case Province => r.prov
    case City => r.city
    case District => r.dist
    case Village => r.village
  }

  /** The select at level `l` is interactive: every select below the
      province one is disabled while its parent place is empty. */
  predicate Enabled(f: FormData, l: Level) {
    match l
    case Province => true
    case City => f.provinsi != ""
    case District => f.kota != ""
    case Village => f.kecamatan != ""
  }

  /** Hierarchy: a place is filled only if the place of its parent level is. */
  predicate Nested(f: FormData) {
    && (f.kelurahan != "" ==> f.kecamatan != "")
    && (f.kecamatan != "" ==> f.kota != "")
    && (f.kota != "" ==> f.provinsi != "")
  }

  predicate SameIdentity(f: FormData, g: FormData) {
    forall field: TextField :: Text(g, field) == Text(f, field)
  }

  predicate SamePlaces(f: FormData, g: FormData) {
    forall l: Level :: Place(g, l) == Place(f, l)
  }

  /** Reference cascade on the record: `g` is `f` with the place at `l` set
      to `v`, every shallower place and every identity field kept, and every
      deeper place cleared. */
  predicate Reselected(f: FormData, g: FormData, l: Level, v: string) {
    && SameIdentity(f, g)
    && Place(g, l) == v
    && (forall m: Level :: m.Rank() < l.Rank() ==> Place(g, m) == Place(f, m))
    && (forall m: Level :: m.Rank() > l.Rank() ==> Place(g, m) == "")
  }

  /** Reference cascade on the lists: the lists at `l` and above are kept,
      every deeper list is emptied. */
  predicate Invalidated(r: RegionLists, r': RegionLists, l: Level) {
    && (forall m: Level :: m.Rank() <= l.Rank() ==> ListAt(r', m) == ListAt(r, m))
    && (forall m: Level :: m.Rank() > l.Rank() ==> ListAt(r', m) == [])
  }

  /** `setFormData({ ...formData, <field>: value })` for a free-text input. */
  function SetText(f: FormData, field: TextField, v: string): (g: FormData)
    ensures Text(g, field) == v
    ensures forall other: TextField :: other != field ==> Text(g, other) == Text(f, other)
    ensures SamePlaces(f, g)
  {
    match field
    case Nama => f.(nama := v)
    case Telepon => f.(telepon := v)
    case Alamat => f.(alamat := v)
    case Sekolah => f.(sekolah := v)
  }

  /** `setRegions(prev => ({ ...prev, <level>: data }))`: a completed fetch
      installs its list at one level. */
  function Install(r: RegionLists, l: Level, data: seq<Region>): (r': RegionLists)
    ensures ListAt(r', l) == data
    ensures forall m: Level :: m != l ==> ListAt(r', m) == ListAt(r, m)
  {
    match l
    case Province => r.(prov := data)
    case City => r.(city := data)
    case District => r.(dist := data)
    case Village => r.(village := data)
  }
}
