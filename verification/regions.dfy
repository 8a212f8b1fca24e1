/** Regions of the geographic reference service and the lookup the region
    selects perform on them (src/App.tsx:4-7, 136, 148, 160). */
module Regions {

  /** One row returned by the reference service: a stable id and a display name. */
  datatype Region = Region(id: string, name: string)

  datatype Option<+T> = None | Some(value: T)

  /** The four nested administrative levels, outermost first. */
  datatype Level = Province | City | District | Village {

    /** Depth of the level in the cascade: provinces are 0, villages 3. */
    function Rank(): nat {
      match this
      case Province => 0
      case City => 1
      case District => 2
      case Village => 3
    }
  }

  /** True iff some region of `rs` is displayed under `name`, i.e. the select
      built from `rs` has an option whose value is `name`. */
  predicate Offers(rs: seq<Region>, name: string) {
    exists i :: 0 <= i < |rs| && rs[i].name == name
  }

  /** Position of the first region named `name`, or |rs| when there is none. */
  function FirstIndexOf(rs: seq<Region>, name: string): (k: nat)
    ensures k <= |rs|
    ensures forall j :: 0 <= j < k ==> rs[j].name != name
    ensures k < |rs| ==> rs[k].name == name
  {
    if |rs| == 0 then 0
    else if rs[0].name == name then 0
    else 1 + FirstIndexOf(rs[1..], name)
  }

  /** The `find(r => r.name === value)` lookup of a select's change handler:
      the first region carrying the chosen name, if any. */
  function FindByName(rs: seq<Region>, name: string): (r: Option<Region>)
    ensures r.Some? <==> Offers(rs, name)
    ensures r.Some? ==> r.value.name == name
    ensures r.Some? ==>
      exists k :: 0 <= k < |rs| && rs[k] == r.value
                  && forall j :: 0 <= j < k ==> rs[j].name != name
  {
    var k := FirstIndexOf(rs, name);
    if k < |rs| then Some(rs[k]) else None
  }
}
