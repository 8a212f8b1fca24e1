/** Properties of the form's transition system that relate several events or
    all reachable states. */
module Properties {
  import opened Regions
  import opened Form
  import opened Absensi

  /** A state the component can be in: the mounted state after some sequence
      of events. */
  ghost predicate Reachable(s: State) {
    exists es: seq<Event> :: s == Run(Init(), es)
  }

  /** Running any sequence of events from a state with nested places yields
      a state with nested places. */
  lemma {:induction false} RunKeepsNested(s: State, es: seq<Event>)
    requires Nested(s.form)
    ensures Nested(Run(s, es).form)
    decreases |es|
  {
    if |es| > 0 {
      RunKeepsNested(Step(s, es[0]), es[1..]);
    }
  }

  /** Hierarchy invariant: in every reachable state a village is chosen only
      with a district, a district only with a city, a city only with a
      province. */
  lemma ReachableIsNested(s: State)
    requires Reachable(s)
    ensures s.form.kelurahan != "" ==> s.form.kecamatan != ""
    ensures s.form.kecamatan != "" ==> s.form.kota != ""
    ensures s.form.kota != "" ==> s.form.provinsi != ""
  {
    var es: seq<Event> :| s == Run(Init(), es);
    RunKeepsNested(Init(), es);
  }

  /** The select at level `l` takes `v`: the control is enabled and, above
      the village level, `v` names an option of the level's list. */
  predicate Accepts(s: State, l: Level, v: string) {
    Enabled(s.form, l) && (l == Village || Offers(ListAt(s.regions, l), v))
  }

  /** The cascade, uniformly over the four levels: an accepted selection
      sets its level, clears every deeper place and list and keeps everything
      else; a selection that is not accepted changes nothing at all. */
  lemma SelectCascades(s: State, l: Level, v: string)
    ensures Accepts(s, l, v) ==>
      && Reselected(s.form, Step(s, Select(l, v)).form, l, v)
      && Invalidated(s.regions, Step(s, Select(l, v)).regions, l)
      && Step(s, Select(l, v)).loading == s.loading
      && Step(s, Select(l, v)).showSuccess == s.showSuccess
    ensures !Accepts(s, l, v) ==> Step(s, Select(l, v)) == s
  {
  }

  /** Two identical change events in a row leave the record and the lists
      as one did. (A browser fires no change event for the option already
      shown, so the second event stands for picking another option that
      carries the same name.) */
  lemma ReselectionIsIdempotent(s: State, l: Level, v: string)
    ensures
      var once := Step(s, Select(l, v));
      var twice := Step(once, Select(l, v));
      twice.form == once.form && twice.regions == once.regions
  {
  }

  /** When the province list names no region "", a chosen province is lost
      only through a successful submission: no selection, edit, arrival or
      failed submission empties it. */
  lemma ProvinceClearedOnlyBySubmission(s: State, e: Event)
    requires s.form.provinsi != ""
    requires forall i :: 0 <= i < |s.regions.prov| ==> s.regions.prov[i].name != ""
    ensures Step(s, e).form.provinsi == "" <==> e == SubmitSucceeded && s.loading
  {
  }

  /** A failed submission is undone completely: the record is exactly what
      the user entered, the lists are untouched, and submit is re-enabled. */
  lemma FailedSubmissionRestores(s: State)
    requires !s.loading
    ensures Run(s, [Submit, SubmitFailed]) == s
  {
  }

  /** A successful submission from an idle state ends with every field
      empty, only the province list left, the overlay shown, and submit
      re-enabled. */
  lemma SucceededSubmissionResets(s: State)
    requires !s.loading
    ensures
      var t := Run(s, [Submit, SubmitSucceeded]);
      && t.form == Blank
      && t.regions == s.regions.(city := [], dist := [], village := [])
      && t.showSuccess && !t.loading
  {
  }

  /** An arriving list does not depend on what the record selects: two
      states that differ only in the record get the same lists. */
  lemma ArrivalIgnoresSelection(s: State, s': State, k: nat, data: seq<Region>)
    requires s.regions == s'.regions && s.pending == s'.pending
    ensures Step(s, Arrive(k, data)).regions == Step(s', Arrive(k, data)).regions
    ensures Step(s, Arrive(k, data)).form == s.form
  {
  }

  const Jabar := Region("32", "JAWA BARAT")
  const Jatim := Region("35", "JAWA TIMUR")
  const Bogor := Region("3201", "KABUPATEN BOGOR")
  const Pacitan := Region("3501", "KABUPATEN PACITAN")

  /** The first half of the race: provinces loaded, JAWA BARAT chosen, then
      JAWA TIMUR chosen while the JAWA BARAT cities are still in flight. */
  lemma ReselectedProvinceLeavesRequestInFlight()
    ensures
      var s := Run(Init(), [Arrive(0, [Jabar, Jatim]), Select(Province, "JAWA BARAT"), Select(Province, "JAWA TIMUR")]);
      && s.form == Blank.(provinsi := "JAWA TIMUR")
      && s.regions.prov == [Jabar, Jatim] && s.regions.city == []
      && s.pending == [Fetch(City, Some(Jabar)), Fetch(City, Some(Jatim))]
  {
    var s1 := Step(Init(), Arrive(0, [Jabar, Jatim]));
    assert s1.regions.prov == [Jabar, Jatim] && s1.pending == [];
    assert FindByName(s1.regions.prov, "JAWA BARAT") == Some(Jabar);
    var s2 := Step(s1, Select(Province, "JAWA BARAT"));
    assert s2 == ProvChange(s1, Jabar);
    assert s2.pending == [Fetch(City, Some(Jabar))];
    assert s2.regions.prov == [Jabar, Jatim];
    assert Jabar.name != "JAWA TIMUR" by { assert Jabar.name[5] != "JAWA TIMUR"[5]; }
    assert [Jabar, Jatim][1..] == [Jatim];
    assert FirstIndexOf([Jabar, Jatim], "JAWA TIMUR") == 1;
    assert FindByName(s2.regions.prov, "JAWA TIMUR") == Some(Jatim);
    var s3 := Step(s2, Select(Province, "JAWA TIMUR"));
    assert Run(s3, []) == s3;
    assert Run(s2, [Select(Province, "JAWA TIMUR")]) == s3;
    assert [Select(Province, "JAWA BARAT"), Select(Province, "JAWA TIMUR")][1..] == [Select(Province, "JAWA TIMUR")];
    assert Run(s1, [Select(Province, "JAWA BARAT"), Select(Province, "JAWA TIMUR")]) == s3;
    assert [Arrive(0, [Jabar, Jatim]), Select(Province, "JAWA BARAT"), Select(Province, "JAWA TIMUR")][1..]
        == [Select(Province, "JAWA BARAT"), Select(Province, "JAWA TIMUR")];
  }

  /** The second half of the race: the JAWA TIMUR cities arrive first, the
      JAWA BARAT cities last, and the city select then accepts a JAWA BARAT
      regency while the record still names JAWA TIMUR. */
  lemma SlowRequestWinsRace(s: State)
    requires s.form == Blank.(provinsi := "JAWA TIMUR")
    requires s.pending == [Fetch(City, Some(Jabar)), Fetch(City, Some(Jatim))]
    ensures
      var t := Run(s, [Arrive(1, [Pacitan]), Arrive(0, [Bogor]), Select(City, "KABUPATEN BOGOR")]);
      && t.form.provinsi == "JAWA TIMUR"
      && t.form.kota == "KABUPATEN BOGOR"
      && t.regions.city == [Bogor]
      && t.pending == [Fetch(District, Some(Bogor))]
  {
    var s1 := Step(s, Arrive(1, [Pacitan]));
    assert s1.pending == [Fetch(City, Some(Jabar))];
    var s2 := Step(s1, Arrive(0, [Bogor]));
    assert s2.regions.city == [Bogor] && s2.form == s.form && s2.pending == [];
    assert FindByName(s2.regions.city, "KABUPATEN BOGOR") == Some(Bogor);
    var s3 := Step(s2, Select(City, "KABUPATEN BOGOR"));
    assert Run(s3, []) == s3;
    assert Run(s2, [Select(City, "KABUPATEN BOGOR")]) == s3;
    assert [Arrive(0, [Bogor]), Select(City, "KABUPATEN BOGOR")][1..] == [Select(City, "KABUPATEN BOGOR")];
    assert Run(s1, [Arrive(0, [Bogor]), Select(City, "KABUPATEN BOGOR")]) == s3;
    assert [Arrive(1, [Pacitan]), Arrive(0, [Bogor]), Select(City, "KABUPATEN BOGOR")][1..]
        == [Arrive(0, [Bogor]), Select(City, "KABUPATEN BOGOR")];
  }

  /** Running two sequences of events one after the other is running their
      concatenation. */
  lemma {:induction false} RunConcat(s: State, es: seq<Event>, fs: seq<Event>)
    ensures Run(s, es + fs) == Run(Run(s, es), fs)
    decreases |es|
  {
    if |es| > 0 {
      assert (es + fs)[0] == es[0];
      assert (es + fs)[1..] == es[1..] + fs;
      RunConcat(Step(s, es[0]), es[1..], fs);
    } else {
      assert es + fs == fs;
    }
  }

  /** The whole race from the mounted component: a reachable record names
      JAWA TIMUR as its province and a regency from the list requested for
      JAWA BARAT as its city. The model therefore promises no relation
      between a chosen place and its parent beyond the hierarchy of
      non-empty places. */
  lemma StaleSelectionIsReachable()
    ensures exists s: State ::
      && Reachable(s)
      && s.form.provinsi == Jatim.name
      && s.form.kota == Bogor.name
      && s.regions.city == [Bogor]
  {
    var es := [Arrive(0, [Jabar, Jatim]), Select(Province, "JAWA BARAT"), Select(Province, "JAWA TIMUR")];
    var fs := [Arrive(1, [Pacitan]), Arrive(0, [Bogor]), Select(City, "KABUPATEN BOGOR")];
    var mid := Run(Init(), es);
    ReselectedProvinceLeavesRequestInFlight();
    SlowRequestWinsRace(mid);
    var last := Run(mid, fs);
    RunConcat(Init(), es, fs);
    assert last == Run(Init(), es + fs);
    assert Reachable(last);
  }
}
