/** Properties of the operator actions that relate several calls, and every
    scenario of the action test suite, stated as a lemma over every API
    client that answers as the scenario's mocks do. */
module ActionProperties {
  import opened Wrappers
  import opened Kube
  import opened Crd
  import opened Ordering
  import opened Signals
  import opened OperatorActions

  /** The CSV of the scenarios: `foo`, owning `foo.kubeapps.com` at `v1alpha1`. */
  function FooCsv(): CSV {
    CSV("foo", [CrdDescription("foo.kubeapps.com", "v1alpha1")], "")
  }

  /** The owned entry `foo.kubeapps.com` at `v1alpha1` is served under the
      group/version `kubeapps.com/v1alpha1` with plural `foo`. */
  lemma ResolveFooKubeapps()
    ensures Resolve(CrdDescription("foo.kubeapps.com", "v1alpha1")) == ApiTarget("kubeapps.com/v1alpha1", "foo")
  {
    var c := Coordinates("foo", "kubeapps.com");
    FooKubeappsIsCrdName();
    ParseCrdNameOfCrdName(c);
    ResolveOfParsed(CrdDescription("foo.kubeapps.com", "v1alpha1"), c);
    KubeappsGroupVersion();
  }

  /** The literal facts of the scenarios stand apart, each in a lemma of its
      own, so that their string concatenations are unfolded away from the
      actions that use them. */
  lemma FooKubeappsIsCrdName()
    ensures CrdName(Coordinates("foo", "kubeapps.com")) == "foo.kubeapps.com"
  {
  }

  lemma KubeappsGroupVersion()
    ensures "kubeapps.com" + "/" + "v1alpha1" == "kubeapps.com/v1alpha1"
  {
  }

  /** Resolution in terms of the split of the entry's name. */
  lemma ResolveOfParsed(d: CrdDescription, c: Coordinates)
    requires ParseCrdName(d.name) == c
    ensures Resolve(d) == ApiTarget(c.group + "/" + d.version, c.plural)
  {
  }

  /** The OLM probe decides the closing action. */
  lemma CheckOLMInstalledScenarios(api: Api)
    ensures api.isOLMInstalled() ==>
      CheckOLMInstalled(api) == [Signal(CheckingOLM, NoPayload), Signal(OLMInstalled, NoPayload)]
    ensures !api.isOLMInstalled() ==>
      CheckOLMInstalled(api) == [Signal(CheckingOLM, NoPayload), Signal(OLMNotInstalled, NoPayload)]
  {
  }

  /** When names are distinct the operators payload is fully determined: it
      is THE ascending arrangement of what the client returned. */
  lemma GetOperatorsPayloadIsTheSortedArrangement(api: Api, ns: string, p: seq<Operator>)
    requires api.getOperators(ns).Ok?
    requires multiset(p) == multiset(api.getOperators(ns).value)
    requires SortedBy(p, OperatorName) && DistinctKeys(p, OperatorName)
    ensures GetOperators(api, ns)[1] == Signal(ReceiveOperators, OperatorList(p))
  {
    var r := GetOperators(api, ns);
    SortedPermutationUnique(p, r[1].payload.operators, OperatorName);
  }

  /** The same for the ClusterServiceVersions payload. */
  lemma GetCSVsPayloadIsTheSortedArrangement(api: Api, ns: string, p: seq<CSV>)
    requires api.getCSVs(ns).Ok?
    requires multiset(p) == multiset(api.getCSVs(ns).value)
    requires SortedBy(p, CSVName) && DistinctKeys(p, CSVName)
    ensures GetCSVs(api, ns).signals[1] == Signal(ReceiveCSVs, CSVList(p))
    ensures GetCSVs(api, ns).returned == Ok(p)
  {
    var d := GetCSVs(api, ns);
    SortedPermutationUnique(p, d.returned.value, CSVName);
  }

  /** getOperators turns `[foo, bar]` into `[bar, foo]`. */
  lemma GetOperatorsFooBar(api: Api)
    requires api.getOperators("default") == Ok([Operator("foo", ""), Operator("bar", "")])
    ensures GetOperators(api, "default") ==
      [Signal(RequestOperators, NoPayload),
       Signal(ReceiveOperators, OperatorList([Operator("bar", ""), Operator("foo", "")]))]
  {
    var p := [Operator("bar", ""), Operator("foo", "")];
    assert NameLe("bar", "foo");
    assert multiset(p) == multiset(api.getOperators("default").value);
    GetOperatorsPayloadIsTheSortedArrangement(api, "default", p);
  }

  /** getCSVs turns `[foo, bar]` into `[bar, foo]`. */
  lemma GetCSVsFooBar(api: Api)
    requires api.getCSVs("default") == Ok([CSV("foo", [], ""), CSV("bar", [], "")])
    ensures GetCSVs(api, "default").signals ==
      [Signal(RequestCSVs, NoPayload),
       Signal(ReceiveCSVs, CSVList([CSV("bar", [], ""), CSV("foo", [], "")]))]
  {
    var p := [CSV("bar", [], ""), CSV("foo", [], "")];
    assert NameLe("bar", "foo");
    assert multiset(p) == multiset(api.getCSVs("default").value);
    GetCSVsPayloadIsTheSortedArrangement(api, "default", p);
  }

  /** A throwing getOperators: `requestOperators`, then `errorOperators`
      carrying the thrown error. */
  lemma GetOperatorsErrorScenario(api: Api, e: Error)
    requires api.getOperators("default") == Err(e)
    ensures GetOperators(api, "default") ==
      [Signal(RequestOperators, NoPayload), Signal(ErrorOperators, ErrorPayload(e))]
  {
  }

  /** getOperator("default", "foo"): the operator as fetched, or the thrown
      error under `errorOperators`. */
  lemma GetOperatorScenarios(api: Api, op: Operator, e: Error)
    ensures api.getOperator("default", "foo") == Ok(op) ==>
      GetOperator(api, "default", "foo") ==
        [Signal(RequestOperator, NoPayload), Signal(ReceiveOperator, OperatorItem(op))]
    ensures api.getOperator("default", "foo") == Err(e) ==>
      GetOperator(api, "default", "foo") ==
        [Signal(RequestOperator, NoPayload), Signal(ErrorOperators, ErrorPayload(e))]
  {
  }

  /** A throwing getCSVs: `requestCSVs`, then `errorCSVs` carrying the
      thrown error. */
  lemma GetCSVsErrorScenario(api: Api, e: Error)
    requires api.getCSVs("default") == Err(e)
    ensures GetCSVs(api, "default").signals ==
      [Signal(RequestCSVs, NoPayload), Signal(ErrorCSVs, ErrorPayload(e))]
  {
  }

  /** getCSV("default", "foo"): the CSV as fetched, or the thrown error under
      `errorCSVs`. */
  lemma GetCSVScenarios(api: Api, csv: CSV, e: Error)
    ensures api.getCSV("default", "foo") == Ok(Some(csv)) ==>
      GetCSV(api, "default", "foo").signals ==
        [Signal(RequestCSV, NoPayload), Signal(ReceiveCSV, CSVItem(csv))]
    ensures api.getCSV("default", "foo") == Err(e) ==>
      GetCSV(api, "default", "foo").signals ==
        [Signal(RequestCSV, NoPayload), Signal(ErrorCSVs, ErrorPayload(e))]
  {
  }

  /** createResource("default", "v1", "pods", body): the created resource, or
      the thrown error under `errorResourceCreate`. */
  lemma CreateResourceScenarios(api: Api, body: Resource, created: Resource, e: Error)
    ensures api.createResource("default", "v1", "pods", body) == Ok(created) ==>
      CreateResource(api, "default", "v1", "pods", body) ==
        [Signal(CreatingResource, NoPayload), Signal(ResourceCreated, ResourceItem(created))]
    ensures api.createResource("default", "v1", "pods", body) == Err(e) ==>
      CreateResource(api, "default", "v1", "pods", body) ==
        [Signal(CreatingResource, NoPayload), Signal(ErrorResourceCreate, ErrorPayload(e))]
  {
  }

  /** deleteResource("default", "foos", resource): `resourceDeleted` without a
      payload, or the thrown error under `errorResourceDelete`. */
  lemma DeleteResourceScenarios(api: Api, resource: Resource, e: Error)
    ensures api.deleteResource("default", "foos", resource).Ok? ==>
      DeleteResource(api, "default", "foos", resource) ==
        [Signal(DeletingResource, NoPayload), Signal(ResourceDeleted, NoPayload)]
    ensures api.deleteResource("default", "foos", resource) == Err(e) ==>
      DeleteResource(api, "default", "foos", resource) ==
        [Signal(DeletingResource, NoPayload), Signal(ErrorResourceDelete, ErrorPayload(e))]
  {
  }

  /** With one CSV owning one entry, getResources lists exactly that entry's
      coordinates and announces the listing's `items` unchanged. */
  lemma {:induction false} GetResourcesSingleEntry(api: Api, ns: string, csv: CSV)
    requires api.getCSVs(ns) == Ok([csv])
    requires |csv.owned| == 1
    ensures var t := Resolve(csv.owned[0]);
      GetResources(api, ns) ==
        [Signal(RequestCustomResources, NoPayload),
         Signal(RequestCSVs, NoPayload),
         Signal(ReceiveCSVs, CSVList([csv])),
         match api.listResources(ns, t.groupVersion, t.plural)
         case Ok(listing) => Signal(ReceiveCustomResources, ResourceList(listing.items))
         case Err(e) => Signal(ErrorCustomResource, ErrorPayload(e))]
  {
    var sorted := GetCSVs(api, ns).returned.value;
    assert |sorted| == |multiset(sorted)| == 1;
    assert sorted[0] in multiset([csv]);
    assert sorted == [csv];
    assert OwnedEntries([csv]) == csv.owned by {
      assert [csv][1..] == [];
      assert csv.owned + [] == csv.owned;
    }
    var d := csv.owned[0];
    assert ListAll(api, ns, [d]) == match ListCall(api, ns, d)
      case Ok(listing) => Ok(listing.items)
      case Err(e) => Err(e)
    by {
      assert [d][1..] == [];
      assert ListAll(api, ns, []) == Ok([]);
      if ListCall(api, ns, d).Ok? {
        assert ListCall(api, ns, d).value.items + [] == ListCall(api, ns, d).value.items;
      }
    }
    assert csv.owned == [d];
  }

  /** getResources("default") over the CSV `foo`: the listing is asked for at
      `("default", "kubeapps.com/v1alpha1", "foo")` and its items (or its
      error) close the sequence. */
  lemma GetResourcesScenario(api: Api)
    requires api.getCSVs("default") == Ok([FooCsv()])
    ensures GetResources(api, "default") ==
      [Signal(RequestCustomResources, NoPayload),
       Signal(RequestCSVs, NoPayload),
       Signal(ReceiveCSVs, CSVList([FooCsv()])),
       match api.listResources("default", "kubeapps.com/v1alpha1", "foo")
       case Ok(listing) => Signal(ReceiveCustomResources, ResourceList(listing.items))
       case Err(e) => Signal(ErrorCustomResource, ErrorPayload(e))]
  {
    ResolveFooKubeapps();
    GetResourcesSingleEntry(api, "default", FooCsv());
  }

  /** With the CSV present and owning a single entry of the requested name,
      getResource fetches the instance at that entry's coordinates and
      announces what the fetch returned or threw. */
  lemma GetResourceSingleEntry(api: Api, ns: string, csvName: string, crdName: string, name: string, csv: CSV)
    requires api.getCSV(ns, csvName) == Ok(Some(csv))
    requires |csv.owned| == 1 && csv.owned[0].name == crdName
    ensures var t := Resolve(csv.owned[0]);
      GetResource(api, ns, csvName, crdName, name) ==
        [Signal(RequestCustomResource, NoPayload),
         Signal(RequestCSV, NoPayload),
         Signal(ReceiveCSV, CSVItem(csv)),
         match api.getResource(ns, t.groupVersion, t.plural, name)
         case Ok(res) => Signal(ReceiveCustomResource, ResourceItem(res))
         case Err(e) => Signal(ErrorCustomResource, ErrorPayload(e))]
  {
    var r := GetResource(api, ns, csvName, crdName, name);
    assert r[1..3] == [r[1], r[2]];
  }

  /** With the CSV absent, getResource announces `receiveCSV` without a
      payload and then the not-found message. */
  lemma GetResourceCsvAbsent(api: Api, ns: string, csvName: string, crdName: string, name: string)
    requires api.getCSV(ns, csvName) == Ok(None)
    ensures GetResource(api, ns, csvName, crdName, name) ==
      [Signal(RequestCustomResource, NoPayload),
       Signal(RequestCSV, NoPayload),
       Signal(ReceiveCSV, NoPayload),
       Signal(ErrorCustomResource, ErrorPayload(CsvNotFound(csvName, ns)))]
  {
    var r := GetResource(api, ns, csvName, crdName, name);
    assert r[1..3] == [r[1], r[2]];
  }

  /** With the CSV present but owning no entry of the requested name,
      getResource announces the CSV and then the not-owned message. */
  lemma GetResourceCrdAbsent(api: Api, ns: string, csvName: string, crdName: string, name: string, csv: CSV)
    requires api.getCSV(ns, csvName) == Ok(Some(csv))
    requires forall j :: 0 <= j < |csv.owned| ==> csv.owned[j].name != crdName
    ensures GetResource(api, ns, csvName, crdName, name) ==
      [Signal(RequestCustomResource, NoPayload),
       Signal(RequestCSV, NoPayload),
       Signal(ReceiveCSV, CSVItem(csv)),
       Signal(ErrorCustomResource, ErrorPayload(CrdNotOwned(csvName, crdName)))]
  {
    var r := GetResource(api, ns, csvName, crdName, name);
    assert r[1..3] == [r[1], r[2]];
  }

  /** getResource("default", "foo", "foo.kubeapps.com", "bar") over the CSV
      `foo`: the instance is fetched at
      `("default", "kubeapps.com/v1alpha1", "foo", "bar")`, and its result or
      error closes the sequence. */
  lemma GetResourceScenario(api: Api)
    requires api.getCSV("default", "foo") == Ok(Some(FooCsv()))
    ensures GetResource(api, "default", "foo", "foo.kubeapps.com", "bar") ==
      [Signal(RequestCustomResource, NoPayload),
       Signal(RequestCSV, NoPayload),
       Signal(ReceiveCSV, CSVItem(FooCsv())),
       match api.getResource("default", "kubeapps.com/v1alpha1", "foo", "bar")
       case Ok(res) => Signal(ReceiveCustomResource, ResourceItem(res))
       case Err(e) => Signal(ErrorCustomResource, ErrorPayload(e))]
  {
    ResolveFooKubeapps();
    GetResourceSingleEntry(api, "default", "foo", "foo.kubeapps.com", "bar", FooCsv());
  }

  /** An absent CSV: `receiveCSV` with no payload, then the message
      `CSV foo not found in default`. */
  lemma GetResourceCsvNotFoundScenario(api: Api)
    requires api.getCSV("default", "foo") == Ok(None)
    ensures GetResource(api, "default", "foo", "foo.kubeapps.com", "bar") ==
      [Signal(RequestCustomResource, NoPayload),
       Signal(RequestCSV, NoPayload),
       Signal(ReceiveCSV, NoPayload),
       Signal(ErrorCustomResource, ErrorPayload(Error("CSV foo not found in default")))]
  {
    GetResourceCsvAbsent(api, "default", "foo", "foo.kubeapps.com", "bar");
    CsvFooNotFoundMessage();
  }

  /** The messages of the scenarios, spelled out (apart, as above). */
  lemma CsvFooNotFoundMessage()
    ensures CsvNotFound("foo", "default") == Error("CSV foo not found in default")
  {
  }

  lemma NotFooNotOwnedMessage()
    ensures CrdNotOwned("foo", "not-foo.kubeapps.com") ==
      Error("Not found a valid CRD definition for foo/not-foo.kubeapps.com")
  {
  }

  /** A CRD the CSV does not own: the message
      `Not found a valid CRD definition for foo/not-foo.kubeapps.com`. */
  lemma GetResourceCrdNotOwnedScenario(api: Api)
    requires api.getCSV("default", "foo") == Ok(Some(FooCsv()))
    ensures GetResource(api, "default", "foo", "not-foo.kubeapps.com", "bar") ==
      [Signal(RequestCustomResource, NoPayload),
       Signal(RequestCSV, NoPayload),
       Signal(ReceiveCSV, CSVItem(FooCsv())),
       Signal(ErrorCustomResource, ErrorPayload(Error("Not found a valid CRD definition for foo/not-foo.kubeapps.com")))]
  {
    assert FooCsv().owned[0].name != "not-foo.kubeapps.com";
    GetResourceCrdAbsent(api, "default", "foo", "not-foo.kubeapps.com", "bar", FooCsv());
    NotFooNotOwnedMessage();
  }

  /** When the CSV is absent, or owns no CRD of the requested name, no
      resource fetch shows in the actions: replacing the client's
      `getResource` by anything leaves them unchanged. */
  lemma GetResourceUnresolvedIgnoresFetch(api: Api, f: (string, string, string, string) -> Result<Resource, Error>,
                                          ns: string, csvName: string, crdName: string, name: string)
    requires !CsvFound(api, ns, csvName) ||
             FindOwned(api.getCSV(ns, csvName).value.value.owned, crdName).None?
    ensures GetResource(api.(getResource := f), ns, csvName, crdName, name) == GetResource(api, ns, csvName, crdName, name)
    ensures GetResource(api, ns, csvName, crdName, name)[3].tag == ErrorCustomResource
  {
    var api' := api.(getResource := f);
    assert api'.getCSV == api.getCSV;
    assert GetCSV(api', ns, csvName) == GetCSV(api, ns, csvName);
  }

  /** A failing getCSVs ends getResources with the same error, whatever the
      list calls would have answered. */
  lemma GetResourcesFailedCsvsIgnoresListing(api: Api, f: (string, string, string) -> Result<ResourceListing, Error>, ns: string)
    requires api.getCSVs(ns).Err?
    ensures GetResources(api.(listResources := f), ns) == GetResources(api, ns)
    ensures GetResources(api, ns)[1..] ==
      [Signal(RequestCSVs, NoPayload),
       Signal(ErrorCSVs, ErrorPayload(api.getCSVs(ns).error)),
       Signal(ErrorCustomResource, ErrorPayload(api.getCSVs(ns).error))]
  {
    var api' := api.(listResources := f);
    assert GetCSVs(api', ns) == GetCSVs(api, ns);
  }

  /** getResources opens once and closes once, with getCSVs' own pending
      and terminal actions exactly once in between. */
  lemma GetResourcesOpensOnceAndClosesOnce(api: Api, ns: string)
    ensures var r := GetResources(api, ns);
      && Count(r, RequestCustomResources) == 1
      && Count(r, ReceiveCustomResources) + Count(r, ErrorCustomResource) == 1
      && Count(r, RequestCSVs) == 1
      && Count(r, ReceiveCSVs) + Count(r, ErrorCSVs) == 1
  {
    assert TagsDisjoint(Op.getResources, Op.getCSVs);
    NestedSessionOnePendingOneTerminal(Op.getResources, Op.getCSVs, GetResources(api, ns));
  }

  /** getResource opens once and closes once, with getCSV's own pending and
      terminal actions exactly once in between. */
  lemma GetResourceOpensOnceAndClosesOnce(api: Api, ns: string, csvName: string, crdName: string, name: string)
    ensures var r := GetResource(api, ns, csvName, crdName, name);
      && Count(r, RequestCustomResource) == 1
      && Count(r, ReceiveCustomResource) + Count(r, ErrorCustomResource) == 1
      && Count(r, RequestCSV) == 1
      && Count(r, ReceiveCSV) + Count(r, ErrorCSVs) == 1
  {
    assert TagsDisjoint(Op.getResource, Op.getCSV);
    NestedSessionOnePendingOneTerminal(Op.getResource, Op.getCSV, GetResource(api, ns, csvName, crdName, name));
  }
}
