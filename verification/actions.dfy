/** The operator actions: each public action announces its intent, awaits the
    operator API client, and announces the result or the thrown error.

    The API client is a record of pure functions `Api`: what a call returns
    for given arguments is `Ok(value)`, what it throws is `Err(error)`. An
    action's output is the sequence of actions it dispatches, in order. An
    action whose result another action awaits also yields that result
    (`Dispatched`), as the thunks return it to their caller. */
module OperatorActions {
  import opened Wrappers
  import opened Kube
  import opened Crd
  import opened Ordering
  import opened Signals

  /** The operator API client the actions call. */
  datatype Api = Api(
    isOLMInstalled: () -> bool,
    getOperators: string -> Result<seq<Operator>, Error>,
    getOperator: (string, string) -> Result<Operator, Error>,
    getCSVs: string -> Result<seq<CSV>, Error>,
    getCSV: (string, string) -> Result<Option<CSV>, Error>,
    createResource: (string, string, string, Resource) -> Result<Resource, Error>,
    listResources: (string, string, string) -> Result<ResourceListing, Error>,
    getResource: (string, string, string, string) -> Result<Resource, Error>,
    deleteResource: (string, string, Resource) -> Result<(), Error>)

  /** The actions an action dispatched, and the value it returns to an
      action that awaits it. */
  datatype Dispatched<T> = Dispatched(signals: seq<Signal>, returned: T)

  function Pending(t: Tag): Signal { Signal(t, NoPayload) }

  /** checkOLMInstalled: `checkingOLM`, then `OLMInstalled` or
      `OLMNotInstalled` depending on the probe; neither carries a payload. */
  function CheckOLMInstalled(api: Api): (r: seq<Signal>)
    ensures Session(Op.checkOLMInstalled, r)
    ensures r[1].payload == NoPayload
    ensures r[1].tag == OLMInstalled <==> api.isOLMInstalled()
  {
    [Pending(CheckingOLM), Signal(if api.isOLMInstalled() then OLMInstalled else OLMNotInstalled, NoPayload)]
  }

  /** getOperators(namespace): the operators, sorted by name. */
  function GetOperators(api: Api, ns: string): (r: seq<Signal>)
    ensures Session(Op.getOperators, r)
    ensures r[1].tag == ReceiveOperators <==> api.getOperators(ns).Ok?
    ensures api.getOperators(ns).Ok? ==>
      && r[1].payload.OperatorList?
      && SortedBy(r[1].payload.operators, OperatorName)
      && multiset(r[1].payload.operators) == multiset(api.getOperators(ns).value)
    ensures api.getOperators(ns).Err? ==> r[1].payload == ErrorPayload(api.getOperators(ns).error)
  {
    [Pending(RequestOperators),
     match api.getOperators(ns)
     case Ok(ops) => Signal(ReceiveOperators, OperatorList(SortBy(ops, OperatorName)))
     case Err(e) => Signal(ErrorOperators, ErrorPayload(e))]
  }

  /** getOperator(namespace, name): the operator as fetched, unsorted; a
      failure reuses `errorOperators`. */
  function GetOperator(api: Api, ns: string, name: string): (r: seq<Signal>)
    ensures Session(Op.getOperator, r)
    ensures api.getOperator(ns, name).Ok? ==>
      r[1] == Signal(ReceiveOperator, OperatorItem(api.getOperator(ns, name).value))
    ensures api.getOperator(ns, name).Err? ==>
      r[1] == Signal(ErrorOperators, ErrorPayload(api.getOperator(ns, name).error))
  {
    [Pending(RequestOperator),
     match api.getOperator(ns, name)
     case Ok(op) => Signal(ReceiveOperator, OperatorItem(op))
     case Err(e) => Signal(ErrorOperators, ErrorPayload(e))]
  }

  /** getCSVs(namespace): the ClusterServiceVersions, sorted by name; the
      sorted list is also what the action returns to its caller. */
  function GetCSVs(api: Api, ns: string): (d: Dispatched<Result<seq<CSV>, Error>>)
    ensures Session(Op.getCSVs, d.signals)
    ensures d.returned.Ok? <==> api.getCSVs(ns).Ok?
    ensures d.returned.Ok? ==>
      && SortedBy(d.returned.value, CSVName)
      && multiset(d.returned.value) == multiset(api.getCSVs(ns).value)
      && d.signals[1] == Signal(ReceiveCSVs, CSVList(d.returned.value))
    ensures d.returned.Err? ==>
      && d.returned == api.getCSVs(ns)
      && d.signals[1] == Signal(ErrorCSVs, ErrorPayload(d.returned.error))
  {
    match api.getCSVs(ns)
    case Ok(csvs) =>
      var sorted := SortBy(csvs, CSVName);
      Dispatched([Pending(RequestCSVs), Signal(ReceiveCSVs, CSVList(sorted))], Ok(sorted))
    case Err(e) =>
      Dispatched([Pending(RequestCSVs), Signal(ErrorCSVs, ErrorPayload(e))], Err(e))
  }

  /** getCSV(namespace, name): the ClusterServiceVersion as fetched. An
      absent one is announced by `receiveCSV` with no payload; a failure
      reuses `errorCSVs`. The caller gets the CSV, or nothing. */
  function GetCSV(api: Api, ns: string, name: string): (d: Dispatched<Option<CSV>>)
    ensures Session(Op.getCSV, d.signals)
    ensures api.getCSV(ns, name).Ok? ==> d.returned == api.getCSV(ns, name).value
    ensures api.getCSV(ns, name).Ok? && d.returned.Some? ==>
      d.signals[1] == Signal(ReceiveCSV, CSVItem(d.returned.value))
    ensures api.getCSV(ns, name).Ok? && d.returned.None? ==>
      d.signals[1] == Signal(ReceiveCSV, NoPayload)
    ensures api.getCSV(ns, name).Err? ==>
      && d.returned.None?
      && d.signals[1] == Signal(ErrorCSVs, ErrorPayload(api.getCSV(ns, name).error))
  {
    match api.getCSV(ns, name)
    case Ok(Some(csv)) => Dispatched([Pending(RequestCSV), Signal(ReceiveCSV, CSVItem(csv))], Some(csv))
    case Ok(None) => Dispatched([Pending(RequestCSV), Signal(ReceiveCSV, NoPayload)], None)
    case Err(e) => Dispatched([Pending(RequestCSV), Signal(ErrorCSVs, ErrorPayload(e))], None)
  }

  /** createResource(namespace, apiVersion, resource, body). */
  function CreateResource(api: Api, ns: string, apiVersion: string, plural: string, body: Resource): (r: seq<Signal>)
    ensures Session(Op.createResource, r)
    ensures api.createResource(ns, apiVersion, plural, body).Ok? ==>
      r[1] == Signal(ResourceCreated, ResourceItem(api.createResource(ns, apiVersion, plural, body).value))
    ensures api.createResource(ns, apiVersion, plural, body).Err? ==>
      r[1] == Signal(ErrorResourceCreate, ErrorPayload(api.createResource(ns, apiVersion, plural, body).error))
  {
    [Pending(CreatingResource),
     match api.createResource(ns, apiVersion, plural, body)
     case Ok(res) => Signal(ResourceCreated, ResourceItem(res))
     case Err(e) => Signal(ErrorResourceCreate, ErrorPayload(e))]
  }

  /** deleteResource(namespace, plural, resource): `resourceDeleted` carries
      no payload. */
  function DeleteResource(api: Api, ns: string, plural: string, resource: Resource): (r: seq<Signal>)
    ensures Session(Op.deleteResource, r)
    ensures r[1].tag == ResourceDeleted <==> api.deleteResource(ns, plural, resource).Ok?
    ensures api.deleteResource(ns, plural, resource).Ok? ==> r[1].payload == NoPayload
    ensures api.deleteResource(ns, plural, resource).Err? ==>
      r[1].payload == ErrorPayload(api.deleteResource(ns, plural, resource).error)
  {
    [Pending(DeletingResource),
     match api.deleteResource(ns, plural, resource)
     case Ok(_) => Signal(ResourceDeleted, NoPayload)
     case Err(e) => Signal(ErrorResourceDelete, ErrorPayload(e))]
  }

  /** Every owned CRD entry of every CSV, in list order. */
  function OwnedEntries(csvs: seq<CSV>): seq<CrdDescription> {
    if |csvs| == 0 then [] else csvs[0].owned + OwnedEntries(csvs[1..])
  }

  /** An entry is among the owned entries exactly when some CSV owns it. */
  lemma {:induction false} OwnedEntriesMember(csvs: seq<CSV>, d: CrdDescription)
    ensures d in OwnedEntries(csvs) <==> exists c :: c in csvs && d in c.owned
  {
    if |csvs| > 0 {
      OwnedEntriesMember(csvs[1..], d);
      assert forall c :: c in csvs <==> c == csvs[0] || c in csvs[1..] by {
        assert csvs == [csvs[0]] + csvs[1..];
      }
    }
  }

  /** The list call for one owned entry: at its resolved group/version, for
      its plural. */
  function ListCall(api: Api, ns: string, d: CrdDescription): Result<ResourceListing, Error> {
    var t := Resolve(d);
    api.listResources(ns, t.groupVersion, t.plural)
  }

  /** Lists the resources of every entry and joins their `items` in order;
      the first failing call, in list order, decides the error. */
  function ListAll(api: Api, ns: string, ds: seq<CrdDescription>): Result<seq<Resource>, Error> {
    if |ds| == 0 then Ok([])
    else
      match ListCall(api, ns, ds[0])
      case Err(e) => Err(e)
      case Ok(listing) =>
        match ListAll(api, ns, ds[1..])
        case Err(e) => Err(e)
        case Ok(rest) => Ok(listing.items + rest)
  }

  /** Listing succeeds exactly when every list call succeeds. */
  lemma {:induction false} ListAllOkIffEveryCallOk(api: Api, ns: string, ds: seq<CrdDescription>)
    ensures ListAll(api, ns, ds).Ok? <==> forall i :: 0 <= i < |ds| ==> ListCall(api, ns, ds[i]).Ok?
  {
    if |ds| > 0 {
      ListAllOkIffEveryCallOk(api, ns, ds[1..]);
      assert forall i :: 1 <= i < |ds| ==> ds[i] == ds[1..][i - 1];
    }
  }

  /** A failed listing carries the error of one of the list calls. */
  lemma {:induction false} ListAllErrorFromCall(api: Api, ns: string, ds: seq<CrdDescription>)
    requires ListAll(api, ns, ds).Err?
    ensures exists i :: 0 <= i < |ds| && ListCall(api, ns, ds[i]) == Err(ListAll(api, ns, ds).error)
  {
    var e := ListAll(api, ns, ds).error;
    if ListCall(api, ns, ds[0]).Err? {
      assert ListCall(api, ns, ds[0]) == Err(e);
    } else {
      ListAllErrorFromCall(api, ns, ds[1..]);
      var k :| 0 <= k < |ds[1..]| && ListCall(api, ns, ds[1..][k]) == Err(e);
      assert ListCall(api, ns, ds[k + 1]) == Err(e);
    }
  }

  /** A successful listing holds exactly the items of all the listings. */
  lemma {:induction false} ListAllMembers(api: Api, ns: string, ds: seq<CrdDescription>, x: Resource)
    requires ListAll(api, ns, ds).Ok?
    ensures x in ListAll(api, ns, ds).value <==>
      exists i :: 0 <= i < |ds| && ListCall(api, ns, ds[i]).Ok? && x in ListCall(api, ns, ds[i]).value.items
  {
    if |ds| > 0 {
      ListAllMembers(api, ns, ds[1..], x);
      if x in ListAll(api, ns, ds).value && x !in ListCall(api, ns, ds[0]).value.items {
        var k :| 0 <= k < |ds[1..]| && ListCall(api, ns, ds[1..][k]).Ok? && x in ListCall(api, ns, ds[1..][k]).value.items;
        assert ds[k + 1] == ds[1..][k];
      }
      if exists i :: 0 <= i < |ds| && ListCall(api, ns, ds[i]).Ok? && x in ListCall(api, ns, ds[i]).value.items {
        var i :| 0 <= i < |ds| && ListCall(api, ns, ds[i]).Ok? && x in ListCall(api, ns, ds[i]).value.items;
        if i > 0 {
          assert ds[i] == ds[1..][i - 1];
        }
      }
    }
  }

  /** The items of every successful listing, counted with multiplicity and
      without regard to order. */
  function ListedItems(api: Api, ns: string, ds: seq<CrdDescription>): multiset<Resource> {
    if |ds| == 0 then multiset{}
    else
      (match ListCall(api, ns, ds[0])
       case Ok(listing) => multiset(listing.items)
       case Err(_) => multiset{})
      + ListedItems(api, ns, ds[1..])
  }

  /** A successful listing holds every item of every listing, each as often
      as the listings hold it, and nothing else. */
  lemma {:induction false} ListAllItemsMultiset(api: Api, ns: string, ds: seq<CrdDescription>)
    requires ListAll(api, ns, ds).Ok?
    ensures multiset(ListAll(api, ns, ds).value) == ListedItems(api, ns, ds)
  {
    if |ds| > 0 {
      ListAllItemsMultiset(api, ns, ds[1..]);
      var items := ListCall(api, ns, ds[0]).value.items;
      var rest := ListAll(api, ns, ds[1..]).value;
      assert ListAll(api, ns, ds).value == items + rest;
      assert multiset(items + rest) == multiset(items) + multiset(rest);
    }
  }

  /** Listing the entries owned by a list of CSVs succeeds exactly when the
      list call of every entry owned by a CSV of the list succeeds; a failure
      carries the error of one of those calls. */
  lemma ResourcesOfCSVsOutcome(api: Api, ns: string, csvs: seq<CSV>, same: seq<CSV>)
    requires forall c :: c in csvs <==> c in same
    ensures ResourcesOfCSVs(api, ns, csvs).tag == ReceiveCustomResources <==>
      forall c, d :: c in same && d in c.owned ==> ListCall(api, ns, d).Ok?
    ensures ResourcesOfCSVs(api, ns, csvs).tag == ErrorCustomResource ==>
      exists c, d :: c in same && d in c.owned
                     && ListCall(api, ns, d).Err?
                     && ResourcesOfCSVs(api, ns, csvs).payload == ErrorPayload(ListCall(api, ns, d).error)
  {
    var ds := OwnedEntries(csvs);
    var r := ListAll(api, ns, ds);
    ListAllOkIffEveryCallOk(api, ns, ds);
    if r.Err? {
      ListAllErrorFromCall(api, ns, ds);
      var i :| 0 <= i < |ds| && ListCall(api, ns, ds[i]) == Err(r.error);
      OwnedEntriesMember(csvs, ds[i]);
      var c :| c in csvs && ds[i] in c.owned;
      assert c in same;
    } else {
      forall c, d | c in same && d in c.owned ensures ListCall(api, ns, d).Ok? {
        OwnedEntriesMember(csvs, d);
        var i :| 0 <= i < |ds| && ds[i] == d;
      }
    }
  }

  /** Permutations of each other have the same members. */
  lemma SameMembers<T>(a: seq<T>, b: seq<T>)
    requires multiset(a) == multiset(b)
    ensures forall x :: x in a <==> x in b
  {
    assert forall x :: x in a <==> x in multiset(a);
    assert forall x :: x in b <==> x in multiset(b);
  }

  /** getResources(namespace): awaits getCSVs, then lists the resources of
      every CRD the CSVs own and announces their items. A failure of getCSVs
      ends the action with the same error. */
  function GetResources(api: Api, ns: string): (r: seq<Signal>)
    ensures NestedSession(Op.getResources, Op.getCSVs, r)
    ensures r[1..3] == GetCSVs(api, ns).signals
    ensures api.getCSVs(ns).Err? ==>
      r[3] == Signal(ErrorCustomResource, ErrorPayload(api.getCSVs(ns).error))
  {
    var inner := GetCSVs(api, ns);
    var last := ResourcesOfListing(api, ns, inner.returned);
    Nest(Op.getResources, Op.getCSVs, inner.signals, last);
    [Pending(RequestCustomResources)] + inner.signals + [last]
  }

  /** The action closing getResources: the error getCSVs threw, or the
      outcome of listing what the CSVs own. */
  function ResourcesOfListing(api: Api, ns: string, csvs: Result<seq<CSV>, Error>): (s: Signal)
    ensures IsTerminal(Op.getResources, s.tag)
    ensures csvs.Err? ==> s == Signal(ErrorCustomResource, ErrorPayload(csvs.error))
  {
    match csvs
    case Err(e) => Signal(ErrorCustomResource, ErrorPayload(e))
    case Ok(found) => ResourcesOfCSVs(api, ns, found)
  }

  /** The action closing getResources once the CSVs are in: the joined
      items of every owned entry's listing, or the first error. */
  function ResourcesOfCSVs(api: Api, ns: string, csvs: seq<CSV>): (s: Signal)
    ensures IsTerminal(Op.getResources, s.tag)
  {
    match ListAll(api, ns, OwnedEntries(csvs))
    case Ok(items) => Signal(ReceiveCustomResources, ResourceList(items))
    case Err(e) => Signal(ErrorCustomResource, ErrorPayload(e))
  }

  /** When getCSVs succeeds, getResources announces the resources exactly when
      the list call of every entry owned by any of the CSVs succeeds;
      otherwise it announces the error one of those calls threw. */
  lemma GetResourcesOutcome(api: Api, ns: string)
    requires api.getCSVs(ns).Ok?
    ensures var r := GetResources(api, ns);
      r[3].tag == ReceiveCustomResources <==>
        forall c, d :: c in api.getCSVs(ns).value && d in c.owned ==> ListCall(api, ns, d).Ok?
    ensures var r := GetResources(api, ns);
      r[3].tag == ErrorCustomResource ==>
        exists c, d :: c in api.getCSVs(ns).value && d in c.owned
                       && ListCall(api, ns, d).Err?
                       && r[3].payload == ErrorPayload(ListCall(api, ns, d).error)
  {
    var csvs := GetCSVs(api, ns).returned.value;
    SameMembers(csvs, api.getCSVs(ns).value);
    ResourcesOfCSVsOutcome(api, ns, csvs, api.getCSVs(ns).value);
    assert GetResources(api, ns)[3] == ResourcesOfCSVs(api, ns, csvs);
  }

  /** When getResources announces resources, a resource is among them exactly
      when it is an item of the listing of some entry owned by one of the CSVs. */
  lemma GetResourcesItems(api: Api, ns: string, x: Resource)
    requires api.getCSVs(ns).Ok?
    requires GetResources(api, ns)[3].tag == ReceiveCustomResources
    ensures x in GetResources(api, ns)[3].payload.resources <==>
      exists c, d :: c in api.getCSVs(ns).value && d in c.owned
                     && ListCall(api, ns, d).Ok? && x in ListCall(api, ns, d).value.items
  {
    var csvs := GetCSVs(api, ns).returned.value;
    SameMembers(csvs, api.getCSVs(ns).value);
    assert GetResources(api, ns)[3] == ResourcesOfCSVs(api, ns, csvs);
    var ds := OwnedEntries(csvs);
    ListAllMembers(api, ns, ds, x);
    if x in GetResources(api, ns)[3].payload.resources {
      var i :| 0 <= i < |ds| && ListCall(api, ns, ds[i]).Ok? && x in ListCall(api, ns, ds[i]).value.items;
      OwnedEntriesMember(csvs, ds[i]);
    }
    if exists c, d :: c in api.getCSVs(ns).value && d in c.owned
                      && ListCall(api, ns, d).Ok? && x in ListCall(api, ns, d).value.items {
      var c, d :| c in api.getCSVs(ns).value && d in c.owned
                  && ListCall(api, ns, d).Ok? && x in ListCall(api, ns, d).value.items;
      OwnedEntriesMember(csvs, d);
    }
  }

  /** When getResources announces resources, they are the items of the
      listings of the entries owned by the announced CSVs, each as often as
      the listings hold it. */
  lemma GetResourcesItemsMultiset(api: Api, ns: string)
    requires api.getCSVs(ns).Ok?
    requires GetResources(api, ns)[3].tag == ReceiveCustomResources
    ensures var r := GetResources(api, ns);
      multiset(r[3].payload.resources) == ListedItems(api, ns, OwnedEntries(r[2].payload.csvs))
  {
    var csvs := GetCSVs(api, ns).returned.value;
    assert GetResources(api, ns)[2].payload.csvs == csvs;
    assert GetResources(api, ns)[3] == ResourcesOfCSVs(api, ns, csvs);
    ListAllItemsMultiset(api, ns, OwnedEntries(csvs));
  }

  /** The error announced when the CSV to read a resource through is absent. */
  function CsvNotFound(csvName: string, ns: string): Error {
    Error("CSV " + csvName + " not found in " + ns)
  }

  /** The error announced when the CSV owns no CRD of the requested name. */
  function CrdNotOwned(csvName: string, crdName: string): Error {
    Error("Not found a valid CRD definition for " + csvName + "/" + crdName)
  }

  /** Whether getCSV yields a CSV to read the resource through. */
  predicate CsvFound(api: Api, ns: string, csvName: string) {
    api.getCSV(ns, csvName).Ok? && api.getCSV(ns, csvName).value.Some?
  }

  /** The action announcing what a resource fetch returned or threw. */
  function FetchedSignal(fetched: Result<Resource, Error>): Signal {
    match fetched
    case Ok(res) => Signal(ReceiveCustomResource, ResourceItem(res))
    case Err(e) => Signal(ErrorCustomResource, ErrorPayload(e))
  }

  /** The action closing getResource once the CSV is in: a not-owned error
      when no owned entry is named `crdName`, else the fetch at the first
      such entry's coordinates. */
  function ResourceOfCSV(api: Api, ns: string, csvName: string, crdName: string, name: string, csv: CSV): (s: Signal)
    ensures IsTerminal(Op.getResource, s.tag)
  {
    match FindOwned(csv.owned, crdName)
    case None => Signal(ErrorCustomResource, ErrorPayload(CrdNotOwned(csvName, crdName)))
    case Some(k) =>
      var t := Resolve(csv.owned[k]);
      FetchedSignal(api.getResource(ns, t.groupVersion, t.plural, name))
  }

  /** The lookup in the owned list picks the first entry of that exact name. */
  lemma ResourceOfCSVOutcome(api: Api, ns: string, csvName: string, crdName: string, name: string, csv: CSV)
    ensures (forall j :: 0 <= j < |csv.owned| ==> csv.owned[j].name != crdName) ==>
      ResourceOfCSV(api, ns, csvName, crdName, name, csv) ==
        Signal(ErrorCustomResource, ErrorPayload(CrdNotOwned(csvName, crdName)))
    ensures forall i :: IsFirstOwned(csv.owned, crdName, i) ==>
      ResourceOfCSV(api, ns, csvName, crdName, name, csv) ==
        FetchedSignal(api.getResource(ns, Resolve(csv.owned[i]).groupVersion, Resolve(csv.owned[i]).plural, name))
  {
    var found := FindOwned(csv.owned, crdName);
    if found.Some? {
      FirstOwnedUnique(csv.owned, crdName, found.value);
    }
  }

  /** getResource(namespace, csvName, crdName, name): awaits getCSV, picks the
      first owned entry named exactly `crdName` and fetches the instance
      `name` at that entry's coordinates. An absent CSV, or a failing getCSV,
      ends the action with the not-found message. */
  function GetResource(api: Api, ns: string, csvName: string, crdName: string, name: string): (r: seq<Signal>)
    ensures NestedSession(Op.getResource, Op.getCSV, r)
    ensures r[1..3] == GetCSV(api, ns, csvName).signals
    ensures !CsvFound(api, ns, csvName) ==>
      r[3] == Signal(ErrorCustomResource, ErrorPayload(CsvNotFound(csvName, ns)))
    ensures CsvFound(api, ns, csvName) ==>
      r[3] == ResourceOfCSV(api, ns, csvName, crdName, name, api.getCSV(ns, csvName).value.value)
  {
    var inner := GetCSV(api, ns, csvName);
    var last :=
      match inner.returned
      case None => Signal(ErrorCustomResource, ErrorPayload(CsvNotFound(csvName, ns)))
      case Some(csv) => ResourceOfCSV(api, ns, csvName, crdName, name, csv);
    Nest(Op.getResource, Op.getCSV, inner.signals, last);
    [Pending(RequestCustomResource)] + inner.signals + [last]
  }

  /** Once getCSV yields a CSV, getResource closes with the not-owned error
      when no owned entry is named `crdName`, and otherwise with what the
      fetch at the first such entry's group/version and plural returned or
      threw. */
  lemma GetResourceOutcome(api: Api, ns: string, csvName: string, crdName: string, name: string)
    requires CsvFound(api, ns, csvName)
    ensures var owned := api.getCSV(ns, csvName).value.value.owned;
      (forall j :: 0 <= j < |owned| ==> owned[j].name != crdName) ==>
        GetResource(api, ns, csvName, crdName, name)[3] ==
          Signal(ErrorCustomResource, ErrorPayload(CrdNotOwned(csvName, crdName)))
    ensures var owned := api.getCSV(ns, csvName).value.value.owned;
      forall i :: IsFirstOwned(owned, crdName, i) ==>
        var fetched := api.getResource(ns, Resolve(owned[i]).groupVersion, Resolve(owned[i]).plural, name);
        && (fetched.Ok? ==>
              GetResource(api, ns, csvName, crdName, name)[3] == Signal(ReceiveCustomResource, ResourceItem(fetched.value)))
        && (fetched.Err? ==>
              GetResource(api, ns, csvName, crdName, name)[3] == Signal(ErrorCustomResource, ErrorPayload(fetched.error)))
  {
    ResourceOfCSVOutcome(api, ns, csvName, crdName, name, api.getCSV(ns, csvName).value.value);
  }
}
