/** The lookup rules of cli.py: resolving a service path from a listing,
    finding a layer by id or name, ordering the layer listing, and choosing
    which command-line arguments become query parameters. The listings the
    client fetches are parameters here. */
module Lookup {
  import opened Values
  import opened Text

  /** One entry of a `services` listing: its `name` and its `type`. */
  datatype ServiceEntry = ServiceEntry(name: string, kind: string)

  /** A layer of a service, as far as the lookups see it. */
  datatype LayerEntry = LayerEntry(id: int, name: string)

  /** The position of the first element satisfying `p`, or `|xs|` when none does. */
  function FirstIndex<T>(xs: seq<T>, p: T -> bool): (i: nat)
    ensures i <= |xs|
    ensures i < |xs| ==> p(xs[i])
    ensures forall j :: 0 <= j < i ==> !p(xs[j])
  {
    if |xs| == 0 then 0 else if p(xs[0]) then 0 else 1 + FirstIndex(xs[1..], p)
  }

  // --------------------------------------------------------- service path

  /** A folder name counts only when it is truthy: neither None nor empty. */
  predicate InFolder(folder: Option<string>)
  {
    folder.Some? && folder.value != ""
  }

  /** The listed name as compared with the requested one: unchanged at root,
      with every occurrence of `folder/` removed inside a folder. */
  function ComparedName(folder: Option<string>, listed: string): string
  {
    if InFolder(folder) then ReplaceAll(listed, folder.value + "/", "") else listed
  }

  /** `get_service_path`, given the listing the client returned for the folder
      (or for the root): the path of the first matching service, or the
      ValueError's message. */
  function ServicePath(folder: Option<string>, service: string, listing: seq<ServiceEntry>): (r: Result<string, string>)
    ensures r.Ok? <==> exists i :: 0 <= i < |listing| && ComparedName(folder, listing[i].name) == service
    ensures r.Ok? ==>
              var i := FirstIndex(listing, (s: ServiceEntry) => ComparedName(folder, s.name) == service);
              i < |listing| &&
              r.value == (if InFolder(folder) then folder.value + "/" else "") + service + "/" + listing[i].kind
    ensures r.Err? ==>
              r.error == "Service " + service + " not found" + (if InFolder(folder) then " in folder " + folder.value else "")
  {
    var i := FirstIndex(listing, (s: ServiceEntry) => ComparedName(folder, s.name) == service);
    if i < |listing| then
      Ok((if InFolder(folder) then folder.value + "/" else "") + service + "/" + listing[i].kind)
    else
      Err("Service " + service + " not found" + (if InFolder(folder) then " in folder " + folder.value else ""))
  }

  /** Inside a folder, a listed `folder/service` name matches `service` when the
      service name itself holds no further `folder/`. */
  lemma FolderPrefixedNameMatches(folder: string, service: string, kind: string, listing: seq<ServiceEntry>)
    requires folder != ""
    requires forall i: nat :: !OccursAt(service, folder + "/", i)
    requires forall j :: 0 <= j < |listing| ==> ComparedName(Some(folder), listing[j].name) != service
    ensures ServicePath(Some(folder), service, listing + [ServiceEntry(folder + "/" + service, kind)])
            == Ok(folder + "/" + service + "/" + kind)
  {
    var entry := ServiceEntry(folder + "/" + service, kind);
    var all := listing + [entry];
    StripLeading(folder + "/", service);
    assert ComparedName(Some(folder), entry.name) == service;
    assert all[|listing|] == entry;
    var p := (s: ServiceEntry) => ComparedName(Some(folder), s.name) == service;
    var i := FirstIndex(all, p);
    assert forall j :: 0 <= j < |listing| ==> all[j] == listing[j];
    assert i == |listing|;
  }

  // --------------------------------------------------------- layer lookup

  /** `find_layer_in_service`: by id when one is given, otherwise by name. */
  function FindLayer(layers: seq<LayerEntry>, id: Option<int>, name: Option<string>): (r: Option<LayerEntry>)
    ensures id.Some? ==> (r.Some? <==> exists i :: 0 <= i < |layers| && layers[i].id == id.value)
    ensures id.None? ==> (r.Some? <==> name.Some? && exists i :: 0 <= i < |layers| && layers[i].name == name.value)
    ensures r.Some? ==>
              exists i :: 0 <= i < |layers| && layers[i] == r.value &&
                if id.Some? then
                  r.value.id == id.value && forall j :: 0 <= j < i ==> layers[j].id != id.value
                else
                  name.Some? && r.value.name == name.value && forall j :: 0 <= j < i ==> layers[j].name != name.value
  {
    var i :=
      if id.Some? then FirstIndex(layers, (l: LayerEntry) => l.id == id.value)
      else FirstIndex(layers, (l: LayerEntry) => name.Some? && l.name == name.value);
    if i < |layers| then Some(layers[i]) else None
  }

  // ------------------------------------------------------- layer listing

  predicate SortedById(s: seq<LayerEntry>)
  {
    forall i, j :: 0 <= i < j < |s| ==> s[i].id <= s[j].id
  }

  /** Inserts before the first entry whose id is not smaller, so equal ids keep their order. */
  function InsertById(x: LayerEntry, s: seq<LayerEntry>): (r: seq<LayerEntry>)
    requires SortedById(s)
    ensures SortedById(r)
    ensures multiset(r) == multiset(s) + multiset{x}
  {
    if |s| == 0 || x.id <= s[0].id then [x] + s
    else
      var rest := InsertById(x, s[1..]);
      assert multiset(s) == multiset{s[0]} + multiset(s[1..]) by { assert s == [s[0]] + s[1..]; }
      assert forall k :: 0 <= k < |rest| ==> s[0].id <= rest[k].id by {
        forall k | 0 <= k < |rest|
          ensures s[0].id <= rest[k].id
        {
          assert rest[k] in multiset(rest);
        }
      }
      [s[0]] + rest
  }

  /** `sorted(layers, key=id)`: an ascending permutation of the listing. */
  function SortById(xs: seq<LayerEntry>): (r: seq<LayerEntry>)
    ensures SortedById(r)
    ensures multiset(r) == multiset(xs)
  {
    if |xs| == 0 then []
    else
      assert xs == [xs[0]] + xs[1..];
      InsertById(xs[0], SortById(xs[1..]))
  }

  /** The entries with a given id, in order. */
  function WithId(s: seq<LayerEntry>, id: int): seq<LayerEntry>
  {
    if |s| == 0 then [] else (if s[0].id == id then [s[0]] else []) + WithId(s[1..], id)
  }

  lemma {:induction false} InsertByIdStable(x: LayerEntry, s: seq<LayerEntry>, id: int)
    requires SortedById(s)
    ensures WithId(InsertById(x, s), id) == (if x.id == id then [x] else []) + WithId(s, id)
  {
    if |s| == 0 || x.id <= s[0].id {
      assert ([x] + s)[1..] == s;
    } else {
      InsertByIdStable(x, s[1..], id);
      var rest := InsertById(x, s[1..]);
      assert ([s[0]] + rest)[1..] == rest;
    }
  }

  /** The sort is stable: entries that share an id keep their listing order. */
  lemma {:induction false} SortByIdStable(xs: seq<LayerEntry>, id: int)
    ensures WithId(SortById(xs), id) == WithId(xs, id)
  {
    if |xs| > 0 {
      SortByIdStable(xs[1..], id);
      InsertByIdStable(xs[0], SortById(xs[1..]), id);
    }
  }

  // ------------------------------------------------------ query parameters

  /** The arguments that identify the layer or the output, never sent to the server. */
  const NotQueryArgs: set<string> := {"command", "url", "folder", "service", "id", "name", "output"}

  /** The comprehension at cli.py:343: every argument that is set and is not an identifying one, in order. */
  function QueryParams(args: seq<(string, Option<Param>)>): (r: seq<(string, Param)>)
    ensures forall i :: 0 <= i < |args| && args[i].1.Some? && args[i].0 !in NotQueryArgs ==>
              (args[i].0, args[i].1.value) in r
    ensures forall j :: 0 <= j < |r| ==> r[j].0 !in NotQueryArgs && (r[j].0, Some(r[j].1)) in args
  {
    if |args| == 0 then []
    else
      var rest := QueryParams(args[1..]);
      assert forall i :: 1 <= i < |args| ==> args[i] == args[1..][i - 1];
      if args[0].1.Some? && args[0].0 !in NotQueryArgs then [(args[0].0, args[0].1.value)] + rest else rest
  }
}
