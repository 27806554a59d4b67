/**
 The effects of the resource's lifecycle operations on the local resource data
 (calico/resource_ippool.go: resourceIPPoolExists, resourceIPPoolRead,
 resourceIPPoolCreate, resourceIPPoolUpdate and resourceIPPoolDelete).

 Every remote interaction is an `Attempt`: first the provider builds its API
 client (GetCalicoConfiguration), then, if that succeeded, it issues one call
 to the pool API. Both answers are inputs to the model; the model proves only
 what the adapter does with them.
 */
module Lifecycle {
  import opened Wrappers
  import opened IPPool

  /** The errors the adapter forwards; none is produced by the adapter itself. */
  datatype Error =
    | ClientConfig(message: string)   // building the API client failed
    | NotFound(poolName: string)      // the pool API has no pool of that name
    | ApiFailure(message: string)     // any other failure of the pool API

  /** One remote interaction: the client set-up outcome and the pool API's reply. */
  datatype Attempt<T> = Attempt(client: Option<Error>, reply: Result<T, Error>)

  /** The calls the adapter makes to the pool API. */
  datatype Request =
    | GetPool(name: string)
    | CreatePool(pool: Pool)
    | UpdatePool(pool: Pool)
    | DeletePool(name: string)

  /** The local resource data: its identifier ("" means "no such resource") and its configuration. */
  datatype ResourceData = ResourceData(id: string, config: Config)

  /** What an operation leaves behind: the resource data, the error diagnostics, the calls made. */
  datatype Step = Step(data: ResourceData, diags: seq<Error>, requests: seq<Request>)

  /** The answer of the existence check: Go's `(bool, error)` pair plus the calls made. */
  datatype Existence = Existence(found: bool, err: Option<Error>, requests: seq<Request>)

  /** The pool name the operations use: `metadata.0.name`. */
  function NameOf(d: ResourceData): string
  {
    FirstMetadata(d.config).name
  }

  /** The fetch requests of one attempt: none when the client could not be built. */
  function Fetches(d: ResourceData, a: Attempt<Pool>): seq<Request>
  {
    if a.client.None? then [GetPool(NameOf(d))] else []
  }

  /** The configuration record written after a successful fetch of `p` (setResourceAttributes). */
  function Refreshed(p: Pool): ResourceData
  {
    ResourceData(p.name, FlattenPool(p))
  }

  /** The existence check (resourceIPPoolExists). */
  function Exists(d: ResourceData, a: Attempt<Pool>): (r: Existence)
    ensures r.found <==> a.client.None? && a.reply.Success?
    ensures r.found ==> r.err.None?
    ensures !r.found ==> r.err.Some?
    ensures r.err.Some? ==> r.err == a.client || (a.client.None? && r.err.value == a.reply.error)
    ensures r.requests == Fetches(d, a)
  {
    if a.client.Some? then Existence(false, a.client, [])
    else
      match a.reply
      case Success(_) => Existence(true, None, [GetPool(NameOf(d))])
      case Failure(e) => Existence(false, Some(e), [GetPool(NameOf(d))])
  }

  /**
   The refresh (resourceIPPoolRead): an existence check, then a second fetch
   whose result overwrites the resource data. `check` answers the existence
   check and `fetch` the second fetch.
   */
  function Read(d: ResourceData, check: Attempt<Pool>, fetch: Attempt<Pool>): (r: Step)
    ensures r.diags == [] <==>
      check.client.None? && check.reply.Success? && fetch.client.None? && fetch.reply.Success?
    ensures r.diags == [] ==> r.data == Refreshed(fetch.reply.value)
    ensures r.diags != [] ==> r.data == d && |r.diags| == 1
    ensures r.diags != [] ==> r.diags == [
      if Exists(d, check).err.Some? then Exists(d, check).err.value
      else if fetch.client.Some? then fetch.client.value
      else fetch.reply.error]
    ensures r.requests == Fetches(d, check) + (if Exists(d, check).found then Fetches(d, fetch) else [])
  {
    var e := Exists(d, check);
    if e.err.Some? then Step(d, [e.err.value], e.requests)
    else if !e.found then Step(d.(id := ""), [], e.requests)
    else if fetch.client.Some? then Step(d, [fetch.client.value], e.requests)
    else
      match fetch.reply
      case Failure(err) => Step(d, [err], e.requests + [GetPool(NameOf(d))])
      case Success(p) => Step(Refreshed(p), [], e.requests + [GetPool(NameOf(d))])
  }

  /** The creation (resourceIPPoolCreate): submit the expanded pool and adopt its name as the id. */
  function Create(d: ResourceData, a: Attempt<Pool>): (r: Step)
    requires Expandable(d.config)
    ensures r.diags == [] <==> a.client.None? && a.reply.Success?
    ensures r.diags == [] ==> r.data.id == NameOf(d)
    ensures r.diags != [] ==> r.data.id == d.id && |r.diags| == 1
    ensures r.diags != [] ==> r.diags == [if a.client.Some? then a.client.value else a.reply.error]
    ensures r.data.config == d.config
    ensures r.requests == (if a.client.None? then [CreatePool(ExpandPool(d.config))] else [])
  {
    if a.client.Some? then Step(d, [a.client.value], [])
    else
      var pool := ExpandPool(d.config);
      match a.reply
      case Failure(err) => Step(d, [err], [CreatePool(pool)])
      case Success(_) => Step(d.(id := pool.name), [], [CreatePool(pool)])
  }

  /** The update (resourceIPPoolUpdate): submit the whole expanded pool and re-adopt its name as the id. */
  function Update(d: ResourceData, a: Attempt<Pool>): (r: Step)
    requires Expandable(d.config)
    ensures r.diags == [] <==> a.client.None? && a.reply.Success?
    ensures r.diags == [] ==> r.data.id == NameOf(d)
    ensures r.diags != [] ==> r.data.id == d.id && |r.diags| == 1
    ensures r.diags != [] ==> r.diags == [if a.client.Some? then a.client.value else a.reply.error]
    ensures r.data.config == d.config
    ensures r.requests == (if a.client.None? then [UpdatePool(ExpandPool(d.config))] else [])
  {
    if a.client.Some? then Step(d, [a.client.value], [])
    else
      var pool := ExpandPool(d.config);
      match a.reply
      case Failure(err) => Step(d, [err], [UpdatePool(pool)])
      case Success(_) => Step(d.(id := pool.name), [], [UpdatePool(pool)])
  }

  /** The deletion (resourceIPPoolDelete): one delete call by name, no existence pre-check. */
  function Delete(d: ResourceData, a: Attempt<()>): (r: Step)
    ensures r.data == d
    ensures r.diags == [] <==> a.client.None? && a.reply.Success?
    ensures a.client.Some? ==> r.diags == [a.client.value]
    ensures a.client.None? && a.reply.Failure? ==> r.diags == [a.reply.error]
    ensures r.requests == (if a.client.None? then [DeletePool(NameOf(d))] else [])
  {
    if a.client.Some? then Step(d, [a.client.value], [])
    else
      match a.reply
      case Failure(err) => Step(d, [err], [DeletePool(NameOf(d))])
      case Success(_) => Step(d, [], [DeletePool(NameOf(d))])
  }

  /**
   The existence check never answers "absent" without an error, so Read never
   takes its branch that clears the id: the id changes only on a successful
   fetch, and then to the fetched pool's name.
   */
  lemma ReadNeverClearsId(d: ResourceData, check: Attempt<Pool>, fetch: Attempt<Pool>)
    ensures !Exists(d, check).found ==> Exists(d, check).err.Some?
    ensures Read(d, check, fetch).data.id == d.id
         || (fetch.reply.Success? && Read(d, check, fetch).data.id == fetch.reply.value.name)
  {
  }

  /**
   A pool deleted outside the adapter: Read reports the pool API's "not found"
   as an error diagnostic and keeps the stale id, instead of clearing it.
   */
  lemma ReadOfDeletedPoolIsError(d: ResourceData, fetch: Attempt<Pool>)
    requires d.id != ""
    ensures var r := Read(d, Attempt(None, Failure(NotFound(NameOf(d)))), fetch);
      r.diags == [NotFound(NameOf(d))] && r.data.id == d.id && r.data.id != ""
  {
  }

  /** The existence check as evidently intended: "not found" means absent, without an error. */
  function ExistsDetectingNotFound(d: ResourceData, a: Attempt<Pool>): (r: Existence)
    ensures r.found <==> a.client.None? && a.reply.Success?
    ensures r.err.None? <==> a.client.None? && (a.reply.Success? || a.reply.error.NotFound?)
    ensures r.err.Some? ==> r.err == a.client || (a.client.None? && r.err.value == a.reply.error)
    ensures r.requests == Fetches(d, a)
  {
    if a.client.Some? then Existence(false, a.client, [])
    else
      match a.reply
      case Success(_) => Existence(true, None, [GetPool(NameOf(d))])
      case Failure(e) =>
        if e.NotFound? then Existence(false, None, [GetPool(NameOf(d))])
        else Existence(false, Some(e), [GetPool(NameOf(d))])
  }

  /** Read built on the intended existence check; otherwise the same steps as `Read`. */
  function ReadDetectingDeletion(d: ResourceData, check: Attempt<Pool>, fetch: Attempt<Pool>): (r: Step)
    ensures r.diags == [] ==> r.data.id == "" || fetch.reply.Success?
  {
    var e := ExistsDetectingNotFound(d, check);
    if e.err.Some? then Step(d, [e.err.value], e.requests)
    else if !e.found then Step(d.(id := ""), [], e.requests)
    else if fetch.client.Some? then Step(d, [fetch.client.value], e.requests)
    else
      match fetch.reply
      case Failure(err) => Step(d, [err], e.requests + [GetPool(NameOf(d))])
      case Success(p) => Step(Refreshed(p), [], e.requests + [GetPool(NameOf(d))])
  }

  /**
   With the intended check, a pool the API reports as not found clears the
   local id and yields no diagnostics, and no second fetch is made.
   */
  lemma ReadDetectingDeletionClearsId(d: ResourceData, n: string, fetch: Attempt<Pool>)
    ensures var r := ReadDetectingDeletion(d, Attempt(None, Failure(NotFound(n))), fetch);
      r.data == d.(id := "") && r.diags == [] && r.requests == [GetPool(NameOf(d))]
  {
  }

  /** Apart from a "not found" answer to the existence check, the corrected Read behaves as `Read`. */
  lemma ReadDetectingDeletionAgrees(d: ResourceData, check: Attempt<Pool>, fetch: Attempt<Pool>)
    requires !(check.client.None? && check.reply.Failure? && check.reply.error.NotFound?)
    ensures ReadDetectingDeletion(d, check, fetch) == Read(d, check, fetch)
  {
  }

  /**
   A successful Read keeps nothing of the prior local state: two resource
   data that fetch the same pool end up identical.
   */
  lemma ReadForgetsLocalState(d1: ResourceData, d2: ResourceData, check: Attempt<Pool>, fetch: Attempt<Pool>)
    requires Read(d1, check, fetch).diags == []
    ensures Read(d2, check, fetch).diags == []
    ensures Read(d1, check, fetch).data == Read(d2, check, fetch).data
  {
  }

  /** Reading again against an unchanged pool changes nothing: a refresh is idempotent. */
  lemma ReadIdempotent(d: ResourceData, check: Attempt<Pool>, fetch: Attempt<Pool>)
    requires Read(d, check, fetch).diags == []
    ensures Read(Read(d, check, fetch).data, check, fetch).data == Read(d, check, fetch).data
  {
    ReadForgetsLocalState(d, Read(d, check, fetch).data, check, fetch);
  }

  /** The record `c` with `resource_version` set to `rv` in its (single) metadata block. */
  function WithResourceVersion(c: Config, rv: string): Config
    requires |c.metadata| == 1
  {
    c.(metadata := [c.metadata[0].(resourceVersion := rv)])
  }

  /**
   Create followed by Read: if the pool API stores the submitted pool and
   only assigns it a resource version, the refreshed record is the submitted
   canonical record with that version, the id is the submitted name, and
   both fetches of the refresh ask for the name the pool was created under.
   */
  lemma CreateThenRead(d: ResourceData, create: Attempt<Pool>, check: Attempt<Pool>, rv: string)
    requires Canonical(d.config)
    requires create.client.None? && create.reply.Success?
    requires check.client.None? && check.reply.Success?
    ensures var created := Create(d, create).data;
      var stored := ExpandPool(d.config).(resourceVersion := rv);
      var r := Read(created, check, Attempt(None, Success(stored)));
      && r.diags == []
      && r.data == ResourceData(NameOf(d), WithResourceVersion(d.config, rv))
      && r.requests == [GetPool(ExpandPool(d.config).name), GetPool(ExpandPool(d.config).name)]
  {
    var c := d.config;
    var stored := ExpandPool(c).(resourceVersion := rv);
    var c' := WithResourceVersion(c, rv);
    assert Canonical(c');
    ExpandThenFlatten(c');
    assert ExpandPool(c') == stored;
  }

  /**
   Update followed by Read: if the pool API stores the submitted replacement
   and only assigns it a new resource version, the refreshed record is the
   submitted canonical record with that version, and both fetches of the
   refresh ask for the name the pool was submitted under.
   */
  lemma UpdateThenRead(d: ResourceData, update: Attempt<Pool>, check: Attempt<Pool>, rv: string)
    requires Canonical(d.config)
    requires update.client.None? && update.reply.Success?
    requires check.client.None? && check.reply.Success?
    ensures var updated := Update(d, update).data;
      var stored := ExpandPool(d.config).(resourceVersion := rv);
      var r := Read(updated, check, Attempt(None, Success(stored)));
      && r.diags == []
      && r.data == ResourceData(NameOf(d), WithResourceVersion(d.config, rv))
      && r.requests == [GetPool(ExpandPool(d.config).name), GetPool(ExpandPool(d.config).name)]
  {
    var c := d.config;
    var stored := ExpandPool(c).(resourceVersion := rv);
    var c' := WithResourceVersion(c, rv);
    assert Canonical(c');
    ExpandThenFlatten(c');
    assert ExpandPool(c') == stored;
  }
}
