/**
 * Locating the Matter client, as `async_setup_entry` does in both the select
 * and the sensor platform: a first pass over the loaded Matter config entries,
 * then, when that gave no client, a fallback scan of everything stored under
 * `hass.data["matter"]`.
 */
module ClientLookup {
  import opened Wrappers
  import opened PyDict
  import opened Protocol

  /** The lifecycle states of a Home Assistant config entry. */
  datatype EntryState =
    | Loaded | NotLoaded | SetupInProgress | SetupError | SetupRetry
    | MigrationError | UnloadInProgress | FailedUnload

  /**
   * What `hasattr(x, "matter_client")` and `x.matter_client` see: no such
   * attribute, or an attribute holding a client or Python `None`.
   */
  datatype Slot = Missing | Holds(client: Option<Client>)

  /** A Matter config entry: its state, what `runtime_data` exposes, and its id. */
  datatype MatterEntry = MatterEntry(state: EntryState, runtime: Slot, entryId: string)

  /** A value stored in `hass.data["matter"]`: its truthiness and its `matter_client` attribute. */
  datatype Adapter = Adapter(truthy: bool, slot: Slot)

  /**
   * `hass.data.get("matter", {})`: a dict from entry id to adapter (an absent
   * key gives the empty dict), or some other object, which has no `get`.
   */
  datatype Store = Dict(items: PyDict.Dict<string, Adapter>) | Opaque

  /** The result of the search: a client, no client, or an exception raised by the search itself. */
  datatype Resolution = Found(client: Client) | NotFound | Raised

  /** What one step of a scan does: go on, break with a value, or raise. */
  datatype Probe = Skip | Take(value: Option<Client>) | Raise

  /** The body of the first loop for one config entry. */
  function EntryProbe(e: MatterEntry, store: Store): (p: Probe)
    ensures e.state != Loaded ==> p == Skip
    ensures e.state == Loaded && e.runtime.Holds? ==> p == Take(e.runtime.client)
    ensures p.Raise? <==> e.state == Loaded && e.runtime.Missing? && store.Opaque?
    ensures e.state == Loaded && e.runtime.Missing? && store.Dict? ==>
      (p.Take? <==> Get(store.items, e.entryId).Some? &&
                    Get(store.items, e.entryId).value.truthy && Get(store.items, e.entryId).value.slot.Holds?)
    ensures p.Take? && e.runtime.Missing? ==>
      store.Dict? && p.value == Get(store.items, e.entryId).value.slot.client
  {
    if e.state != Loaded then Skip
    else if e.runtime.Holds? then Take(e.runtime.client)
    else match store
      case Opaque => Raise
      case Dict(items) =>
        match Get(items, e.entryId)
        case Some(a) => if a.truthy && a.slot.Holds? then Take(a.slot.client) else Skip
        case None => Skip
  }

  /** The first loop: the first entry whose probe does not say `Skip` decides. */
  function FirstPass(es: seq<MatterEntry>, store: Store): Probe
  {
    if es == [] then Skip
    else if EntryProbe(es[0], store) != Skip then EntryProbe(es[0], store)
    else FirstPass(es[1..], store)
  }

  /** The second loop, over `matter_data.values()`, run only when the data is a dict. */
  function FallbackScan(items: PyDict.Dict<string, Adapter>): Probe
  {
    if items == [] then Skip
    else if items[0].1.slot.Holds? then Take(items[0].1.slot.client)
    else FallbackScan(items[1..])
  }

  /** The whole search, with Python's `if not matter_client` between and after the loops. */
  function Resolve(es: seq<MatterEntry>, store: Store): Resolution
  {
    match FirstPass(es, store)
    case Raise => Raised
    case Take(Some(c)) => Found(c)
    case _ =>
      if store.Dict? then
        match FallbackScan(store.items)
        case Take(Some(c)) => Found(c)
        case _ => NotFound
      else NotFound
  }

  /** The search as the source runs it: two `for` loops with `break`, updating `matter_client`. */
  method FindClient(es: seq<MatterEntry>, store: Store) returns (r: Resolution)
    ensures r == Resolve(es, store)
  {
    var matterClient: Option<Client> := None;
    var i := 0;
    while i < |es|
      invariant 0 <= i <= |es|
      invariant matterClient == None
      invariant FirstPass(es, store) == FirstPass(es[i..], store)
    {
      var e := es[i];
      if e.state == Loaded {
        if e.runtime.Holds? {
          matterClient := e.runtime.client;
          break;
        }
        if store.Opaque? {
          return Raised;
        }
        var mData := Get(store.items, e.entryId);
        if mData.Some? && mData.value.truthy && mData.value.slot.Holds? {
          matterClient := mData.value.slot.client;
          break;
        }
      }
      assert es[i..][1..] == es[i + 1..];
      i := i + 1;
    }
    ghost var firstPass := FirstPass(es, store);
    assert firstPass == Skip || firstPass == Take(matterClient);

    if matterClient == None && store.Dict? {
      var values := Values(store.items);
      var j := 0;
      while j < |values|
        invariant 0 <= j <= |values|
        invariant matterClient == None
        invariant FallbackScan(store.items) == FallbackScan(store.items[j..])
      {
        if values[j].slot.Holds? {
          matterClient := values[j].slot.client;
          break;
        }
        assert store.items[j..][1..] == store.items[j + 1..];
        j := j + 1;
      }
    }

    if matterClient == None {
      return NotFound;
    }
    return Found(matterClient.value);
  }

  /** The entries the first loop can act on: those in state `LOADED`, in order. */
  function LoadedOnly(es: seq<MatterEntry>): (r: seq<MatterEntry>)
    ensures forall e :: e in r <==> e in es && e.state == Loaded
  {
    if es == [] then []
    else if es[0].state == Loaded then [es[0]] + LoadedOnly(es[1..])
    else LoadedOnly(es[1..])
  }

  /** Entries not in state `LOADED` never influence the result. */
  lemma {:induction false} OnlyLoadedConsidered(es: seq<MatterEntry>, store: Store)
    ensures Resolve(es, store) == Resolve(LoadedOnly(es), store)
  {
    FirstPassOnlyLoaded(es, store);
  }

  lemma {:induction false} FirstPassOnlyLoaded(es: seq<MatterEntry>, store: Store)
    ensures FirstPass(es, store) == FirstPass(LoadedOnly(es), store)
  {
    if es != [] {
      FirstPassOnlyLoaded(es[1..], store);
      if es[0].state == Loaded {
        assert ([es[0]] + LoadedOnly(es[1..]))[1..] == LoadedOnly(es[1..]);
      }
    }
  }

  /**
   * The first entry that yields a client stops the search: whatever follows it
   * in the entry list, and whatever the fallback would find, is not looked at.
   */
  lemma {:induction false} FirstHitWins(pre: seq<MatterEntry>, e: MatterEntry, post: seq<MatterEntry>, store: Store, c: Client)
    requires forall x :: x in pre ==> EntryProbe(x, store) == Skip
    requires EntryProbe(e, store) == Take(Some(c))
    ensures Resolve(pre + [e] + post, store) == Found(c)
  {
    FirstPassSkipsPrefix(pre, [e] + post, store);
    assert pre + [e] + post == pre + ([e] + post);
  }

  lemma {:induction false} FirstPassSkipsPrefix(pre: seq<MatterEntry>, rest: seq<MatterEntry>, store: Store)
    requires forall x :: x in pre ==> EntryProbe(x, store) == Skip
    ensures FirstPass(pre + rest, store) == FirstPass(rest, store)
  {
    if pre != [] {
      assert (pre + rest)[1..] == pre[1..] + rest;
      FirstPassSkipsPrefix(pre[1..], rest, store);
    } else {
      assert pre + rest == rest;
    }
  }

  /**
   * For an entry in state `LOADED`, a `matter_client` under `runtime_data`
   * is taken before `hass.data["matter"]` is consulted, and even when that
   * data is not a dict.
   */
  lemma RuntimeDataFirst(e: MatterEntry, rest: seq<MatterEntry>, store: Store, c: Client)
    requires e.state == Loaded && e.runtime == Holds(Some(c))
    ensures Resolve([e] + rest, store) == Found(c)
  {
  }

  /**
   * When the first pass gives no client, the fallback takes the first value
   * of the dict that has a `matter_client`, ignoring entry states and ids.
   */
  lemma {:induction false} FallbackFirstValue(es: seq<MatterEntry>, pre: PyDict.Dict<string, Adapter>, key: string, a: Adapter, post: PyDict.Dict<string, Adapter>, c: Client)
    requires FirstPass(es, Dict(pre + [(key, a)] + post)) in {Skip, Take(None)}
    requires forall i :: 0 <= i < |pre| ==> pre[i].1.slot.Missing?
    requires a.slot == Holds(Some(c))
    ensures Resolve(es, Dict(pre + [(key, a)] + post)) == Found(c)
  {
    FallbackSkipsPrefix(pre, [(key, a)] + post);
    assert pre + [(key, a)] + post == pre + ([(key, a)] + post);
  }

  lemma {:induction false} FallbackSkipsPrefix(pre: PyDict.Dict<string, Adapter>, rest: PyDict.Dict<string, Adapter>)
    requires forall i :: 0 <= i < |pre| ==> pre[i].1.slot.Missing?
    ensures FallbackScan(pre + rest) == FallbackScan(rest)
  {
    if pre != [] {
      assert (pre + rest)[1..] == pre[1..] + rest;
      FallbackSkipsPrefix(pre[1..], rest);
    } else {
      assert pre + rest == rest;
    }
  }

  /** With no entry in state `LOADED`, the first pass gives nothing and the search is the fallback's. */
  lemma {:induction false} NoLoadedEntryFallsThrough(es: seq<MatterEntry>, items: PyDict.Dict<string, Adapter>)
    requires forall i :: 0 <= i < |es| ==> es[i].state != Loaded
    ensures FirstPass(es, Dict(items)) == Skip
    ensures Resolve(es, Dict(items)) == (if FallbackScan(items).Take? && FallbackScan(items).value.Some?
                                         then Found(FallbackScan(items).value.value) else NotFound)
  {
    if es != [] {
      NoLoadedEntryFallsThrough(es[1..], items);
    }
  }

  /** An empty registry gives no client. */
  lemma EmptyRegistryNotFound()
    ensures Resolve([], Dict([])) == NotFound
  {
  }

  /**
   * A found client is one the registry exposes: under `runtime_data` of a
   * loaded entry, under a truthy adapter stored for a loaded entry's id, or
   * under any value of the `hass.data["matter"]` dict.
   */
  lemma FoundIsRegistered(es: seq<MatterEntry>, store: Store, c: Client)
    requires Resolve(es, store) == Found(c)
    ensures (exists i :: 0 <= i < |es| && es[i].state == Loaded &&
              (es[i].runtime == Holds(Some(c)) ||
               (store.Dict? && Get(store.items, es[i].entryId).Some? &&
                Get(store.items, es[i].entryId).value.slot == Holds(Some(c)))))
         || (store.Dict? && exists j :: 0 <= j < |store.items| && store.items[j].1.slot == Holds(Some(c)))
  {
    if FirstPass(es, store) == Take(Some(c)) {
      FirstPassFrom(es, store, c);
    } else {
      FallbackFrom(store.items, c);
    }
  }

  lemma {:induction false} FirstPassFrom(es: seq<MatterEntry>, store: Store, c: Client)
    requires FirstPass(es, store) == Take(Some(c))
    ensures exists i :: 0 <= i < |es| && EntryProbe(es[i], store) == Take(Some(c))
  {
    if EntryProbe(es[0], store) == Skip {
      FirstPassFrom(es[1..], store, c);
      var i :| 0 <= i < |es[1..]| && EntryProbe(es[1..][i], store) == Take(Some(c));
      assert EntryProbe(es[i + 1], store) == Take(Some(c));
    } else {
      assert EntryProbe(es[0], store) == Take(Some(c));
    }
  }

  lemma {:induction false} FallbackFrom(items: PyDict.Dict<string, Adapter>, c: Client)
    requires FallbackScan(items) == Take(Some(c))
    ensures exists j :: 0 <= j < |items| && items[j].1.slot == Holds(Some(c))
  {
    if !items[0].1.slot.Holds? {
      FallbackFrom(items[1..], c);
      var j :| 0 <= j < |items[1..]| && items[1..][j].1.slot == Holds(Some(c));
      assert items[j + 1].1.slot == Holds(Some(c));
    }
  }

  /**
   * For a loaded entry without a `runtime_data` client, a truthy adapter with
   * a `matter_client` stored under the entry's id in `hass.data["matter"]`
   * supplies the client, once the entries before it gave nothing.
   */
  lemma LegacyAdapterTaken(pre: seq<MatterEntry>, e: MatterEntry, post: seq<MatterEntry>, items: PyDict.Dict<string, Adapter>, c: Client)
    requires forall x :: x in pre ==> EntryProbe(x, Dict(items)) == Skip
    requires e.state == Loaded && e.runtime.Missing?
    requires Get(items, e.entryId) == Some(Adapter(true, Holds(Some(c))))
    ensures Resolve(pre + [e] + post, Dict(items)) == Found(c)
  {
    FirstHitWins(pre, e, post, Dict(items), c);
  }

  /**
   * A `matter_client` attribute holding `None` still ends its loop: whatever
   * follows the entry is never looked at, so the result is the one the entry
   * alone gives, decided by the fallback.
   */
  lemma NoneClientStopsFirstPass(e: MatterEntry, rest: seq<MatterEntry>, store: Store)
    requires e.state == Loaded && e.runtime == Holds(None)
    ensures FirstPass([e] + rest, store) == Take(None)
    ensures Resolve([e] + rest, store) == Resolve([e], store)
  {
  }

  /**
   * A search that reaches `.get` on a `hass.data["matter"]` that is not a
   * dict raises, whatever entries follow.
   */
  lemma OpaqueDataRaises(pre: seq<MatterEntry>, e: MatterEntry, post: seq<MatterEntry>)
    requires forall x :: x in pre ==> EntryProbe(x, Opaque) == Skip
    requires e.state == Loaded && e.runtime.Missing?
    ensures Resolve(pre + [e] + post, Opaque) == Raised
  {
    FirstPassSkipsPrefix(pre, [e] + post, Opaque);
    assert pre + [e] + post == pre + ([e] + post);
  }
}
