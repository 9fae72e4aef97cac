/** One object of the API server that many workers read and write: optimistic concurrency on its
    resource version, and reads from an informer cache that may lag behind. */
module SharedObject {
  import opened Options

  /** Every state of the object since the start; None while it does not exist.  The last entry is
      live.  The position in the log is the resource version.  The cache shows the entry at `cache`
      and only moves forward. */
  datatype Shared<V(==)> = Shared(log: seq<Option<V>>, cache: nat) {

    predicate Valid() {
      cache < |log|
    }

    function Live(): Option<V>
      requires Valid()
    {
      log[|log| - 1]
    }

    function Cached(): Option<V>
      requires Valid()
    {
      log[cache]
    }

    /** Update with the resource version of a snapshot.  Writing the live value again changes nothing. */
    function Write(held: Snapshot<V>, v: V): (r: WriteResult<V>)
      requires Valid()
      ensures r.Written? ==> r.shared.Valid() && log <= r.shared.log
      ensures r.Written? ==> r.shared.Live() == Some(v) && r.shared.cache == cache
    {
      if Live().None? then Missing
      else if held.position != |log| - 1 then Conflict
      else if Live() == Some(v) then Written(this)
      else Written(this.(log := log + [Some(v)]))
    }

    /** Create fails if the object exists, Delete if it does not; both are no-ops then. */
    function Create(v: V): (r: Shared<V>)
      requires Valid()
      ensures r.Valid() && log <= r.log && r.cache == cache
    {
      if Live().Some? then this else this.(log := log + [Some(v)])
    }

    function Delete(): (r: Shared<V>)
      requires Valid()
      ensures r.Valid() && log <= r.log && r.cache == cache
    {
      if Live().None? then this else this.(log := log + [None])
    }

    /** The cache catches up to some later position. */
    function Observe(position: nat): (r: Shared<V>)
      requires Valid()
      ensures r.Valid() && r.log == log && cache <= r.cache
    {
      if cache <= position < |log| then this.(cache := position) else this
    }

    /** The cache has caught up. */
    function Fresh(): (r: Shared<V>)
      requires Valid()
      ensures r.Valid() && r.log == log && cache <= r.cache && r.Cached() == Live()
    {
      Observe(|log| - 1)
    }

    /** The object has existed without interruption since the cached state. */
    predicate ExistsSinceCached() {
      forall k :: cache <= k < |log| ==> log[k].Some?
    }

    /** A snapshot that some read from the cache returned. */
    predicate Holds(held: Snapshot<V>) {
      held.position <= cache < |log| && log[held.position] == Some(held.data)
    }
  }

  datatype Snapshot<V> = Snapshot(position: nat, data: V)

  datatype WriteResult<V> = Written(shared: Shared<V>) | Missing | Conflict

  /** A successful write was computed from the live value, however old the read. */
  lemma WriteIsFresh<V>(s: Shared<V>, held: Snapshot<V>, v: V)
    requires s.Holds(held) && s.Write(held, v).Written?
    ensures s.Live() == Some(held.data)
    ensures s.cache == |s.log| - 1
    ensures s.Write(held, v).shared.ExistsSinceCached()
  {
  }
}
