/** The external key/value store, written by create and update, and emptied by
    remove (core/store.go). `ok` tells whether the store answers. */
module Store {
  import opened Basics
  import opened Options
  import opened Model

  class KvStore {
    var services: map<string, ServiceSpec>
    var backends: map<string, BackendSpec>

    constructor (kv: Kv)
      ensures Content() == kv
    {
      services, backends := kv.services, kv.backends;
    }

    function Content(): Kv
      reads this
    {
      Kv(services, backends)
    }

    /** Both maps as Sync lists them, if both listings succeed. */
    method List(ok: bool) returns (read: Option<Kv>)
      ensures read == if ok then Some(Content()) else None
    {
      read := if ok then Some(Content()) else None;
    }

    /** put for a service: an existing key is kept unless overwriting. */
    method PutService(vsID: string, spec: ServiceSpec, overwrite: bool, ok: bool) returns (done: bool)
      modifies this
      ensures done == ok
      ensures Some(Content()) == if ok then Model.PutService(Some(old(Content())), vsID, spec, overwrite) else Some(old(Content()))
    {
      if !ok {
        return false;
      }
      if vsID !in services || overwrite {
        services := services[vsID := spec];
      }
      done := true;
    }

    /** CreateBackend: never overwrites. */
    method PutBackend(rsID: string, spec: BackendSpec, ok: bool) returns (done: bool)
      modifies this
      ensures done == ok
      ensures Some(Content()) == if ok then Model.PutBackend(Some(old(Content())), rsID, spec) else Some(old(Content()))
    {
      if !ok {
        return false;
      }
      if rsID !in backends {
        backends := backends[rsID := spec];
      }
      done := true;
    }

    method RemoveService(vsID: string, ok: bool) returns (done: bool)
      modifies this
      ensures done == ok
      ensures Some(Content()) == DropService(Some(old(Content())), vsID, ok)
    {
      if ok {
        services := services - {vsID};
      }
      done := ok;
    }

    method RemoveBackend(rsID: string, ok: bool) returns (done: bool)
      modifies this
      ensures done == ok
      ensures Some(Content()) == DropBackends(Some(old(Content())), if ok then {rsID} else {})
    {
      assert backends - {} == backends;
      if ok {
        backends := backends - {rsID};
      }
      done := ok;
    }
  }
}
