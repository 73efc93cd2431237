/** The storage registry (src/lib/storage/index.ts): one storage per
    implementation name, built on first use. */
module Storage {
  import opened Common

  datatype StorageOption = StorageOption(key: Option<string>, secret: Option<string>, bucket: Option<string>)

  /** The implementation names in `impls`. */
  const IMPLEMENTATIONS := ["s3"]

  /** A storage as its factory builds it. */
  class Storage {
    const name: string
    const option: Option<StorageOption>

    constructor(name: string, option: Option<StorageOption>)
      ensures this.name == name && this.option == option
    {
      this.name := name;
      this.option := option;
    }
  }

  /** The module-level `instances` record and `storage.create`. */
  class StorageRegistry {
    var instances: map<string, Storage>

    constructor()
      ensures instances == map[]
    {
      instances := map[];
    }

    /** `create(name, option)`: a recorded storage is returned before the name is
        checked; an unknown name throws; otherwise a new storage is recorded. */
    method Create(name: string, option: Option<StorageOption>) returns (r: Result<Storage>)
      modifies this
      ensures name in old(instances) ==> r == Ok(old(instances)[name]) && instances == old(instances)
      ensures name !in old(instances) && name !in IMPLEMENTATIONS ==>
        r == Err("Storage " + name + " is not implemented") && instances == old(instances)
      ensures name !in old(instances) && name in IMPLEMENTATIONS ==>
        r.Ok? && fresh(r.value) && r.value.name == name && r.value.option == option
        && instances == old(instances)[name := r.value]
    {
      if name in instances {
        return Ok(instances[name]);
      }
      if name !in IMPLEMENTATIONS {
        return Err("Storage " + name + " is not implemented");
      }
      var storage := new Storage(name, option);
      instances := instances[name := storage];
      r := Ok(storage);
    }
  }

  /** A second `create` returns the first storage and ignores its own option. */
  method CreateIsIdempotent(first: Option<StorageOption>, second: Option<StorageOption>)
    returns (a: Result<Storage>, b: Result<Storage>)
    ensures a.Ok? && b.Ok? && a.value == b.value && b.value.option == first
  {
    var registry := new StorageRegistry();
    a := registry.Create("s3", first);
    b := registry.Create("s3", second);
  }
}
