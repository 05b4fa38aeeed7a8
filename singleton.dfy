/** plugin/utils/singleton.py: the `singleton` decorator keeps one instance
    per decorated class; the caches of the plugin are such singletons. */
module Singletons {

  /** The classes the plugin decorates with `@singleton`. */
  datatype CacheClass =
    | ViewConfigCache
    | CppPropertiesCache
    | CCppPropertiesCache
    | CMakeFileCache
    | ComplationDbCache
    | FlagsFileCache

  /** An instance of one of the cache classes: a dict, shared by everyone
      who asks its class for it. */
  class CacheDict {
    const cls: CacheClass
    var entries: map<string, string>

    constructor (cls: CacheClass)
      ensures this.cls == cls && entries == map[]
    {
      this.cls := cls;
      entries := map[];
    }
  }

  /** The `instances` dict the decorator closes over, for all decorated
      classes at once. */
  class Registry {
    var instances: map<CacheClass, CacheDict>

    constructor ()
      ensures instances == map[]
    {
      instances := map[];
    }

    /** Each stored instance is of the class it is stored for. */
    predicate Valid()
      reads this
    {
      forall c :: c in instances ==> instances[c].cls == c
    }

    /** `getinstance(*args, **kwargs)` for class `cls`: the first call builds
        the instance, every later one returns that same instance and builds
        nothing, whatever it is given. */
    method GetInstance(cls: CacheClass) returns (instance: CacheDict)
      requires Valid()
      modifies this
      ensures Valid()
      ensures cls in old(instances) ==> instance == old(instances)[cls] && instances == old(instances)
      ensures cls !in old(instances) ==> fresh(instance) && instances == old(instances)[cls := instance]
      ensures instance.cls == cls && instances[cls] == instance
    {
      if cls !in instances {
        var created := new CacheDict(cls);
        instances := instances[cls := created];
      }
      instance := instances[cls];
    }
  }

  /** Distinct classes never share an instance. */
  lemma DistinctClassesDistinctInstances(r: Registry, a: CacheClass, b: CacheClass)
    requires r.Valid() && a in r.instances && b in r.instances && a != b
    ensures r.instances[a] != r.instances[b]
  {
  }

  /** Two calls for the same class give the identical instance; the second
      changes nothing. */
  method GetTwice(r: Registry, cls: CacheClass) returns (first: CacheDict, second: CacheDict)
    requires r.Valid()
    modifies r
    ensures first == second && r.Valid()
  {
    first := r.GetInstance(cls);
    second := r.GetInstance(cls);
  }
}
