/** The service registries: where a deployment looks up what its dependencies provide. */
module Registries {
  import opened Outcomes

  /** A registry entry: the capability key/value pairs a service provides (`Service.provides`;
      `provides` is a Dafny keyword, hence the field name `provided`). */
  datatype Service = Service(provided: map<string, string>)

  /** `dict.get`: the entry under `name`, or None when there is none. */
  function Lookup(services: map<string, Service>, name: string): (r: Option<Service>)
    ensures r.Some? <==> name in services
    ensures r.Some? ==> r.value == services[name]
  {
    if name in services then Some(services[name]) else None
  }

  /** `registry_json[name]` on the parsed file: an unreadable file and a missing name are
      errors, never None. */
  function FileLookup(stored: Option<map<string, Service>>, name: string): (r: Result<Service>)
    ensures r.Ok? <==> stored.Some? && name in stored.value
    ensures r.Ok? ==> r.value == stored.value[name]
    ensures stored.None? ==> r == Err(RegistryUnreadable)
    ensures stored.Some? && name !in stored.value ==> r == Err(MissingService(name))
  {
    match stored
    case None => Err(RegistryUnreadable)
    case Some(entries) =>
      if name in entries then Ok(entries[name]) else Err(MissingService(name))
  }

  /** A registry held in memory: a dictionary from service name to entry. */
  class InMemoryRegistry {
    var services: map<string, Service>

    constructor ()
      ensures services == map[]
    {
      services := map[];
    }

    /** Upserts the entry for `name`; every other entry stays as it was. */
    method Register(name: string, provided: map<string, string>)
      modifies this
      ensures services == old(services)[name := Service(provided)]
      ensures FindService(name) == Some(Service(provided))
      ensures forall n :: n != name ==> FindService(n) == old(FindService(n))
    {
      services := services[name := Service(provided)];
    }

    function FindService(name: string): Option<Service>
      reads this
    {
      Lookup(services, name)
    }
  }

  /** A registry kept in one file. The file is abstracted as the mapping it parses to, or None
      when it is absent or does not parse. */
  class FileRegistry {
    var stored: Option<map<string, Service>>

    constructor (file: Option<map<string, Service>>)
      ensures stored == file
    {
      stored := file;
    }

    /** Rewrites the whole file with a single entry: every previous entry is dropped. */
    method Register(name: string, provided: map<string, string>)
      modifies this
      ensures stored == Some(map[name := Service(provided)])
      ensures FindService(name) == Ok(Service(provided))
      ensures forall n :: n != name ==> FindService(n) == Err(MissingService(n))
    {
      stored := Some(map[name := Service(provided)]);
    }

    function FindService(name: string): Result<Service>
      reads this
    {
      FileLookup(stored, name)
    }
  }

  /** The state of a registry as a value: what the deployer reads while resolving a command. */
  datatype View = MemoryView(services: map<string, Service>) | FileView(stored: Option<map<string, Service>>) {

    /** What `find_service` gives for `name`: a service, None, or the error it raises. */
    function Find(name: string): (r: Result<Option<Service>>)
      ensures MemoryView? ==> r.Ok?
      ensures MemoryView? ==> (r == Ok(None) <==> name !in services)
      ensures MemoryView? && name in services ==> r == Ok(Some(services[name]))
      ensures FileView? && stored.None? ==> r == Err(RegistryUnreadable)
      ensures FileView? && stored.Some? && name !in stored.value ==> r == Err(MissingService(name))
      ensures FileView? && stored.Some? && name in stored.value ==> r == Ok(Some(stored.value[name]))
      ensures FileView? ==> r != Ok(None)
    {
      match this
      case MemoryView(services) => Ok(Lookup(services, name))
      case FileView(stored) =>
        match FileLookup(stored, name)
        case Ok(s) => Ok(Some(s))
        case Err(e) => Err(e)
    }
  }

  /** Either kind of registry, as the deployer holds it. */
  datatype Registry = InMemory(memory: InMemoryRegistry) | File(file: FileRegistry) {

    function Objects(): set<object> {
      match this
      case InMemory(m) => {m}
      case File(f) => {f}
    }

    /** The registry's current state. */
    function View(): (v: View)
      reads Objects()
      ensures InMemory? ==> forall n :: v.Find(n) == Ok(memory.FindService(n))
      ensures File? ==> forall n :: file.FindService(n).Ok? ==> v.Find(n) == Ok(Some(file.FindService(n).value))
      ensures File? ==> forall n :: file.FindService(n).Err? ==> v.Find(n) == Err(file.FindService(n).error)
    {
      match this
      case InMemory(m) => MemoryView(m.services)
      case File(f) => FileView(f.stored)
    }
  }
}

/** Two registrations in a row, as the shared registry tests do them. */
module RegistryScenarios {
  import opened Outcomes
  import opened Registries

  /** In memory, the first entry survives the second registration. */
  method InMemoryKeepsEarlierEntries() returns (first: Option<Service>, missing: Option<Service>)
    ensures first == Some(Service(map[]))
    ensures missing == None
  {
    var registry := new InMemoryRegistry();
    missing := registry.FindService("node-0.10");
    registry.Register("node-0.10", map[]);
    registry.Register("node-0.8", map[]);
    first := registry.FindService("node-0.10");
  }

  /** In a file, the second registration drops the first entry, so looking it up fails. */
  method FileDropsEarlierEntries() returns (first: Result<Service>, second: Result<Service>)
    ensures first == Err(MissingService("node-0.10"))
    ensures second == Ok(Service(map[]))
  {
    var registry := new FileRegistry(Some(map[]));
    registry.Register("node-0.10", map[]);
    registry.Register("node-0.8", map[]);
    first := registry.FindService("node-0.10");
    second := registry.FindService("node-0.8");
  }
}
