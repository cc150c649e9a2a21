/**
 * `list` (src/list/flow.rs, src/list/data.rs, src/list/errors.rs): print the
 * datastore names of the inventory, or the databases of one datastore, one per
 * line. Loading the inventory file is an input `load`; what is printed is the
 * result (without the line break `println!` adds).
 */
module ListFlow {
  import opened Wrappers
  import opened Strings
  import opened Paths
  import DS = Datastores

  datatype ResourceType = Datastores | Databases(datastoreName: String)

  /** The parameters of `list`. */
  datatype List = List(resourceType: ResourceType, satoriFolderPath: Path)

  datatype ListError = DatastoresError(error: DS.DatastoresError) | DatastoreNotFound(name: String)

  /** `handle_datastores`: the inventory's datastore names, in the order the hash map visits
      them, joined by line breaks. */
  method HandleDatastores(path: Path, load: Path -> Result<DS.DatastoresInfo, DS.DatastoresError>)
    returns (r: Result<String, ListError>)
    ensures load(path).Err? ==> r == Err(DatastoresError(load(path).error))
    ensures load(path).Ok? ==> r.Ok?
    ensures load(path).Ok? ==> exists names :: Enumerates(names, load(path).value.datastores.Keys) && r.value == Join(names, '\n')
  {
    var loaded := load(path);
    if loaded.Err? {
      return Err(DatastoresError(loaded.error));
    }
    var names := IterationOrder(loaded.value.datastores.Keys);
    r := Ok(Join(names, '\n'));
  }

  /** When no datastore name holds a line break, the lines of a non-empty listing are the
      names, each once (the names being distinct). */
  lemma ListingLines(names: seq<String>, s: set<String>)
    requires Enumerates(names, s) && s != {}
    requires forall x :: x in s ==> '\n' !in x
    ensures Split(Join(names, '\n'), '\n') == names
    ensures forall x :: x in s <==> x in Split(Join(names, '\n'), '\n')
  {
    SplitJoin(names, '\n');
  }

  /** `handle_databases`: the databases of the named datastore, in stored order, joined by line
      breaks. */
  function HandleDatabases(datastoreName: String, path: Path, load: Path -> Result<DS.DatastoresInfo, DS.DatastoresError>)
    : (r: Result<String, ListError>)
    ensures load(path).Err? ==> r == Err(DatastoresError(load(path).error))
    ensures load(path).Ok? && datastoreName !in load(path).value.datastores ==> r == Err(DatastoreNotFound(datastoreName))
    ensures load(path).Ok? && datastoreName in load(path).value.datastores ==>
      r == Ok(Join(load(path).value.datastores[datastoreName].databases, '\n'))
  {
    match load(path)
    case Err(e) => Err(DatastoresError(e))
    case Ok(info) =>
      if datastoreName in info.datastores then Ok(Join(info.datastores[datastoreName].databases, '\n'))
      else Err(DatastoreNotFound(datastoreName))
  }

  /** When no database name holds a line break, the lines of a non-empty database listing are
      the stored databases, in order. */
  lemma DatabaseLines(datastoreName: String, path: Path, load: Path -> Result<DS.DatastoresInfo, DS.DatastoresError>)
    requires load(path).Ok? && datastoreName in load(path).value.datastores
    requires var dbs := load(path).value.datastores[datastoreName].databases;
      |dbs| >= 1 && forall k :: 0 <= k < |dbs| ==> '\n' !in dbs[k]
    ensures Split(HandleDatabases(datastoreName, path, load).value, '\n') == load(path).value.datastores[datastoreName].databases
  {
    SplitJoin(load(path).value.datastores[datastoreName].databases, '\n');
  }

  /** `run`: dispatch on the resource type. */
  method Run(params: List, load: Path -> Result<DS.DatastoresInfo, DS.DatastoresError>) returns (r: Result<String, ListError>)
    ensures params.resourceType.Databases? ==>
      r == HandleDatabases(params.resourceType.datastoreName, params.satoriFolderPath, load)
    ensures params.resourceType.Datastores? && load(params.satoriFolderPath).Ok? ==>
      r.Ok? && exists names :: Enumerates(names, load(params.satoriFolderPath).value.datastores.Keys) && r.value == Join(names, '\n')
    ensures params.resourceType.Datastores? && load(params.satoriFolderPath).Err? ==>
      r == Err(DatastoresError(load(params.satoriFolderPath).error))
  {
    match params.resourceType
    case Datastores =>
      r := HandleDatastores(params.satoriFolderPath, load);
    case Databases(name) =>
      r := HandleDatabases(name, params.satoriFolderPath, load);
  }
}
