/**
 * The datastore inventory (src/helpers/datastores/data.rs and mod.rs): the
 * console's access-details records, their conversion into inventory
 * entries, and the host name a tool connects to.
 */
module Datastores {
  import opened Wrappers
  import opened Strings
  import opened ConsoleErrors

  /** The datastore kinds. The enum and `is_postgres_dialect` are defined in a file that is not
      part of this model; the model names the kinds its rules distinguish and classifies the
      PostgreSQL-dialect ones by construction. */
  datatype DatastoreType = Mongo | S3 | PostgresDialect(kind: String) | OtherType(kind: String) {
    predicate IsPostgresDialect() { PostgresDialect? }
  }

  /** The console's spelling of the MongoDB deployment kinds. */
  datatype ConsoleMongoDeploymentType = MongoDb | MongoDbSrv

  datatype DatastoreSettings = MongoDeploymentTypeSetting(deployment: ConsoleMongoDeploymentType)

  /** One record of the console's access-details response. */
  datatype DatastoreAccessDetails = DatastoreAccessDetails(
    name: String,
    datastoreType: DatastoreType,
    satoriHostname: String,
    port: Option<nat>,
    datastoreSettings: Option<DatastoreSettings>,
    dbs: seq<String>)

  /** The inventory's spelling of the MongoDB deployment kinds. */
  datatype MongoDeploymentType = MongoDB | MongoDBSrv

  datatype DatastoreInfo = DatastoreInfo(
    satoriHost: String,
    databases: seq<String>,
    port: Option<nat>,
    datastoreType: DatastoreType,
    deploymentType: Option<MongoDeploymentType>)

  /** The inventory of one account: datastore name to entry. */
  datatype DatastoresInfo = DatastoresInfo(accountId: String, datastores: map<String, DatastoreInfo>)

  datatype GetHostError = MongoMissingDeploymentType

  datatype DefaultFolderError = HomeDirNotFound | FailedToGetHomeDir

  /** Why the inventory could not be loaded or fetched. */
  datatype DatastoresError = HomeFolder(cause: DefaultFolderError) | OpenFile | Serde | Console(error: SatoriError)

  const DEFAULT_MONGO_PORT: nat := 27017

  /** `MongoDeploymentType::from(DatastoreSettings)` */
  function MongoDeploymentTypeFrom(settings: DatastoreSettings): (t: MongoDeploymentType)
    ensures settings.deployment == MongoDb ==> t == MongoDB
    ensures settings.deployment == MongoDbSrv ==> t == MongoDBSrv
  {
    match settings.deployment
    case MongoDb => MongoDB
    case MongoDbSrv => MongoDBSrv
  }

  /** `DatastoreInfo::from(DatastoreAccessDetails)` */
  function FromAccessDetails(d: DatastoreAccessDetails): (info: DatastoreInfo)
    ensures info.satoriHost == d.satoriHostname && info.databases == d.dbs
    ensures info.port == d.port && info.datastoreType == d.datastoreType
    ensures info.deploymentType.Some? <==> d.datastoreSettings.Some?
    ensures d.datastoreSettings.Some? ==> info.deploymentType.value == MongoDeploymentTypeFrom(d.datastoreSettings.value)
  {
    DatastoreInfo(
      d.satoriHostname, d.dbs, d.port, d.datastoreType,
      if d.datastoreSettings.Some? then Some(MongoDeploymentTypeFrom(d.datastoreSettings.value)) else None)
  }

  /** No record after position `i` has the name of the record at `i`. */
  predicate LastWithItsName(records: seq<DatastoreAccessDetails>, i: nat)
    requires i < |records|
  {
    forall j :: i < j < |records| ==> records[j].name != records[i].name
  }

  /** The set of names of the records. */
  function Names(records: seq<DatastoreAccessDetails>): set<String> {
    set i | 0 <= i < |records| :: records[i].name
  }

  /** The map that collecting `(name, conversion)` pairs builds, visiting `records` in order:
      a later record with an already-seen name replaces the earlier entry. */
  function CollectByName(records: seq<DatastoreAccessDetails>): map<String, DatastoreInfo> {
    if |records| == 0 then map[]
    else CollectByName(records[..|records| - 1])[records[|records| - 1].name := FromAccessDetails(records[|records| - 1])]
  }

  /** The collected map is keyed by exactly the records' names. */
  lemma {:induction false} CollectByNameKeys(records: seq<DatastoreAccessDetails>)
    ensures CollectByName(records).Keys == Names(records)
  {
    if |records| > 0 {
      var prefix := records[..|records| - 1];
      CollectByNameKeys(prefix);
      assert Names(records) == Names(prefix) + {records[|records| - 1].name} by {
        assert forall i :: 0 <= i < |prefix| ==> prefix[i] == records[i];
      }
    }
  }

  /** Each name maps to the conversion of the last record that carries it. */
  lemma {:induction false} CollectByNameValue(records: seq<DatastoreAccessDetails>, i: nat)
    requires i < |records| && LastWithItsName(records, i)
    ensures records[i].name in CollectByName(records)
    ensures CollectByName(records)[records[i].name] == FromAccessDetails(records[i])
  {
    var prefix := records[..|records| - 1];
    if i < |records| - 1 {
      assert prefix[i] == records[i];
      assert LastWithItsName(prefix, i) by {
        forall j | i < j < |prefix| ensures prefix[j].name != prefix[i].name {
          assert prefix[j] == records[j];
        }
      }
      CollectByNameValue(prefix, i);
    }
  }

  /** `DatastoresInfo::new_from_console_response`. The console's records arrive as a hash set;
      `records` is the order in which that set is visited. */
  function NewFromConsoleResponse(accountId: String, records: seq<DatastoreAccessDetails>): (info: DatastoresInfo)
    ensures info.accountId == accountId
    ensures info.datastores.Keys == Names(records)
    ensures forall i :: 0 <= i < |records| && LastWithItsName(records, i) ==>
      info.datastores[records[i].name] == FromAccessDetails(records[i])
  {
    CollectByNameKeys(records);
    forall i | 0 <= i < |records| && LastWithItsName(records, i)
      ensures CollectByName(records)[records[i].name] == FromAccessDetails(records[i])
    {
      CollectByNameValue(records, i);
    }
    DatastoresInfo(accountId, CollectByName(records))
  }

  /** `get_from_console` in the revision of src/helpers/datastores/mod.rs that is part of this
      model stores the DOMAIN as the inventory's account id. */
  function GetFromConsole(domain: String, records: Result<seq<DatastoreAccessDetails>, SatoriError>): (r: Result<DatastoresInfo, DatastoresError>)
    ensures r.Ok? <==> records.Ok?
    ensures r.Ok? ==> r.value.accountId == domain
    ensures records.Err? ==> r == Err(Console(records.error))
  {
    match records
    case Err(e) => Err(Console(e))
    case Ok(rs) => Ok(NewFromConsoleResponse(domain, rs))
  }

  /** `DatastoreInfo::get_datastore_name`: the host a client connects to. */
  function GetDatastoreName(info: DatastoreInfo): (r: Result<String, GetHostError>)
    ensures info.datastoreType != Mongo ==> r == Ok(info.satoriHost)
    ensures info.datastoreType == Mongo && info.deploymentType == Some(MongoDB) ==>
      r == Ok("mongodb://" + info.satoriHost + ":" + NatToString(info.port.GetOr(DEFAULT_MONGO_PORT)))
    ensures info.datastoreType == Mongo && info.deploymentType == Some(MongoDBSrv) ==>
      r == Ok("mongodb+srv://" + info.satoriHost)
    ensures r.Err? <==> info.datastoreType == Mongo && info.deploymentType.None?
  {
    match info.datastoreType
    case Mongo =>
      (match info.deploymentType
       case Some(MongoDB) =>
         Ok("mongodb://" + info.satoriHost + ":" + NatToString(if info.port.Some? then info.port.value else DEFAULT_MONGO_PORT))
       case Some(MongoDBSrv) => Ok("mongodb+srv://" + info.satoriHost)
       case None => Err(MongoMissingDeploymentType))
    case _ => Ok(info.satoriHost)
  }
}
