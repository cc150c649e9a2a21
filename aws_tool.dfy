/**
 * The AWS tool (src/tools/aws/flow.rs): the Satori credentials go into the
 * `SATORI` section of the AWS credentials file and the S3 endpoint into the
 * `profile SATORI` section of the AWS config file.
 *
 * Reading and writing the INI files is I/O: the files' contents before the
 * run are parameters, what each write stores is a result, and whether a
 * write succeeds is an input.
 */
module AwsTool {
  import opened Wrappers
  import opened Strings
  import opened Paths
  import opened Datastores
  import opened LoginData
  import LoginFlow
  import opened ToolsErrors
  import AwsParser

  const PROFILE_NAME: String := "SATORI"
  const AWS_KEY_NAME: String := "aws_access_key_id"
  const AWS_SECRET_NAME: String := "aws_secret_access_key"
  const CONFIG_SECTION: String := "profile " + PROFILE_NAME
  const ENDPOINT_URL: String := "endpoint_url"

  /** The sections of an INI document, the general section being `None`. */
  type Sections = map<Option<String>, map<String, String>>

  /** The keys of `section`, none when the section is absent. */
  function SectionOf(sections: Sections, section: Option<String>): map<String, String> {
    if section in sections then sections[section] else map[]
  }

  /** `section` created when absent, then `key` set to `value` in it. */
  function WithKey(sections: Sections, section: Option<String>, key: String, value: String): (r: Sections)
    ensures r.Keys == sections.Keys + {section}
    ensures r[section].Keys == SectionOf(sections, section).Keys + {key}
    ensures r[section][key] == value
    ensures forall s :: s in sections && s != section ==> r[s] == sections[s]
    ensures forall k :: k in SectionOf(sections, section) && k != key ==> r[section][k] == sections[section][k]
  {
    sections[section := SectionOf(sections, section)[key := value]]
  }

  /** An INI document (`ini::Ini`). */
  class Ini {
    var sections: Sections

    constructor (content: Sections)
      ensures sections == content
    {
      sections := content;
    }

    /** `with_section(section).set(key, value)` */
    method Set(section: Option<String>, key: String, value: String)
      modifies this
      ensures sections == WithKey(old(sections), section, key, value)
    {
      sections := sections[section := SectionOf(sections, section)[key := value]];
    }
  }

  /** An INI file: one that does not load (missing or malformed), or its sections. */
  datatype IniFile = Unloadable | Loaded(sections: Sections)

  /** `get_ini_content_or_new`: a file that does not load gives an empty document. */
  function IniContentOrNew(file: IniFile): (s: Sections)
    ensures file.Unloadable? ==> s == map[]
    ensures file.Loaded? ==> s == file.sections
  {
    if file.Loaded? then file.sections else map[]
  }

  /** The credentials file's content with the Satori credentials set. */
  function WithCredentials(sections: Sections, credentials: Credentials): Sections {
    WithKey(WithKey(sections, Some(PROFILE_NAME), AWS_KEY_NAME, credentials.username),
            Some(PROFILE_NAME), AWS_SECRET_NAME, credentials.password)
  }

  /** The config file's content with the S3 endpoint set. */
  function WithEndpoint(sections: Sections, host: String): Sections {
    WithKey(sections, Some(CONFIG_SECTION), ENDPOINT_URL, "https://" + host)
  }

  /** The `SATORI` section holds the username and password under the AWS key names; every other
      section, and every other key of `SATORI`, is unchanged. */
  lemma CredentialsSection(sections: Sections, credentials: Credentials)
    ensures var r := WithCredentials(sections, credentials);
      && r.Keys == sections.Keys + {Some(PROFILE_NAME)}
      && r[Some(PROFILE_NAME)][AWS_KEY_NAME] == credentials.username
      && r[Some(PROFILE_NAME)][AWS_SECRET_NAME] == credentials.password
      && r[Some(PROFILE_NAME)].Keys == SectionOf(sections, Some(PROFILE_NAME)).Keys + {AWS_KEY_NAME, AWS_SECRET_NAME}
      && (forall s :: s in sections && s != Some(PROFILE_NAME) ==> r[s] == sections[s])
      && (forall k :: k in SectionOf(sections, Some(PROFILE_NAME)) && k != AWS_KEY_NAME && k != AWS_SECRET_NAME ==>
            r[Some(PROFILE_NAME)][k] == sections[Some(PROFILE_NAME)][k])
  {
    assert AWS_KEY_NAME != AWS_SECRET_NAME;
  }

  /** The `profile SATORI` section holds `endpoint_url = https://{host}`; every other section,
      and every other key of that section, is unchanged. */
  lemma EndpointSection(sections: Sections, host: String)
    ensures var r := WithEndpoint(sections, host);
      && r.Keys == sections.Keys + {Some(CONFIG_SECTION)}
      && r[Some(CONFIG_SECTION)][ENDPOINT_URL] == "https://" + host
      && (forall s :: s in sections && s != Some(CONFIG_SECTION) ==> r[s] == sections[s])
      && (forall k :: k in SectionOf(sections, Some(CONFIG_SECTION)) && k != ENDPOINT_URL ==>
            r[Some(CONFIG_SECTION)][k] == sections[Some(CONFIG_SECTION)][k])
  {
  }

  /** The datastore named `name` is an S3 datastore. */
  predicate IsS3(info: DatastoresInfo, name: String) {
    name in info.datastores && info.datastores[name].datastoreType == S3
  }

  predicate HasS3(info: DatastoresInfo) {
    exists name :: name in info.datastores && IsS3(info, name)
  }

  /** `config` is `original` with the endpoint of some S3 datastore set. */
  predicate EndpointOfSomeS3(info: DatastoresInfo, original: Sections, config: Sections) {
    exists name :: name in info.datastores && IsS3(info, name) && config == WithEndpoint(original, info.datastores[name].satoriHost)
  }

  /** `get_s3_endpoint_from_datastore_info`: the Satori host of the first S3 datastore in the
      map's iteration order, which is unspecified. */
  method GetS3Endpoint(info: DatastoresInfo) returns (r: Result<String, ToolsError>)
    ensures r.Err? <==> !HasS3(info)
    ensures r.Err? ==> r.error == S3DatastoreNotFound
    ensures r.Ok? ==> exists name :: IsS3(info, name) && info.datastores[name].satoriHost == r.value
  {
    var unvisited := info.datastores.Keys;
    while unvisited != {}
      invariant unvisited <= info.datastores.Keys
      invariant forall name :: name in info.datastores && name !in unvisited ==> !IsS3(info, name)
      decreases unvisited
    {
      var name :| name in unvisited;
      if info.datastores[name].datastoreType == S3 {
        return Ok(info.datastores[name].satoriHost);
      }
      unvisited := unvisited - {name};
    }
    return Err(S3DatastoreNotFound);
  }

  /** `run`: both files are loaded first, then the login runs; the credentials file is written
      before the S3 endpoint is looked up, so a missing S3 datastore leaves it updated and the
      config file unwritten.

      `login` is the result of `run_with_file`; a write of the credentials (config) file succeeds
      when `credentialsWrites` (`configWrites`). `credentialsOut` and `configOut` are what the
      writes store, `None` for a file not written. */
  method Run(params: AwsParser.Aws, login: Result<(Credentials, DatastoresInfo), LoginFlow.LoginError>,
             credentialsFile: IniFile, configFile: IniFile, credentialsWrites: bool, configWrites: bool)
    returns (r: Result<(), ToolsError>, credentialsOut: Option<Sections>, configOut: Option<Sections>)
    ensures login.Err? ==> r == Err(LoginError(login.error)) && credentialsOut == None && configOut == None
    ensures login.Ok? && !credentialsWrites ==>
      r == Err(FailedToWriteToFile(params.credentialsPath)) && credentialsOut == None && configOut == None
    ensures login.Ok? && credentialsWrites ==>
      credentialsOut == Some(WithCredentials(IniContentOrNew(credentialsFile), login.value.0))
    ensures login.Ok? && credentialsWrites && !HasS3(login.value.1) ==> r == Err(S3DatastoreNotFound) && configOut == None
    ensures login.Ok? && credentialsWrites && HasS3(login.value.1) && !configWrites ==>
      r == Err(FailedToWriteToFile(params.configPath)) && configOut == None
    ensures r.Ok? <==> login.Ok? && credentialsWrites && HasS3(login.value.1) && configWrites
    ensures r.Ok? ==> configOut.Some? && EndpointOfSomeS3(login.value.1, IniContentOrNew(configFile), configOut.value)
  {
    credentialsOut, configOut := None, None;
    var credentialsContent := new Ini(IniContentOrNew(credentialsFile));
    var configContent := new Ini(IniContentOrNew(configFile));
    if login.Err? {
      return Err(LoginError(login.error)), credentialsOut, configOut;
    }
    var (credentials, info) := login.value;
    credentialsContent.Set(Some(PROFILE_NAME), AWS_KEY_NAME, credentials.username);
    credentialsContent.Set(Some(PROFILE_NAME), AWS_SECRET_NAME, credentials.password);
    if !credentialsWrites {
      return Err(FailedToWriteToFile(params.credentialsPath)), credentialsOut, configOut;
    }
    credentialsOut := Some(credentialsContent.sections);
    var endpoint := GetS3Endpoint(info);
    if endpoint.Err? {
      return Err(endpoint.error), credentialsOut, configOut;
    }
    configContent.Set(Some(CONFIG_SECTION), ENDPOINT_URL, "https://" + endpoint.value);
    if !configWrites {
      return Err(FailedToWriteToFile(params.configPath)), credentialsOut, configOut;
    }
    configOut := Some(configContent.sections);
    r := Ok(());
  }
}
