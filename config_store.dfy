/**
 * The durable installation record of app/server/config.js.
 *
 * The JSON file behind CONFIG_PATH is modelled as a `FileState`: missing, present
 * but unreadable (content that does not parse), or present with a parsed
 * record. Reading is pure; writing and deleting are methods on `Store`. Every
 * file-system failure is a boolean parameter, including a `readFileSync` that
 * throws on one call only.
 */
module ConfigStore {
  import opened Wrappers

  /** The schema version stamped on every record written (config.js:57). */
  const Version: string := "1.0.0"

  /**
   * The flat JSON object stored in the file. A key absent from the JSON is
   * modelled by the falsy default of its type ("" or false).
   */
  datatype Config = Config(
    adminEmail: string,
    usageContext: string,
    loginMethod: string,
    installed: bool,
    installedAt: string,
    version: string)

  /** What `existsSync` followed by `readFileSync` and `JSON.parse` can find. */
  datatype FileState = Missing | Unreadable | Present(config: Config)

  /**
   * readConfig: the parsed record, or None when the file is missing, does not
   * parse, or `readFileSync` throws on this call (`readFails`).
   */
  function ReadConfig(f: FileState, readFails: bool): (r: Option<Config>)
    ensures r.Some? <==> f.Present? && !readFails
    ensures r.Some? ==> r.value == f.config
  {
    match f
    case Missing => None
    case Unreadable => None
    case Present(c) => if readFails then None else Some(c)
  }

  /**
   * isInstalled: a record read on this call whose `installed` is exactly true
   * and whose adminEmail is truthy; any failure on the way counts as not installed.
   */
  function IsInstalled(f: FileState, readFails: bool): (b: bool)
    ensures b <==> f.Present? && !readFails && f.config.installed && f.config.adminEmail != ""
  {
    match ReadConfig(f, readFails)
    case None => false
    case Some(c) => c.installed && c.adminEmail != ""
  }

  /**
   * The object writeConfig serialises: the caller's fields with `installed`,
   * `installedAt` and `version` overridden, whatever the caller put there.
   */
  function WithMeta(c: Config, now: string): (r: Config)
    ensures r.adminEmail == c.adminEmail && r.usageContext == c.usageContext && r.loginMethod == c.loginMethod
    ensures r.installed && r.installedAt == now && r.version == Version
  {
    c.(installed := true, installedAt := now, version := Version)
  }

  /** The file holding the installation record. */
  class Store {
    var file: FileState

    constructor (initial: FileState)
      ensures file == initial
    {
      file := initial;
    }

    /**
     * writeConfig: a full overwrite of the record with the metadata stamped on.
     * `fails` says that `mkdirSync` or `writeFileSync` throws; the method then
     * returns false and the file is as it was.
     */
    method WriteConfig(c: Config, now: string, fails: bool) returns (ok: bool)
      modifies this
      ensures ok == !fails
      ensures file == if ok then Present(WithMeta(c, now)) else old(file)
    {
      if fails {
        ok := false;
      } else {
        file := Present(WithMeta(c, now));
        ok := true;
      }
    }

    /**
     * resetConfig: deletes the file when it exists. `fails` says that
     * `unlinkSync` throws; when there is no file nothing is attempted, so the
     * reset succeeds whatever `fails` says.
     */
    method ResetConfig(fails: bool) returns (ok: bool)
      modifies this
      ensures ok == (old(file) == Missing || !fails)
      ensures file == if ok then Missing else old(file)
      ensures ok ==> forall readFails :: !IsInstalled(file, readFails)
    {
      if file != Missing {
        if fails {
          return false;
        }
        file := Missing;
      }
      ok := true;
    }
  }

  /**
   * Without a file, with one that does not parse, or when the read throws,
   * nothing is read and nothing is installed.
   */
  lemma NoRecordNotInstalled(f: FileState, readFails: bool)
    requires f == Missing || f == Unreadable || readFails
    ensures ReadConfig(f, readFails) == None && !IsInstalled(f, readFails)
  {
  }

  /**
   * What writeConfig stores is read back unchanged by a read that does not
   * throw, and it counts as installed iff its adminEmail is non-empty.
   */
  lemma WriteThenRead(c: Config, now: string)
    ensures ReadConfig(Present(WithMeta(c, now)), false) == Some(WithMeta(c, now))
    ensures IsInstalled(Present(WithMeta(c, now)), false) <==> c.adminEmail != ""
  {
  }
}
