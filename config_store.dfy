/**
 * The configuration files of the console: saved SSH profiles (a list keyed by name),
 * per-container deployment settings (a list keyed by container and environment) and MySQL
 * credentials (a dictionary keyed by container). Each save loads the file, changes the loaded
 * collection and writes it back; a file that is missing, unreadable or holds `null` loads as
 * an empty collection.
 */
module ConfigStore {
  import opened Wrappers
  import opened Models

  /** What a configuration file holds. */
  datatype Stored<T> = Missing | Unreadable | Null | Present(value: T)

  /** Loading a file: its collection when it has one, the empty one otherwise. */
  function Load<T>(file: Stored<T>, empty: T): (r: T)
    ensures file.Present? ==> r == file.value
    ensures !file.Present? ==> r == empty
  {
    if file.Present? then file.value else empty
  }

  // ---------------------------------------------------------------------------------------
  // SSH profiles, keyed by name

  predicate NamesUnique(profiles: seq<SshProfile>) {
    forall i, j | 0 <= i < j < |profiles| :: profiles[i].name != profiles[j].name
  }

  /** The position of the first profile with a name. */
  function FindByName(profiles: seq<SshProfile>, name: string): (r: Option<nat>)
    ensures r.Some? ==> r.value < |profiles| && profiles[r.value].name == name
    ensures r.Some? ==> forall j | 0 <= j < r.value :: profiles[j].name != name
    ensures r.None? <==> forall j | 0 <= j < |profiles| :: profiles[j].name != name
  {
    if |profiles| == 0 then None
    else if profiles[0].name == name then Some(0)
    else
      var r := FindByName(profiles[1..], name);
      assert forall j | 1 <= j < |profiles| :: profiles[j] == profiles[1..][j - 1];
      if r.Some? then Some(r.value + 1) else None
  }

  /**
   * Saving a profile: it replaces the first profile with its name, keeping every other
   * profile in place, or is appended when the name is new.
   */
  function UpsertByName(profiles: seq<SshProfile>, p: SshProfile): (r: seq<SshProfile>)
    ensures var i := FindByName(profiles, p.name);
      && |r| == |profiles| + (if i.Some? then 0 else 1)
      && (i.Some? ==> r[i.value] == p && forall k | 0 <= k < |profiles| && k != i.value :: r[k] == profiles[k])
      && (i.None? ==> r[..|profiles|] == profiles && r[|profiles|] == p)
  {
    var i := FindByName(profiles, p.name);
    if i.Some? then profiles[i.value := p] else profiles + [p]
  }

  /**
   * A file that is missing, unreadable or null loads as empty, so the first save over it
   * writes back the one saved profile and drops whatever the file held.
   */
  lemma SaveOverEmptyLoad(file: Stored<seq<SshProfile>>, p: SshProfile)
    requires !file.Present?
    ensures UpsertByName(Load(file, []), p) == [p]
  {
    assert FindByName([], p.name) == None;
  }

  /** Names that were unique stay unique, and the saved profile is the one found by its name. */
  lemma UpsertKeepsNamesUnique(profiles: seq<SshProfile>, p: SshProfile)
    requires NamesUnique(profiles)
    ensures NamesUnique(UpsertByName(profiles, p))
    ensures var r := UpsertByName(profiles, p);
      FindByName(r, p.name).Some? && r[FindByName(r, p.name).value] == p
  {
    var r := UpsertByName(profiles, p);
    var i := FindByName(profiles, p.name);
    var at := if i.Some? then i.value else |profiles|;
    assert |r| == |profiles| + (if i.Some? then 0 else 1);
    assert forall k | 0 <= k < |r| :: r[k].name == (if k < |profiles| then profiles[k].name else p.name);
    assert r[at] == p;
    assert NamesUnique(r);
    var found := FindByName(r, p.name);
    assert found == Some(at);
  }

  /** Deleting by name: every profile with the name goes, the rest stay in order. */
  function RemoveByName(profiles: seq<SshProfile>, name: string): (r: seq<SshProfile>)
    ensures |r| <= |profiles|
  {
    if |profiles| == 0 then []
    else (if profiles[0].name == name then [] else [profiles[0]]) + RemoveByName(profiles[1..], name)
  }

  /** Exactly the profiles with other names remain. */
  lemma {:induction false} RemoveByNameMembers(profiles: seq<SshProfile>, name: string)
    ensures forall x :: x in RemoveByName(profiles, name) <==> x in profiles && x.name != name
  {
    if |profiles| > 0 {
      RemoveByNameMembers(profiles[1..], name);
      assert profiles == [profiles[0]] + profiles[1..];
    }
  }

  /** Deleting works element by element, so the order of what remains is the original order. */
  lemma {:induction false} RemoveByNameConcat(a: seq<SshProfile>, b: seq<SshProfile>, name: string)
    ensures RemoveByName(a + b, name) == RemoveByName(a, name) + RemoveByName(b, name)
  {
    if |a| > 0 {
      RemoveByNameConcat(a[1..], b, name);
      assert (a + b)[1..] == a[1..] + b;
    } else {
      assert a + b == b;
    }
  }

  /** Deleting a name that is not there changes nothing. */
  lemma {:induction false} RemoveByNameAbsent(profiles: seq<SshProfile>, name: string)
    requires FindByName(profiles, name).None?
    ensures RemoveByName(profiles, name) == profiles
  {
    if |profiles| > 0 {
      assert forall j | 0 <= j < |profiles| - 1 :: profiles[1..][j] == profiles[j + 1];
      RemoveByNameAbsent(profiles[1..], name);
    }
  }

  /** Deleting twice is deleting once. */
  lemma RemoveByNameIdempotent(profiles: seq<SshProfile>, name: string)
    ensures RemoveByName(RemoveByName(profiles, name), name) == RemoveByName(profiles, name)
  {
    var r := RemoveByName(profiles, name);
    RemoveByNameMembers(profiles, name);
    assert forall j | 0 <= j < |r| :: r[j] in r;
    RemoveByNameAbsent(r, name);
  }

  // ---------------------------------------------------------------------------------------
  // Deployment settings, keyed by container and environment

  predicate SameKey(c: DeployConfig, containerId: string, environment: string) {
    c.containerId == containerId && c.environment == environment
  }

  predicate KeysUnique(configs: seq<DeployConfig>) {
    forall i, j | 0 <= i < j < |configs| ::
      !SameKey(configs[j], configs[i].containerId, configs[i].environment)
  }

  /** The position of the first settings for a container and environment. */
  function FindByKey(configs: seq<DeployConfig>, containerId: string, environment: string): (r: Option<nat>)
    ensures r.Some? ==> r.value < |configs| && SameKey(configs[r.value], containerId, environment)
    ensures r.Some? ==> forall j | 0 <= j < r.value :: !SameKey(configs[j], containerId, environment)
    ensures r.None? <==> forall j | 0 <= j < |configs| :: !SameKey(configs[j], containerId, environment)
  {
    if |configs| == 0 then None
    else if SameKey(configs[0], containerId, environment) then Some(0)
    else
      var r := FindByKey(configs[1..], containerId, environment);
      assert forall j | 1 <= j < |configs| :: configs[j] == configs[1..][j - 1];
      if r.Some? then Some(r.value + 1) else None
  }

  /** The last settings used for a container and environment: the first match, or none. */
  function LoadLastDeployConfig(file: Stored<seq<DeployConfig>>, containerId: string, environment: string)
    : (r: Option<DeployConfig>)
    ensures var configs := Load(file, []);
      var i := FindByKey(configs, containerId, environment);
      && (r.Some? <==> i.Some?)
      && (r.Some? ==> r.value == configs[i.value])
  {
    var configs := Load(file, []);
    var i := FindByKey(configs, containerId, environment);
    if i.Some? then Some(configs[i.value]) else None
  }

  /**
   * Saving settings: the first entry with the same key (if any) is removed, the others keep
   * their order, and the new settings are appended.
   */
  function SaveDeploy(configs: seq<DeployConfig>, c: DeployConfig): (r: seq<DeployConfig>)
    ensures var i := FindByKey(configs, c.containerId, c.environment);
      && |r| == |configs| + (if i.Some? then 0 else 1)
      && r[|r| - 1] == c
      && (i.Some? ==> r[..|r| - 1] == configs[..i.value] + configs[i.value + 1..])
      && (i.None? ==> r[..|r| - 1] == configs)
  {
    Kept(configs, c) + [c]
  }

  /** The entries that stay behind when settings are saved. */
  function Kept(configs: seq<DeployConfig>, c: DeployConfig): seq<DeployConfig> {
    var i := FindByKey(configs, c.containerId, c.environment);
    if i.Some? then configs[..i.value] + configs[i.value + 1..] else configs
  }

  /** With unique keys, what stays behind still has unique keys and none of them is the saved key. */
  lemma KeptAvoidsKey(configs: seq<DeployConfig>, c: DeployConfig)
    requires KeysUnique(configs)
    ensures KeysUnique(Kept(configs, c))
    ensures forall k | 0 <= k < |Kept(configs, c)| :: !SameKey(Kept(configs, c)[k], c.containerId, c.environment)
  {
    var i := FindByKey(configs, c.containerId, c.environment);
    var kept := Kept(configs, c);
    if i.Some? {
      assert forall k | 0 <= k < |kept| :: kept[k] == configs[if k < i.value then k else k + 1];
    }
  }

  /** With unique keys before, keys stay unique, and looking the key up returns the saved settings. */
  lemma SaveDeployThenLoad(configs: seq<DeployConfig>, c: DeployConfig)
    requires KeysUnique(configs)
    ensures KeysUnique(SaveDeploy(configs, c))
    ensures LoadLastDeployConfig(Present(SaveDeploy(configs, c)), c.containerId, c.environment) == Some(c)
  {
    var r := SaveDeploy(configs, c);
    var kept := Kept(configs, c);
    assert r == kept + [c];
    KeptAvoidsKey(configs, c);
    assert forall k | 0 <= k < |kept| :: r[k] == kept[k];
    assert SameKey(r[|kept|], c.containerId, c.environment);
    var found := FindByKey(r, c.containerId, c.environment);
    assert found == Some(|kept|);
  }

  // ---------------------------------------------------------------------------------------
  // The files

  /** The three configuration files. */
  class Files {
    var ssh: Stored<seq<SshProfile>>
    var deploy: Stored<seq<DeployConfig>>
    var mysql: Stored<map<string, MySqlConfig>>

    constructor (ssh: Stored<seq<SshProfile>>, deploy: Stored<seq<DeployConfig>>, mysql: Stored<map<string, MySqlConfig>>)
      ensures this.ssh == ssh && this.deploy == deploy && this.mysql == mysql
    {
      this.ssh, this.deploy, this.mysql := ssh, deploy, mysql;
    }

    /** The saved SSH profiles, or none when the file has none. */
    function LoadSshConfigs(): seq<SshProfile>
      reads this
    {
      Load(ssh, [])
    }

    /** The saved deployment settings, or none when the file has none. */
    function LoadDeployConfigs(): seq<DeployConfig>
      reads this
    {
      Load(deploy, [])
    }

    /** The saved MySQL credentials, or none when the file has none. */
    function LoadMySqlConfigs(): map<string, MySqlConfig>
      reads this
    {
      Load(mysql, map[])
    }

    /** Saving MySQL credentials: the entry of their container is set, every other entry kept. */
    method SaveMySqlConfig(c: MySqlConfig)
      modifies this`mysql
      ensures mysql == Present(old(LoadMySqlConfigs())[c.containerId := c])
      ensures forall k | k in old(LoadMySqlConfigs()) && k != c.containerId ::
        k in LoadMySqlConfigs() && LoadMySqlConfigs()[k] == old(LoadMySqlConfigs())[k]
    {
      var configs := LoadMySqlConfigs();
      configs := configs[c.containerId := c];
      mysql := Present(configs);
    }

    /** Saving an SSH profile: replaces the first one with its name in place, or appends it. */
    method SaveSshConfig(p: SshProfile)
      modifies this`ssh
      ensures ssh == Present(UpsertByName(old(LoadSshConfigs()), p))
      ensures !old(ssh).Present? ==> ssh == Present([p])
    {
      var configs := LoadSshConfigs();
      var i := 0;
      while i < |configs| && configs[i].name != p.name
        invariant 0 <= i <= |configs|
        invariant forall j | 0 <= j < i :: configs[j].name != p.name
      {
        i := i + 1;
      }
      if i < |configs| {
        configs := configs[i := p];
      } else {
        configs := configs + [p];
      }
      ssh := Present(configs);
      if !old(ssh).Present? {
        SaveOverEmptyLoad(old(ssh), p);
      }
    }

    /** Deleting SSH profiles: every one with the name is removed. */
    method DeleteSshConfig(name: string)
      modifies this`ssh
      ensures ssh == Present(RemoveByName(old(LoadSshConfigs()), name))
    {
      var configs := LoadSshConfigs();
      var kept: seq<SshProfile> := [];
      var i := 0;
      while i < |configs|
        invariant 0 <= i <= |configs|
        invariant kept == RemoveByName(configs[..i], name)
      {
        RemoveByNameConcat(configs[..i], [configs[i]], name);
        assert configs[..i + 1] == configs[..i] + [configs[i]];
        if configs[i].name != name {
          kept := kept + [configs[i]];
        }
        i := i + 1;
      }
      assert configs[..i] == configs;
      ssh := Present(kept);
    }

    /** Saving deployment settings: the first with the same key is removed, the new ones appended. */
    method SaveDeployConfig(c: DeployConfig)
      modifies this`deploy
      ensures deploy == Present(SaveDeploy(old(LoadDeployConfigs()), c))
    {
      var configs := LoadDeployConfigs();
      var i := 0;
      while i < |configs| && !(configs[i].containerId == c.containerId && configs[i].environment == c.environment)
        invariant 0 <= i <= |configs|
        invariant forall j | 0 <= j < i :: !SameKey(configs[j], c.containerId, c.environment)
      {
        i := i + 1;
      }
      if i < |configs| {
        configs := configs[..i] + configs[i + 1..];
      }
      configs := configs + [c];
      deploy := Present(configs);
    }
  }
}
