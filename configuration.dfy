/** Configuration: the connection settings (server, username, password) kept
    in a registry under three distinct keys. */
module Config {
  import opened Wrappers
  import C = Constants

  /** The three registry keys are pairwise distinct, so each setter touches
      only its own entry. */
  lemma ConnectionKeysDistinct()
    ensures C.CONNECTION_SERVER != C.CONNECTION_USERNAME
    ensures C.CONNECTION_SERVER != C.CONNECTION_PASSWORD
    ensures C.CONNECTION_USERNAME != C.CONNECTION_PASSWORD
  {
  }

  class Configuration {
    var registry: map<string, string>

    /** A new configuration starts from a fresh, empty registry. */
    constructor ()
      ensures registry == map[]
      ensures GetServer() == None && GetUsername() == None && GetPassword() == None
    {
      registry := map[];
    }

    /** registry.getEntryValue: the value under a key, or null. */
    function EntryValue(key: string): (r: Option<string>)
      reads this
      ensures r.Some? <==> key in registry
      ensures r.Some? ==> r.value == registry[key]
    {
      if key in registry then Some(registry[key]) else None
    }

    /** getServer: the registry entry under the server key, or null. */
    function GetServer(): (r: Option<string>)
      reads this
      ensures r.Some? <==> C.CONNECTION_SERVER in registry
      ensures r.Some? ==> r.value == registry[C.CONNECTION_SERVER]
    {
      EntryValue(C.CONNECTION_SERVER)
    }

    /** getUsername: the registry entry under the username key, or null. */
    function GetUsername(): (r: Option<string>)
      reads this
      ensures r.Some? <==> C.CONNECTION_USERNAME in registry
      ensures r.Some? ==> r.value == registry[C.CONNECTION_USERNAME]
    {
      EntryValue(C.CONNECTION_USERNAME)
    }

    /** getPassword: the registry entry under the password key, or null. */
    function GetPassword(): (r: Option<string>)
      reads this
      ensures r.Some? <==> C.CONNECTION_PASSWORD in registry
      ensures r.Some? ==> r.value == registry[C.CONNECTION_PASSWORD]
    {
      EntryValue(C.CONNECTION_PASSWORD)
    }

    /** setServer: the latest server wins; the other settings stay. */
    method SetServer(server: string)
      modifies this
      ensures registry == old(registry)[C.CONNECTION_SERVER := server]
      ensures GetServer() == Some(server)
      ensures GetUsername() == old(GetUsername()) && GetPassword() == old(GetPassword())
    {
      ConnectionKeysDistinct();
      registry := registry[C.CONNECTION_SERVER := server];
    }

    /** setUsername: the latest username wins; the other settings stay. */
    method SetUsername(username: string)
      modifies this
      ensures registry == old(registry)[C.CONNECTION_USERNAME := username]
      ensures GetUsername() == Some(username)
      ensures GetServer() == old(GetServer()) && GetPassword() == old(GetPassword())
    {
      ConnectionKeysDistinct();
      registry := registry[C.CONNECTION_USERNAME := username];
    }

    /** setPassword: the latest password wins; the other settings stay. */
    method SetPassword(password: string)
      modifies this
      ensures registry == old(registry)[C.CONNECTION_PASSWORD := password]
      ensures GetPassword() == Some(password)
      ensures GetServer() == old(GetServer()) && GetUsername() == old(GetUsername())
    {
      ConnectionKeysDistinct();
      registry := registry[C.CONNECTION_PASSWORD := password];
    }

    /** configure: the three setters in sequence; all three settings hold the
        new values and no other registry entry changes. */
    method Configure(username: string, password: string, server: string)
      modifies this
      ensures GetUsername() == Some(username) && GetPassword() == Some(password) && GetServer() == Some(server)
      ensures registry == old(registry)[C.CONNECTION_USERNAME := username][C.CONNECTION_PASSWORD := password][C.CONNECTION_SERVER := server]
    {
      SetUsername(username);
      SetPassword(password);
      SetServer(server);
    }
  }
}
