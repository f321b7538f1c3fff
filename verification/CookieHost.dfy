/** Which profile a client rides (app/src/cookies.ts): the host pushes a profile per root, child clients
    inherit their root, and leaving a session profile drops its cookies. */
module CookieHost {
  import opened Common
  import opened CookieProfiles
  import opened CookieJar
  import opened UriText

  class ProfileTable {
    const jar: CookieJar
    var profile: string
    var rootProfiles: map<string, string>
    var clientRoots: map<string, string>
    var unboundClients: set<string>
    var restoreFailed: bool
    var globalAssigned: bool

    /** Roots have names. */
    ghost predicate Valid()
      reads this, jar
    {
      && jar.Valid()
      && (forall c <- clientRoots :: clientRoots[c] != "")
      && "" !in rootProfiles && "" !in clientRoots
    }

    constructor (j: CookieJar)
      requires j.Valid()
      ensures Valid() && jar == j && profile == DEFAULT
      ensures rootProfiles == map[] && clientRoots == map[] && unboundClients == {}
      ensures !restoreFailed && !globalAssigned
    {
      jar, profile := j, DEFAULT;
      rootProfiles, clientRoots, unboundClients := map[], map[], {};
      restoreFailed, globalAssigned := false, false;
    }

    /** No client, and no root, is the empty string. */
    function RootOf(client: string): string
      reads this
    {
      if client == "" then ""
      else if client in clientRoots then clientRoots[client]
      else if client in rootProfiles then client else ""
    }

    predicate AnySession()
      reads this
    {
      profile != DEFAULT || exists root <- rootProfiles :: rootProfiles[root] != DEFAULT
    }

    function ActiveProfile(client: string): string
      reads this
    {
      var root := RootOf(client);
      if root != "" then
        if root in rootProfiles then rootProfiles[root]
        else if restoreFailed || AnySession() then UNBOUND else DEFAULT
      else if client != "" && client in unboundClients then UNBOUND
      else if restoreFailed && !globalAssigned then UNBOUND
      else profile
    }

    function NamespaceForClient(client: string): string
      reads this
    {
      Namespace(ActiveProfile(client), RootOf(client))
    }

    /** A client that is marked unclaimed never reads the shared default jar, nor does one whose root lost its profile
        while a session profile is active somewhere or the bindings could not be restored, nor, in that last case,
        any client without a root until the host selects a profile for everyone. */
    lemma FailsClosed(client: string)
      requires Valid() && client != ""
      requires if RootOf(client) == "" then client in unboundClients || (restoreFailed && !globalAssigned)
               else RootOf(client) !in rootProfiles && (AnySession() || restoreFailed)
      ensures NamespaceForClient(client) != DEFAULT
      ensures forall other: string ::
        ActiveProfile(other) != UNBOUND ==> NamespaceForClient(client) != NamespaceForClient(other)
    {
      hide Namespace;
      forall other: string
        ensures ActiveProfile(other) != UNBOUND ==> NamespaceForClient(client) != NamespaceForClient(other)
      {
        NamespacesDistinct(ActiveProfile(client), RootOf(client), ActiveProfile(other), RootOf(other));
      }
      NamespacesDistinct(ActiveProfile(client), RootOf(client), DEFAULT, "");
      assert Namespace(DEFAULT, "") == DEFAULT by {
        DefaultName();
      }
    }

    /** Without a session profile anywhere every client that is not marked rides the one durable jar. */
    lemma RidesTheDefault(client: string)
      requires Valid() && !AnySession() && !restoreFailed && client !in unboundClients
      ensures NamespaceForClient(client) == DEFAULT
    {
      DefaultName();
    }

    /** The host selects a profile for a client's root, or for everyone when it names no client. */
    method SetJarProfile(p: Option<string>, client: string) returns (name: string)
      requires Valid()
      modifies this, jar
      ensures Valid() && name == Requested(p) && ActiveProfile(client) == name
      ensures p.Some? && 1 <= Width(p.value) <= 64 && '\0' !in p.value ==> name == p.value
      ensures p.None? || !(1 <= Width(p.value) <= 64) || '\0' in p.value ==> name == "default"
      ensures client != "" ==> RootOf(client) == old(SwitchRoot(client))
      ensures client != "" && old(SwitchRoot(client) !in clientRoots) ==> ActiveProfile(old(SwitchRoot(client))) == name
      ensures client == "" ==> profile == name && globalAssigned
      ensures var root := old(SwitchRoot(client)); var prev := old(SwitchFrom(client));
        && SameOutside(old(jar.jars), jar.jars, Namespace(prev, root))
        && (prev == DEFAULT || prev == name ==> jar.jars == old(jar.jars))
        && (prev != DEFAULT && prev != name ==> Stored(jar.jars, Namespace(prev, root)) == {})
      ensures client != "" ==>
        && rootProfiles == old(rootProfiles)[old(SwitchRoot(client)) := name]
        && clientRoots == old(clientRoots)[client := old(SwitchRoot(client))]
        && profile == old(profile) && globalAssigned == old(globalAssigned)
      ensures client == "" ==> rootProfiles == old(rootProfiles) && clientRoots == old(clientRoots)
      ensures unboundClients == old(unboundClients) && restoreFailed == old(restoreFailed)
    {
      RequestedMeaning(p);
      hide Namespace, Requested, Stored;
      name := Requested(p);
      var root := SwitchRoot(client);
      var prev := SwitchFrom(client);
      Bind(client, root, name);
      hide RootOf, ActiveProfile;
      Leave(prev, root, name);
    }

    method Bind(client: string, root: string, name: string)
      requires root == SwitchRoot(client)
      modifies this`rootProfiles, this`clientRoots, this`profile, this`globalAssigned
      ensures ActiveProfile(client) == name && (client != "" ==> RootOf(client) == root && root != "")
      ensures client == "" ==> profile == name && globalAssigned
      ensures client != "" && root !in old(clientRoots) ==> ActiveProfile(root) == name
      ensures client == "" ==> rootProfiles == old(rootProfiles) && clientRoots == old(clientRoots)
      ensures client != "" ==> profile == old(profile) && globalAssigned == old(globalAssigned)
      ensures client != "" ==> rootProfiles == old(rootProfiles)[root := name] && clientRoots == old(clientRoots)[client := root]
    {
      if client != "" {
        rootProfiles := rootProfiles[root := name];
        clientRoots := clientRoots[client := root];
      } else {
        globalAssigned, profile := true, name;
      }
    }

    /** A session profile that is left takes its cookies with it. */
    method Leave(prev: string, root: string, name: string)
      requires jar.Valid()
      modifies jar
      ensures jar.Valid() && SameOutside(old(jar.jars), jar.jars, Namespace(prev, root))
      ensures prev == DEFAULT || prev == name ==> jar.jars == old(jar.jars)
      ensures prev != DEFAULT && prev != name ==> Stored(jar.jars, Namespace(prev, root)) == {}
    {
      hide Namespace, Stored;
      if prev != DEFAULT && prev != name {
        jar.ClearNamespace(prev, root);
      }
    }

    function SwitchRoot(client: string): string
      reads this
    {
      if client == "" then "" else if RootOf(client) != "" then RootOf(client) else client
    }

    /** The profile a switch leaves. */
    function SwitchFrom(client: string): string
      reads this
    {
      if client == "" then profile
      else if SwitchRoot(client) in rootProfiles then rootProfiles[SwitchRoot(client)] else DEFAULT
    }
  }

  lemma RequestedMeaning(p: Option<string>)
    ensures p.Some? && 1 <= Width(p.value) <= 64 && '\0' !in p.value ==> Requested(p) == p.value
    ensures p.None? || !(1 <= Width(p.value) <= 64) || '\0' in p.value ==> Requested(p) == "default"
  {
  }

  lemma DefaultName()
    ensures Namespace(DEFAULT, "") == DEFAULT
  {
  }

  /** A name of 1 to 64 code units without the separator; anything else asks for the default profile. */
  function Requested(p: Option<string>): (name: string)
    ensures 0 < Width(name) <= 64 && SEP !in name
  {
    if p.Some? && 0 < Width(p.value) <= 64 && SEP !in p.value then p.value else DEFAULT
  }
}
