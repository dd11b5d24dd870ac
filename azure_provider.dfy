/**
 The Azure blob-storage provider: resolving an account name from a `host:port` authority,
 wrapping a proposed drive as an Azure drive, and registering the default drives.

 The host's drive objects (PSDriveInfo) and the provider's own drive type (AzureDriveInfo) are
 values here: a drive of another provider is `OtherDrive`, and an Azure drive records which of
 AzureDriveInfo's constructors built it, since what those constructors do is not part of this
 model. The collection of drives being added is an object that the provider appends to in place.
 */
module AzureProvider {
  import opened Wrappers
  import AccountPattern

  /** The host's ProviderInfo object for this provider, known here only by its identity. */
  datatype ProviderHandle = ProviderHandle(id: nat)

  /** A PSDriveInfo: either a drive of some other type, or an AzureDriveInfo. */
  datatype Drive =
    | OtherDrive(name: string, root: string, description: string)
    | AzureDrive(info: AzureDriveInfo)

  /** An AzureDriveInfo, recorded by the constructor call that built it. */
  datatype AzureDriveInfo =
      /** `new AzureDriveInfo(drive)`: wraps a proposed drive. */
    | Wrapping(drive: Drive)
      /** `new AzureDriveInfo(name, provider, root, description, null)`: no credential. */
    | Described(name: string, provider: ProviderHandle, root: string, description: string)
      /** `new AzureDriveInfo(alias, provider)`: the drive for one configured alias. */
    | ForAlias(alias: string, provider: ProviderHandle)

  /**
   GetAccountFromHostAndPort: the `account` group of the first match of the pattern
   `(?<account>\w+).blob.core.windows.net(?::\d+)?`, or None (the C# `null`) when it matches
   nowhere. `word` is the engine's `\w` class.
   */
  function GetAccountFromHostAndPort(word: char -> bool, hostAndPort: string): (r: Option<string>)
    ensures r.None? <==> !AccountPattern.Matches(AccountPattern.AsWritten(word), hostAndPort)
    ensures r.Some? ==> exists i: nat, e: nat ::
      && AccountPattern.Reported(AccountPattern.AsWritten(word), hostAndPort, i, e)
      && r.value == hostAndPort[i..e]
  {
    AccountPattern.Account(AccountPattern.AsWritten(word), hostAndPort)
  }

  /** The usual authority strings: the account comes back verbatim, with or without a port. */
  lemma AccountFromAuthority(word: char -> bool, account: string, port: string)
    requires |account| > 0 && forall k :: 0 <= k < |account| ==> word(account[k])
    requires !word('.')
    ensures GetAccountFromHostAndPort(word, account + ".blob.core.windows.net") == Some(account)
    ensures GetAccountFromHostAndPort(word, account + ".blob.core.windows.net" + ":" + port) == Some(account)
  {
    var p, suffix := AccountPattern.AsWritten(word), ".blob.core.windows.net";
    AccountPattern.AccountOfCanonicalAuthority(p, account, "");
    assert account + suffix + "" == account + suffix;
    AccountPattern.AccountOfCanonicalAuthority(p, account, ":" + port);
    Associative(account + suffix, ":", port);
  }

  /** Proof step for AccountFromAuthority: regroups the port after the suffix. */
  lemma Associative(a: string, b: string, c: string)
    ensures a + b + c == a + (b + c)
  {
  }

  /** An authority that is not a blob-storage endpoint has no account. */
  lemma NoAccountForOtherHosts(word: char -> bool)
    ensures GetAccountFromHostAndPort(word, "notblobstorage.example.com") == None
  {
    var p, s := AccountPattern.AsWritten(word), "notblobstorage.example.com";
    forall e: nat
      ensures !AccountPattern.SuffixAt(p, s, e)
    {
      if e + AccountPattern.SuffixLength <= |s| && e >= 2 {
        assert s[e + 6..e + 10][0] == s[e + 6] != 'c';
      } else if e + AccountPattern.SuffixLength <= |s| {
        assert s[e + 1..e + 5][0] == s[e + 1] != 'b';
      }
    }
    assert !AccountPattern.Matches(p, s);
  }

  /**
   NewDrive: a drive that is already an AzureDriveInfo is passed through unchanged; any other
   drive is wrapped in a new AzureDriveInfo. The result is always an Azure drive.
   */
  function NewDrive(drive: Drive): (r: Drive)
    ensures r.AzureDrive?
    ensures drive.AzureDrive? ==> r == drive
    ensures drive.OtherDrive? ==> r.info == Wrapping(drive)
  {
    if drive.AzureDrive? then drive else AzureDrive(Wrapping(drive))
  }

  /** Wrapping is done at most once: a second NewDrive changes nothing. */
  lemma NewDriveIdempotent(drive: Drive)
    ensures NewDrive(NewDrive(drive)) == NewDrive(drive)
  {
  }

  /** The root drive: named after the provider scheme, with an empty root and no credential. */
  function RootDrive(scheme: string, provider: ProviderHandle): Drive {
    AzureDrive(Described(scheme, provider, "", "Azure namespace"))
  }

  /** The drive built for one alias. */
  function AliasDrive(alias: string, provider: ProviderHandle): Drive {
    AzureDrive(ForAlias(alias, provider))
  }

  /** One alias drive per alias, in the order of the aliases. */
  function AliasDrives(aliases: seq<string>, provider: ProviderHandle): (r: seq<Drive>)
    ensures |r| == |aliases|
    ensures forall k :: 0 <= k < |aliases| ==> r[k] == AliasDrive(aliases[k], provider)
  {
    if aliases == [] then []
    else AliasDrives(aliases[..|aliases| - 1], provider) + [AliasDrive(aliases[|aliases| - 1], provider)]
  }

  /** The drives InitializeDefaultDrives adds: the root drive first, then the alias drives. */
  function DefaultDrives(scheme: string, provider: ProviderHandle, aliases: seq<string>): (r: seq<Drive>)
    ensures |r| == 1 + |aliases|
    ensures r[0] == RootDrive(scheme, provider)
    ensures r[0].info.name == scheme && r[0].info.root == "" && r[0].info.description == "Azure namespace"
    ensures forall k :: 0 <= k < |aliases| ==> r[k + 1] == AliasDrive(aliases[k], provider)
  {
    [RootDrive(scheme, provider)] + AliasDrives(aliases, provider)
  }

  /** Two aliases give three drives, in this exact order. */
  lemma DefaultDrivesForTwoAliases(provider: ProviderHandle)
    ensures DefaultDrives("Azure", provider, ["a1", "a2"]) ==
      [ AzureDrive(Described("Azure", provider, "", "Azure namespace")),
        AzureDrive(ForAlias("a1", provider)),
        AzureDrive(ForAlias("a2", provider)) ]
  {
    var r := DefaultDrives("Azure", provider, ["a1", "a2"]);
    assert r[1] == AliasDrive(["a1", "a2"][0], provider);
    assert r[2] == AliasDrive(["a1", "a2"][1], provider);
  }

  /** A Collection<PSDriveInfo>, appended to in place. */
  class DriveCollection {
    var items: seq<Drive>

    constructor (items: seq<Drive>)
      ensures this.items == items
    {
      this.items := items;
    }

    /** Collection.Add: appends one drive at the end. */
    method Add(drive: Drive)
      modifies this
      ensures items == old(items) + [drive]
    {
      items := items + [drive];
    }
  }

  /** The provider-wide state: the shared collection of drives to add, and the configured aliases. */
  class UniversalProviderInfo {
    const addingDrives: DriveCollection
    var aliases: seq<string>

    constructor (addingDrives: DriveCollection, aliases: seq<string>)
      ensures this.addingDrives == addingDrives && this.aliases == aliases
    {
      this.addingDrives := addingDrives;
      this.aliases := aliases;
    }
  }

  /** The provider object, with what its drive operations read: its ProviderInfo and UniversalProviderInfo. */
  class AzureProvider {
    /** The host's ProviderInfo for this provider. */
    const providerInfo: ProviderHandle
    /** The provider-wide state shared with the host. */
    const universalProviderInfo: UniversalProviderInfo
    /** AzureDriveInfo.ProviderScheme, the name of the root drive. */
    const providerScheme: string

    constructor (providerInfo: ProviderHandle, universalProviderInfo: UniversalProviderInfo, providerScheme: string)
      ensures this.providerInfo == providerInfo
      ensures this.universalProviderInfo == universalProviderInfo
      ensures this.providerScheme == providerScheme
    {
      this.providerInfo := providerInfo;
      this.universalProviderInfo := universalProviderInfo;
      this.providerScheme := providerScheme;
    }

    /**
     InitializeDefaultDrives: appends the root drive and then one drive per alias to the shared
     collection, keeping whatever it held before, and returns that same collection.
     */
    method InitializeDefaultDrives() returns (drives: DriveCollection)
      modifies universalProviderInfo.addingDrives
      ensures drives == universalProviderInfo.addingDrives
      ensures drives.items ==
        old(universalProviderInfo.addingDrives.items)
        + DefaultDrives(providerScheme, providerInfo, universalProviderInfo.aliases)
      ensures universalProviderInfo.aliases == old(universalProviderInfo.aliases)
    {
      var adding := universalProviderInfo.addingDrives;
      var rootDrive := RootDrive(providerScheme, providerInfo);
      adding.Add(rootDrive);
      var aliases := universalProviderInfo.aliases;
      for i := 0 to |aliases|
        invariant adding.items == old(adding.items) + [rootDrive] + AliasDrives(aliases[..i], providerInfo)
      {
        adding.Add(AliasDrive(aliases[i], providerInfo));
        assert aliases[..i + 1][..i] == aliases[..i];
      }
      assert aliases[..|aliases|] == aliases;
      drives := adding;
    }
  }

  /**
   InitializeDefaultDrives does not clear the shared collection: a second call appends a second
   copy of the default drives after the first.
   */
  method InitializeDefaultDrivesTwice(provider: AzureProvider)
    modifies provider.universalProviderInfo.addingDrives
    ensures
      var defaults := DefaultDrives(provider.providerScheme, provider.providerInfo, provider.universalProviderInfo.aliases);
      provider.universalProviderInfo.addingDrives.items ==
        old(provider.universalProviderInfo.addingDrives.items) + defaults + defaults
  {
    var first := provider.InitializeDefaultDrives();
    var second := provider.InitializeDefaultDrives();
    assert first == second;
  }
}
