/** The storage-service factory (src/py42/services/storage/_service_factory.py):
    the per-URL cache of storage connections kept by ConnectionManager, and
    the destination defaulting of StorageServiceFactory.create_archive_service.

    Network calls are parameters: what a temporary-auth object's
    get_storage_url answers is carried by the auth value itself (None: it
    raised), what the device service answers is a function of the device
    guid, and whether Connection.from_host_address raises is left open. */
module StorageFactory {
  import opened Wrappers

  type Url = string
  type Guid = string

  // ---------------------------------------------------------------------------
  // Case folding of URLs.

  /** str.lower() on one character (ASCII letters only). */
  function LowerChar(c: char): (r: char)
    ensures 'A' <= c <= 'Z' ==> 'a' <= r <= 'z' && r as int - c as int == 'a' as int - 'A' as int
    ensures !('A' <= c <= 'Z') ==> r == c
    ensures !('A' <= r <= 'Z')
  {
    if 'A' <= c <= 'Z' then (c as int - 'A' as int + 'a' as int) as char else c
  }

  /** str.lower(). */
  function Lower(s: string): (r: string)
    ensures |r| == |s|
    ensures forall i :: 0 <= i < |s| ==> r[i] == LowerChar(s[i])
  {
    if s == [] then [] else [LowerChar(s[0])] + Lower(s[1..])
  }

  /** Two URLs that differ at most in the case of their letters. */
  ghost predicate SameIgnoringCase(u: string, v: string)
  {
    |u| == |v| && forall i :: 0 <= i < |u| ==> LowerChar(u[i]) == LowerChar(v[i])
  }

  /** Lower-casing a lower-cased URL changes nothing. */
  lemma {:induction false} LowerIdempotent(s: string)
    ensures Lower(Lower(s)) == Lower(s)
  {
    if s != [] {
      LowerIdempotent(s[1..]);
      assert Lower(s) == [LowerChar(s[0])] + Lower(s[1..]);
      assert Lower(Lower(s)) == [LowerChar(LowerChar(s[0]))] + Lower(Lower(s)[1..]);
      assert Lower(s)[1..] == Lower(s[1..]);
    }
  }

  /** URLs that agree up to case have the same lower-case form, and only they do. */
  lemma LowerEqualIffSameIgnoringCase(u: string, v: string)
    ensures Lower(u) == Lower(v) <==> SameIgnoringCase(u, v)
  {
    if SameIgnoringCase(u, v) {
      assert forall i :: 0 <= i < |u| ==> Lower(u)[i] == Lower(v)[i];
    }
    if Lower(u) == Lower(v) {
      assert forall i :: 0 <= i < |u| ==> LowerChar(u[i]) == Lower(u)[i] == Lower(v)[i] == LowerChar(v[i]);
    }
  }

  // ---------------------------------------------------------------------------
  // Temporary authentication and connections.

  /** What a temporary-auth object was built for: a device's file archive on
      a destination, or a plan's security archive on a destination. */
  datatype AuthKind =
    | FileArchive(userId: string, deviceGuid: Guid, destinationGuid: Option<Guid>)
    | SecurityArchive(planUid: string, destinationGuid: Option<Guid>)

  /** A temporary-auth object and what its get_storage_url answers (None:
      the call raised). */
  datatype TmpAuth = TmpAuth(kind: AuthKind, storageUrl: Option<Url>)

  /** Why a storage connection could not be created or retrieved. */
  datatype SessionFault = StorageUrlUnavailable | ConnectionBuildFailed

  datatype Error =
    /** A KeyError on a missing member of a response. */
    | MissingKey(key: string)
    /** "No destinations found for device guid: ..." */
    | NoDestinations(deviceGuid: Guid)
    /** Py42StorageSessionInitializationError wrapping the cause. */
    | SessionInitialization(cause: SessionFault)

  /** A connection to one storage host. */
  class Connection {
    const hostAddress: Url
    const auth: Option<TmpAuth>

    /** Connection.from_host_address(url, auth=tmp_auth). */
    constructor FromHostAddress(hostAddress: Url, auth: Option<TmpAuth>)
      ensures this.hostAddress == hostAddress && this.auth == auth
    {
      this.hostAddress := hostAddress;
      this.auth := auth;
    }
  }

  /** Shares one connection per storage URL, compared without regard to case. */
  class ConnectionManager {
    /** `_session_cache`: connections keyed by the lower-cased URL. */
    var sessionCache: map<string, Connection>

    /** `session_cache or {}`. */
    constructor (sessionCache: Option<map<string, Connection>>)
      ensures this.sessionCache == if sessionCache.Some? then sessionCache.value else map[]
    {
      this.sessionCache := if sessionCache.Some? && sessionCache.value != map[] then sessionCache.value else map[];
    }

    /** The saved connection for a URL, looked up by its lower-case form. */
    function GetSavedConnectionForUrl(url: Url): (r: Option<Connection>)
      reads this
      ensures r.Some? <==> Lower(url) in sessionCache
      ensures r.Some? ==> r.value == sessionCache[Lower(url)]
    {
      if Lower(url) in sessionCache then Some(sessionCache[Lower(url)]) else None
    }

    /** Returns the saved connection for the auth's storage URL, or builds one
        and saves it under the lower-cased URL; any failure is wrapped. */
    method GetStorageConnection(tmpAuth: TmpAuth) returns (r: Result<Connection, Error>)
      modifies this
      ensures tmpAuth.storageUrl.None? ==>
        r == Failure(SessionInitialization(StorageUrlUnavailable)) && sessionCache == old(sessionCache)
      ensures tmpAuth.storageUrl.Some? && old(GetSavedConnectionForUrl(tmpAuth.storageUrl.value)).Some? ==>
        r == Success(old(GetSavedConnectionForUrl(tmpAuth.storageUrl.value)).value) && sessionCache == old(sessionCache)
      ensures tmpAuth.storageUrl.Some? && old(GetSavedConnectionForUrl(tmpAuth.storageUrl.value)).None? ==>
        (r.Failure? ==> r.error == SessionInitialization(ConnectionBuildFailed) && sessionCache == old(sessionCache)) &&
        (r.Success? ==>
          && fresh(r.value)
          && r.value.hostAddress == tmpAuth.storageUrl.value && r.value.auth == Some(tmpAuth)
          && sessionCache == old(sessionCache)[Lower(tmpAuth.storageUrl.value) := r.value])
      ensures r.Success? ==> GetSavedConnectionForUrl(tmpAuth.storageUrl.value) == Some(r.value)
      ensures r.Failure? ==> r.error.SessionInitialization?
    {
      if tmpAuth.storageUrl.None? {
        return Failure(SessionInitialization(StorageUrlUnavailable));
      }
      var url := tmpAuth.storageUrl.value;
      var connection := GetSavedConnectionForUrl(url);
      if connection.None? {
        // Checked again under the lock.
        connection := GetSavedConnectionForUrl(url);
        if connection.None? {
          var built: bool :| true;
          if !built {
            return Failure(SessionInitialization(ConnectionBuildFailed));
          }
          var c := new Connection.FromHostAddress(url, Some(tmpAuth));
          sessionCache := sessionCache[Lower(url) := c];
          connection := Some(c);
        }
      }
      return Success(connection.value);
    }
  }

  /** Two URLs that agree up to case find the same saved connection. */
  lemma LookupIgnoresCase(m: ConnectionManager, u: Url, v: Url)
    requires SameIgnoringCase(u, v)
    ensures m.GetSavedConnectionForUrl(u) == m.GetSavedConnectionForUrl(v)
  {
    LowerEqualIffSameIgnoringCase(u, v);
  }

  /** A second request for the same storage URL, in any case, is answered
      with the connection the first one created. */
  method ConnectionReuseScenario(kind: AuthKind, url: Url, other: Url) returns (first: Result<Connection, Error>, second: Result<Connection, Error>)
    requires SameIgnoringCase(url, other)
    ensures first.Success? ==> second == first
    ensures first.Failure? ==> first.error == SessionInitialization(ConnectionBuildFailed)
  {
    var manager := new ConnectionManager(None);
    first := manager.GetStorageConnection(TmpAuth(kind, Some(url)));
    LookupIgnoresCase(manager, url, other);
    second := manager.GetStorageConnection(TmpAuth(kind, Some(other)));
  }

  // ---------------------------------------------------------------------------
  // Destination defaulting.

  /** One entry of a device's `backupUsage` list. */
  datatype BackupUsage = BackupUsage(targetComputerGuid: Member<Guid>)

  /** The device service's answer to get_by_guid(..., include_backup_usage=True). */
  datatype DeviceResponse = DeviceResponse(backupUsage: Member<seq<BackupUsage>>)

  /** The first destination the device backs up to: a missing `backupUsage`
      raises KeyError, a null or empty one raises "no destinations", and the
      first entry's `targetComputerGuid` is returned as it is (null included). */
  function AutoSelectDestinationGuid(deviceGuid: Guid, response: DeviceResponse): (r: Result<Option<Guid>, Error>)
    ensures response.backupUsage.Absent? ==> r == Failure(MissingKey("backupUsage"))
    ensures response.backupUsage.Null? || response.backupUsage == Present([]) ==>
      r == Failure(NoDestinations(deviceGuid))
    ensures r.Success? <==>
      response.backupUsage.Present? && response.backupUsage.value != [] &&
      !response.backupUsage.value[0].targetComputerGuid.Absent?
    ensures r.Success? ==> r.value == GetOrNone(response.backupUsage.value[0].targetComputerGuid)
    ensures r.Failure? && response.backupUsage.Present? && response.backupUsage.value != [] ==>
      r == Failure(MissingKey("targetComputerGuid"))
  {
    match response.backupUsage
    case Absent => Failure(MissingKey("backupUsage"))
    case Null => Failure(NoDestinations(deviceGuid))
    case Present(destinations) =>
      if destinations == [] then Failure(NoDestinations(deviceGuid))
      else
        match destinations[0].targetComputerGuid
        case Absent => Failure(MissingKey("targetComputerGuid"))
        case Null => Success(None)
        case Present(g) => Success(Some(g))
  }

  /** A service over one storage archive. */
  datatype StorageArchiveService = StorageArchiveService(connection: Connection)

  /** Creates storage services from temporary authentication. */
  class StorageServiceFactory {
    const connectionManager: ConnectionManager
    /** The device service's get_by_guid with backup usage. */
    const deviceService: Guid -> DeviceResponse
    /** What get_storage_url answers for an auth object of each kind. */
    const storageUrls: AuthKind -> Option<Url>

    constructor (connectionManager: ConnectionManager, deviceService: Guid -> DeviceResponse,
                 storageUrls: AuthKind -> Option<Url>)
      ensures this.connectionManager == connectionManager
      ensures this.deviceService == deviceService && this.storageUrls == storageUrls
    {
      this.connectionManager := connectionManager;
      this.deviceService := deviceService;
      this.storageUrls := storageUrls;
    }

    /** The destination create_archive_service uses: the given one, or, only
        when none is given, the device's first destination. */
    function ArchiveDestination(deviceGuid: Guid, destinationGuid: Option<Guid>): (r: Result<Option<Guid>, Error>)
      ensures destinationGuid.Some? ==> r == Success(destinationGuid)
      ensures destinationGuid.None? ==> r == AutoSelectDestinationGuid(deviceGuid, deviceService(deviceGuid))
    {
      if destinationGuid.Some? then Success(destinationGuid)
      else AutoSelectDestinationGuid(deviceGuid, deviceService(deviceGuid))
    }

    /** An archive service over the storage connection for the device's
        file archive on the chosen destination, as user "my". */
    method CreateArchiveService(deviceGuid: Guid, destinationGuid: Option<Guid>)
      returns (r: Result<StorageArchiveService, Error>)
      modifies connectionManager
      ensures ArchiveDestination(deviceGuid, destinationGuid).Failure? ==>
        r == Failure(ArchiveDestination(deviceGuid, destinationGuid).error)
        && connectionManager.sessionCache == old(connectionManager.sessionCache)
      ensures r.Failure? && ArchiveDestination(deviceGuid, destinationGuid).Success? ==>
        r.error.SessionInitialization? && connectionManager.sessionCache == old(connectionManager.sessionCache)
      ensures r.Success? ==>
        && ArchiveDestination(deviceGuid, destinationGuid).Success?
        && var kind := FileArchive("my", deviceGuid, ArchiveDestination(deviceGuid, destinationGuid).value);
        && storageUrls(kind).Some?
        && var url := storageUrls(kind).value;
        && var saved := old(connectionManager.GetSavedConnectionForUrl(url));
        && connectionManager.GetSavedConnectionForUrl(url) == Some(r.value.connection)
        && (saved.Some? ==>
              r.value.connection == saved.value
              && connectionManager.sessionCache == old(connectionManager.sessionCache))
        && (saved.None? ==>
              && fresh(r.value.connection)
              && r.value.connection.hostAddress == url
              && r.value.connection.auth == Some(TmpAuth(kind, storageUrls(kind)))
              && connectionManager.sessionCache == old(connectionManager.sessionCache)[Lower(url) := r.value.connection])
    {
      var destination := destinationGuid;
      if destination.None? {
        var selected := AutoSelectDestinationGuid(deviceGuid, deviceService(deviceGuid));
        if selected.Failure? {
          return Failure(selected.error);
        }
        destination := selected.value;
      }
      var kind := FileArchive("my", deviceGuid, destination);
      var connection := connectionManager.GetStorageConnection(TmpAuth(kind, storageUrls(kind)));
      if connection.Failure? {
        return Failure(connection.error);
      }
      return Success(StorageArchiveService(connection.value));
    }
  }
}
