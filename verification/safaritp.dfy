/** The Safari Technology Preview adapter of the driver manager.

    The browser ships its driver (`safaridriver`) inside the application
    bundle, so the adapter never downloads anything: it answers from constant
    data, probes the one installed binary for its version, and refuses every
    operation that would need an online index.

    The configuration, HTTP client and logger are owned by the adapter but
    their internals belong to other parts of the program, so the manager is
    generic over them: `C` (configuration), `H` (HTTP client), `L` (logger). */
module SafariTP {
  import opened Results

  /** The operating systems the path table is keyed by. */
  datatype OS = Windows | MacOS | Linux

  /** Release channel names, as the engine spells them. */
  const Stable: string := "stable"

  /** A key of the browser path table. */
  datatype BrowserPath = BrowserPath(os: OS, channel: string)

  /** The aliases a user may give for this browser; the first is canonical. */
  const SafariTPNames: seq<string> := [
    "safaritp",
    "safari technology preview",
    "safari\\ technology\\ preview",
    "safaritechnologypreview"
  ]

  const SafariTPDriverName: string := "safaridriver"

  /** The application bundle. */
  const SafariTPPath: string := "/Applications/Safari Technology Preview.app"

  /** The browser executable inside the bundle. */
  const SafariTPFullPath: string :=
    "/Applications/Safari Technology Preview.app/Contents/MacOS/Safari Technology Preview"

  /** An error an adapter operation reports: its formatted text. */
  datatype ManagerError = Message(text: string)

  datatype Manager<C, H, L> = Manager(
    browserName: string,
    driverName: string,
    config: C,
    httpClient: H,
    log: L)

  /** The identity every manager built by `New` carries, and keeps. */
  predicate Valid<C, H, L>(m: Manager<C, H, L>) {
    m.browserName == SafariTPNames[0] && m.driverName == SafariTPDriverName
  }

  /** Builds the adapter. The default configuration is derived from the
      canonical browser name and the driver name; the HTTP client is built
      from that configuration (its timeout and proxy) and its failure is the
      constructor's failure; the logger is a fresh one. */
  function New<C, H, L>(
    defaultConfig: (string, string) -> C,
    createHttpClient: C -> Result<H, ManagerError>,
    newLogger: L
  ): (r: Result<Manager<C, H, L>, ManagerError>)
    ensures r.Success? <==> createHttpClient(defaultConfig("safaritp", "safaridriver")).Success?
    ensures r.Failure? ==> r.error == createHttpClient(defaultConfig("safaritp", "safaridriver")).error
    ensures r.Success? ==>
      && Valid(r.value)
      && GetConfig(r.value) == defaultConfig("safaritp", "safaridriver")
      && GetHttpClient(r.value) == createHttpClient(defaultConfig("safaritp", "safaridriver")).value
      && GetLogger(r.value) == newLogger
  {
    var browserName := SafariTPNames[0];
    var driverName := SafariTPDriverName;
    var config := defaultConfig(browserName, driverName);
    var client :- createHttpClient(config);
    Success(Manager(browserName, driverName, config, client, newLogger))
  }

  // ---------------------------------------------------------------------
  // Identity

  function GetBrowserName<C, H, L>(m: Manager<C, H, L>): string {
    m.browserName
  }

  function GetBrowserNamesInPath<C, H, L>(m: Manager<C, H, L>): seq<string> {
    [GetBrowserName(m)]
  }

  function GetDriverName<C, H, L>(m: Manager<C, H, L>): string {
    m.driverName
  }

  /** The canonical name is the first alias, "safaritp"; the names searched
      for on the machine are exactly that name; the driver is "safaridriver". */
  lemma IdentityOfValidManager<C, H, L>(m: Manager<C, H, L>)
    requires Valid(m)
    ensures GetBrowserName(m) == SafariTPNames[0] == "safaritp"
    ensures GetBrowserName(m) in SafariTPNames
    ensures GetBrowserNamesInPath(m) == [GetBrowserName(m)]
    ensures GetDriverName(m) == "safaridriver"
  {
  }

  // ---------------------------------------------------------------------
  // Path table

  /** The browser is installed only on macOS, stable channel, as the bundle. */
  function GetBrowserPathMap<C, H, L>(m: Manager<C, H, L>): (r: map<BrowserPath, string>)
    ensures |r| == 1
    ensures r.Keys == {BrowserPath(MacOS, "stable")}
    ensures r[BrowserPath(MacOS, "stable")] == SafariTPPath
  {
    map[BrowserPath(MacOS, Stable) := SafariTPPath]
  }

  /** Looking up any other (OS, channel) key finds nothing. */
  lemma PathMapLookup<C, H, L>(m: Manager<C, H, L>, os: OS, channel: string)
    ensures BrowserPath(os, channel) in GetBrowserPathMap(m) <==> os == MacOS && channel == "stable"
    ensures BrowserPath(os, channel) in GetBrowserPathMap(m) ==>
      GetBrowserPathMap(m)[BrowserPath(os, channel)] == SafariTPPath
  {
  }

  // ---------------------------------------------------------------------
  // Versions

  /** Asks the shared Safari version probe about the executable inside the
      bundle. The probe is the engine's helper, given here as a parameter. */
  function DiscoverBrowserVersion<C, H, L>(
    m: Manager<C, H, L>,
    discoverSafariVersion: (Manager<C, H, L>, string) -> Result<Option<string>, ManagerError>
  ): Result<Option<string>, ManagerError>
  {
    discoverSafariVersion(m, SafariTPFullPath)
  }

  /** Only the full executable path is ever probed: two probes that agree on
      that path give the same discovery result. */
  lemma DiscoveryProbesOnlyFullPath<C, H, L>(
    m: Manager<C, H, L>,
    probe1: (Manager<C, H, L>, string) -> Result<Option<string>, ManagerError>,
    probe2: (Manager<C, H, L>, string) -> Result<Option<string>, ManagerError>)
    requires probe1(m, SafariTPFullPath) == probe2(m, SafariTPFullPath)
    ensures DiscoverBrowserVersion(m, probe1) == DiscoverBrowserVersion(m, probe2)
  {
  }

  /** The driver is the one bundled with the browser: its version is the
      sentinel "(local)", never looked up. */
  function RequestDriverVersion<C, H, L>(m: Manager<C, H, L>): Result<string, ManagerError> {
    Success("(local)")
  }

  /** No browser version is ever requested from anywhere. */
  function RequestBrowserVersion<C, H, L>(m: Manager<C, H, L>): Result<Option<string>, ManagerError> {
    Success(None)
  }

  /** Both version requests answer the same for every manager state. */
  lemma VersionRequestsIgnoreState<C, H, L>(m1: Manager<C, H, L>, m2: Manager<C, H, L>)
    ensures RequestDriverVersion(m1) == RequestDriverVersion(m2) == Success("(local)")
    ensures RequestBrowserVersion(m1) == RequestBrowserVersion(m2) == Success(None)
  {
  }

  // ---------------------------------------------------------------------
  // Driver location

  /** The driver has no download URL; the error names the driver. */
  function GetDriverUrl<C, H, L>(m: Manager<C, H, L>): (r: Result<string, ManagerError>)
    ensures r.Failure?
    ensures GetDriverName(m) <= r.error.text
    ensures EndsWith(r.error.text, " not available for download")
  {
    Failure(Message(GetDriverName(m) + " not available for download"))
  }

  /** For a manager built by `New` the message is fixed, whatever its
      configuration, client or logger. */
  lemma DriverUrlMessage<C, H, L>(m: Manager<C, H, L>)
    requires Valid(m)
    ensures GetDriverUrl(m) == Failure(Message("safaridriver not available for download"))
  {
    assert SafariTPDriverName + " not available for download" == "safaridriver not available for download";
  }

  /** The driver sits next to the browser executable inside the bundle. */
  function GetDriverPathInCache<C, H, L>(m: Manager<C, H, L>): (r: Result<string, ManagerError>)
    ensures r.Success?
    ensures SafariTPPath <= r.value
    ensures EndsWith(r.value, "/" + SafariTPDriverName)
  {
    Success("/Applications/Safari Technology Preview.app/Contents/MacOS/safaridriver")
  }

  /** The executable and the driver share the bundle's `Contents/MacOS`
      directory, and both lie under the bundle path of the path table. */
  lemma BundleLayout<C, H, L>(m: Manager<C, H, L>)
    ensures SafariTPPath <= SafariTPFullPath
    ensures SafariTPPath + "/Contents/MacOS/" <= SafariTPFullPath
    ensures GetDriverPathInCache(m).value == SafariTPPath + "/Contents/MacOS/" + SafariTPDriverName
  {
  }

  // ---------------------------------------------------------------------
  // Owned collaborators: getters and setters

  function GetConfig<C, H, L>(m: Manager<C, H, L>): C {
    m.config
  }

  /** The mutable borrow of the configuration, as an edit applied in place. */
  function EditConfig<C, H, L>(m: Manager<C, H, L>, edit: C -> C): (r: Manager<C, H, L>)
    ensures GetConfig(r) == edit(GetConfig(m))
    ensures r == SetConfig(m, edit(GetConfig(m)))
  {
    m.(config := edit(m.config))
  }

  function SetConfig<C, H, L>(m: Manager<C, H, L>, config: C): (r: Manager<C, H, L>)
    ensures GetConfig(r) == config
    ensures GetHttpClient(r) == GetHttpClient(m) && GetLogger(r) == GetLogger(m)
    ensures GetBrowserName(r) == GetBrowserName(m) && GetDriverName(r) == GetDriverName(m)
    ensures Valid(m) ==> Valid(r)
  {
    m.(config := config)
  }

  function GetHttpClient<C, H, L>(m: Manager<C, H, L>): H {
    m.httpClient
  }

  function SetHttpClient<C, H, L>(m: Manager<C, H, L>, client: H): (r: Manager<C, H, L>)
    ensures GetHttpClient(r) == client
    ensures GetConfig(r) == GetConfig(m) && GetLogger(r) == GetLogger(m)
    ensures GetBrowserName(r) == GetBrowserName(m) && GetDriverName(r) == GetDriverName(m)
    ensures Valid(m) ==> Valid(r)
  {
    m.(httpClient := client)
  }

  function GetLogger<C, H, L>(m: Manager<C, H, L>): L {
    m.log
  }

  function SetLogger<C, H, L>(m: Manager<C, H, L>, log: L): (r: Manager<C, H, L>)
    ensures GetLogger(r) == log
    ensures GetConfig(r) == GetConfig(m) && GetHttpClient(r) == GetHttpClient(m)
    ensures GetBrowserName(r) == GetBrowserName(m) && GetDriverName(r) == GetDriverName(m)
    ensures Valid(m) ==> Valid(r)
  {
    m.(log := log)
  }

  /** Getter and setter round trips: setting what was read changes nothing,
      and of two settings of the same field the last one wins. */
  lemma SetterRoundTrips<C, H, L>(m: Manager<C, H, L>, c1: C, c2: C, h1: H, h2: H, l1: L, l2: L)
    ensures SetConfig(m, GetConfig(m)) == m
    ensures SetHttpClient(m, GetHttpClient(m)) == m
    ensures SetLogger(m, GetLogger(m)) == m
    ensures SetConfig(SetConfig(m, c1), c2) == SetConfig(m, c2)
    ensures SetHttpClient(SetHttpClient(m, h1), h2) == SetHttpClient(m, h2)
    ensures SetLogger(SetLogger(m, l1), l2) == SetLogger(m, l2)
  {
  }

  /** The adapter has no platform label. */
  function GetPlatformLabel<C, H, L>(m: Manager<C, H, L>): (r: string)
    ensures |r| == 0
  {
    ""
  }

  // ---------------------------------------------------------------------
  // Operations that would need an online index

  /** The shared fallback: the error the engine's unavailable-download
      helper builds from the manager it is called on, for any result type.
      The helper is defined outside this adapter, so `unavailable` is a
      parameter of every operation that uses it. */
  function UnavailableDownload<C, H, L, T>(m: Manager<C, H, L>, unavailable: Manager<C, H, L> -> ManagerError): Result<T, ManagerError> {
    Failure(unavailable(m))
  }

  function RequestLatestBrowserVersionFromOnline<C, H, L>(
    m: Manager<C, H, L>, browserVersion: string, unavailable: Manager<C, H, L> -> ManagerError
  ): Result<string, ManagerError>
  {
    UnavailableDownload(m, unavailable)
  }

  function RequestFixedBrowserVersionFromOnline<C, H, L>(
    m: Manager<C, H, L>, browserVersion: string, unavailable: Manager<C, H, L> -> ManagerError
  ): Result<string, ManagerError>
  {
    UnavailableDownload(m, unavailable)
  }

  /** `get_min_browser_version_for_download` returns an `i32`; no value is
      ever produced, so the width is immaterial. */
  function GetMinBrowserVersionForDownload<C, H, L>(
    m: Manager<C, H, L>, unavailable: Manager<C, H, L> -> ManagerError): Result<int, ManagerError>
  {
    UnavailableDownload(m, unavailable)
  }

  function GetBrowserBinaryPath<C, H, L>(
    m: Manager<C, H, L>, browserVersion: string, unavailable: Manager<C, H, L> -> ManagerError
  ): Result<string, ManagerError>
  {
    UnavailableDownload(m, unavailable)
  }

  function GetBrowserUrlForDownload<C, H, L>(
    m: Manager<C, H, L>, browserVersion: string, unavailable: Manager<C, H, L> -> ManagerError
  ): Result<string, ManagerError>
  {
    UnavailableDownload(m, unavailable)
  }

  function GetBrowserLabelForDownload<C, H, L>(
    m: Manager<C, H, L>, browserVersion: string, unavailable: Manager<C, H, L> -> ManagerError
  ): Result<Option<string>, ManagerError>
  {
    UnavailableDownload(m, unavailable)
  }

  /** The six online operations, enumerated. */
  datatype OnlineOp =
    | LatestBrowserVersionOnline
    | FixedBrowserVersionOnline
    | MinBrowserVersionForDownload
    | BrowserBinaryPath
    | BrowserUrlForDownload
    | BrowserLabelForDownload

  /** What an online operation would have produced, had it succeeded. */
  datatype OnlineValue =
    | Version(version: string)
    | MinVersion(min: int)
    | BinaryPath(path: string)
    | Url(url: string)
    | Label(labelText: Option<string>)

  function Lift<T>(r: Result<T, ManagerError>, wrap: T -> OnlineValue): Result<OnlineValue, ManagerError> {
    match r
    case Success(v) => Success(wrap(v))
    case Failure(e) => Failure(e)
  }

  /** Dispatches an online operation to its adapter method. */
  function Online<C, H, L>(
    m: Manager<C, H, L>, op: OnlineOp, browserVersion: string, unavailable: Manager<C, H, L> -> ManagerError
  ): Result<OnlineValue, ManagerError>
  {
    match op
    case LatestBrowserVersionOnline =>
      Lift(RequestLatestBrowserVersionFromOnline(m, browserVersion, unavailable), v => Version(v))
    case FixedBrowserVersionOnline =>
      Lift(RequestFixedBrowserVersionFromOnline(m, browserVersion, unavailable), v => Version(v))
    case MinBrowserVersionForDownload =>
      Lift(GetMinBrowserVersionForDownload(m, unavailable), n => MinVersion(n))
    case BrowserBinaryPath =>
      Lift(GetBrowserBinaryPath(m, browserVersion, unavailable), p => BinaryPath(p))
    case BrowserUrlForDownload =>
      Lift(GetBrowserUrlForDownload(m, browserVersion, unavailable), u => Url(u))
    case BrowserLabelForDownload =>
      Lift(GetBrowserLabelForDownload(m, browserVersion, unavailable), l => Label(l))
  }

  /** On one manager, every online operation fails with the same error, the
      one the shared helper builds for that manager, whatever browser version
      is asked for. */
  lemma OnlineOperationsUnavailable<C, H, L>(
    m: Manager<C, H, L>, op1: OnlineOp, op2: OnlineOp, v1: string, v2: string,
    unavailable: Manager<C, H, L> -> ManagerError)
    ensures Online(m, op1, v1, unavailable) == Failure(unavailable(m))
    ensures Online(m, op1, v1, unavailable) == Online(m, op2, v2, unavailable)
  {
  }
}
