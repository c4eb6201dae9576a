# Driver resolution and grid slot accounting, modelled in Dafny

This project models three small pieces of decision logic from Selenium. Each
is written as immutable datatypes and pure functions. Whatever they read from
the outside world comes in as a parameter.

- **SafariTP** (`safaritp.dfy`): the Safari Technology Preview adapter of the
  Rust driver manager. It holds constant identity data: the canonical name
  `"safaritp"` with three more aliases, and the driver `"safaridriver"`. Its
  path table has a single entry, macOS on the stable channel. The driver
  version is always the sentinel `"(local)"`. The driver's location is a fixed
  path inside the application bundle. The driver URL is refused with a message
  that names the driver. The six operations that would need an online index
  all return the same unavailable-download error. The manager is generic over
  its configuration, HTTP client and logger, because their internals live
  elsewhere in the program.
- **DriverFinder** (`driver_finder.dfy`): how a Java driver service finds its
  driver. Null options are rejected first. An explicit path in the service's
  system property takes precedence over the driver manager (the resolver). A
  runtime failure of the resolver becomes a plain `WebDriverException` whose message
  starts with `"Unable to obtain: "`. The path is then checked for null, then
  existence, then executability, and the first failing check picks the
  message. Null options are refused with the `IllegalArgumentException` of
  the argument check. A null service, property name or resolver answer
  throws a `NullPointerException`, and an empty property name the
  `IllegalArgumentException` of the property lookup. System properties, the
  resolver and the two file predicates form an `Environment` of total
  functions.
- **Grid** (`grid.dfy`): the GraphQL view of the grid. It checks its
  constructor arguments and returns its URL. It lists one node per node
  summary. It counts total slots as the sum over nodes of
  `min(maxSessionCount, sum of stereotype counts)`, and used slots as the sum
  of the used-stereotype counts. All of this is read from one memoized status
  snapshot.
- **Results** (`results.dfy`): `Option` and `Result`. They stand for Java's
  nullable references and thrown exceptions, and for Rust's `Option` and
  `Result`.

## Model

| member | source | states |
|---|---|---|
| SafariTP.New | rust/src/safaritp.rs:50-63 | the manager is built exactly when the HTTP client can be built from the default configuration for ("safaritp", "safaridriver"), and otherwise fails with the client's error; a built manager has the canonical identity, that configuration, that client and the fresh logger |
| SafariTP.IdentityOfValidManager | rust/src/safaritp.rs:67-73 | the browser name is the first alias "safaritp" and one of the aliases, the names searched in the path are exactly the singleton of the browser name, and the driver name is "safaridriver" |
| SafariTP.GetBrowserPathMap | rust/src/safaritp.rs:83-85 | the path table has exactly one entry, keyed (macOS, "stable"), mapping to the application bundle path |
| SafariTP.PathMapLookup | rust/src/safaritp.rs:83-85 | a lookup finds an entry iff the key is (macOS, "stable"), and what it finds is the bundle path; every other key is absent |
| SafariTP.DiscoveryProbesOnlyFullPath | rust/src/safaritp.rs:87-89 | version discovery consults the shared probe only at the executable inside the bundle: probes that agree there give the same answer |
| SafariTP.VersionRequestsIgnoreState | rust/src/safaritp.rs:95-101 | for every manager state the driver version request gives Ok("(local)") and the browser version request gives Ok(None) |
| SafariTP.GetDriverUrl | rust/src/safaritp.rs:103-105 | the driver URL request always fails with a message that starts with the driver name and ends in " not available for download" |
| SafariTP.DriverUrlMessage | rust/src/safaritp.rs:103-105 | for a manager with the canonical identity the message is exactly "safaridriver not available for download", whatever its configuration, client or logger |
| SafariTP.GetDriverPathInCache | rust/src/safaritp.rs:107-111 | the driver path always succeeds, begins with the bundle path and ends in "/safaridriver" |
| SafariTP.BundleLayout | rust/src/safaritp.rs:37-39 | the executable path lies under the bundle path, in its Contents/MacOS directory, which is where the driver path puts "safaridriver" |
| SafariTP.EditConfig | rust/src/safaritp.rs:117-119 | editing through the mutable borrow gives the edited configuration and is the same as setting it |
| SafariTP.SetConfig | rust/src/safaritp.rs:121-123 | the getter then returns the new configuration; client, logger, browser name and driver name are unchanged, so the canonical identity is kept |
| SafariTP.SetHttpClient | rust/src/safaritp.rs:79-81 | the getter then returns the new client; configuration, logger, browser name and driver name are unchanged |
| SafariTP.SetLogger | rust/src/safaritp.rs:129-131 | the getter then returns the new logger; configuration, client, browser name and driver name are unchanged |
| SafariTP.SetterRoundTrips | rust/src/safaritp.rs:113-131 | setting the value just read changes nothing, and of two settings of one field the last one wins |
| SafariTP.GetPlatformLabel | rust/src/safaritp.rs:133-135 | the platform label is the empty string |
| SafariTP.OnlineOperationsUnavailable | rust/src/safaritp.rs:137-174 | on one manager, each of the six online operations fails with the error the shared unavailable-download helper builds for that manager, so all six give the same result, whatever browser version argument is passed |
| DriverFinder.ObtainFailureMessage | java/src/org/openqa/selenium/remote/service/DriverFinder.java:41-44 | the message for a resolver failure starts with "Unable to obtain: " followed by the options' rendering, and ends with ", error " followed by the failure's message ("null" when it has none) |
| DriverFinder.Validate | java/src/org/openqa/selenium/remote/service/DriverFinder.java:47-63 | it succeeds iff the path is present, exists and is executable, and then returns its input unchanged; otherwise the first failing check decides the one NoSuchDriverException message: null path, then missing file, then not executable; a null driver name appears as "null" |
| DriverFinder.GetPath | java/src/org/openqa/selenium/remote/service/DriverFinder.java:34-64 | null options fail with the null-argument error for "Browser options" (the IllegalArgumentException of the argument check), and then a null service throws a NullPointerException; a NullPointerException comes exactly from a null service, a null property name or a null resolver answer; the IllegalArgumentException of the property lookup comes exactly from an empty property name; a success carries a present, existing, executable path; a plain WebDriverException (the one thrown at line 42, not its NoSuchDriverException subclass) arises only from a resolver failure when there is no explicit path, and its message starts with "Unable to obtain: "; an explicit path is what gets validated |
| DriverFinder.OfflineFlagReachesOnlyResolver | java/src/org/openqa/selenium/remote/service/DriverFinder.java:30-32 | the two-argument overload equals the three-argument one with offline false, and with an explicit path the offline flag changes nothing |
| DriverFinder.NullOptionsCheckedFirst | java/src/org/openqa/selenium/remote/service/DriverFinder.java:35 | with null options the outcome is a failure that depends on neither the service (null or not), the offline flag nor any part of the environment |
| DriverFinder.OverrideSkipsResolver | java/src/org/openqa/selenium/remote/service/DriverFinder.java:36-41 | when the system property holds a path, replacing the resolver by any other changes nothing: it is never invoked |
| DriverFinder.ResolverUsedWithoutOverride | java/src/org/openqa/selenium/remote/service/DriverFinder.java:38-45 | without an explicit path the resolver's output is what gets validated, a null output throws a NullPointerException, and a runtime failure becomes a plain WebDriverException with the "Unable to obtain: " message |
| DriverFinder.GetPathSucceedsIff | java/src/org/openqa/selenium/remote/service/DriverFinder.java:47-60 | the finder succeeds iff options and service are given, the chosen candidate is obtained, and its path is present, exists and is executable |
| Grid.NewGrid | java/server/src/org/openqa/selenium/grid/graphql/Grid.java:34-43 | a null distributor is reported first, then a null URL, each as the null-argument error (an IllegalArgumentException) naming it; otherwise the grid is built, its URL is exactly the one given and its snapshot is the distributor's status |
| Grid.Nodes | java/server/src/org/openqa/selenium/grid/graphql/Grid.java:45-49 | the node listing has one node per summary, in the same order, each copying id, URI, up-flag and maximum session count |
| Grid.Contribution | java/server/src/org/openqa/selenium/grid/graphql/Grid.java:52-56 | a node's contribution is one of its maximum session count and its stereotype slot sum, and at most either |
| Grid.GetTotalSlots | java/server/src/org/openqa/selenium/grid/graphql/Grid.java:51-59 | the node-by-node total equals the sum of the per-node contributions over the snapshot |
| Grid.GetUsedSlots | java/server/src/org/openqa/selenium/grid/graphql/Grid.java:61-66 | the node-by-node total equals the sum over nodes of their used-stereotype counts |
| Grid.TotalSlotsAppend | java/server/src/org/openqa/selenium/grid/graphql/Grid.java:51-59 | total slots are additive over a split of the node list |
| Grid.UsedSlotsAppend | java/server/src/org/openqa/selenium/grid/graphql/Grid.java:61-66 | used slots are additive over a split of the node list |
| Grid.TotalSlotsBounded | java/server/src/org/openqa/selenium/grid/graphql/Grid.java:51-59 | total slots are at most the sum of the listed nodes' maximum session counts and at most the sum of all stereotype slot counts |
| Grid.SlotsNonNegative | java/server/src/org/openqa/selenium/grid/graphql/Grid.java:51-66 | with non-negative counts and session limits, total and used slots are non-negative |

## Left out

- The HTTP client, the logger and the configuration are type parameters of
  the manager. Building the default configuration, building the client from
  the configuration's timeout and proxy, and making a new logger are
  parameters of `SafariTP.New`. Their internals are defined elsewhere in the
  program.
- The shared Safari version probe is defined elsewhere in the program. It is
  a parameter of `SafariTP.DiscoverBrowserVersion`, so what it does when the
  binary is missing is not modelled.
- The unavailable-download helper is also defined elsewhere. It is a
  parameter of the six online operations that builds an error from the
  manager, so the text it formats is not modelled.
- Alias matching (case-insensitive, separator-tolerant) is done by the
  engine, not by this adapter. Only the alias list is modelled.
- The three setters and the mutable configuration borrow assign through
  `&mut self`. They are modelled as functions that return the updated
  manager (`SafariTP.SetConfig`, `SafariTP.SetHttpClient`,
  `SafariTP.SetLogger`, `SafariTP.EditConfig`). The other `&mut self` methods
  of this adapter, apart from `SafariTP.DiscoverBrowserVersion` (below),
  assign nothing and take the manager by value.
- SafariTP.DiscoverBrowserVersion: passes `&mut self` on to the shared
  version probe, which is defined elsewhere. The model assumes that the
  probe leaves the manager unchanged.
- SafariTP.GetMinBrowserVersionForDownload: returns `int`, not a 32-bit
  integer. It never produces a value, so the width does not matter.
- Unlike the six online operations, `get_driver_url` does not use the
  shared unavailable-download helper. It returns its own message,
  "<driver> not available for download" (rust/src/safaritp.rs:103-105), and
  `SafariTP.GetDriverUrl` models exactly that.
- DriverFinder: `System.getProperty`, the driver manager process and the
  `File.exists` / `canExecute` checks are fields of the `Environment`. No
  real file system or process is involved. The file may change between the
  two checks; that is not modelled, since each check is one predicate.
- DriverFinder.GetPath: the null-argument error (`NullArgument`) is the
  `IllegalArgumentException` the `Require` helper throws. The model keeps it
  apart from the one the empty property lookup throws. It names the
  argument but not the exact text the helper formats. That helper is not
  part of this model.
- DriverFinder.GetPath: a null service, a null property name and a null
  resolver answer are all modelled as one `NullPointerException`, without
  the message the Java runtime attaches.
- DriverFinder.GetPath: the exception chaining (the resolver's exception as
  cause) is not modelled. The options' `toString` is an opaque string.
- Grid.GetTotalSlots: sums use mathematical integers. The Java `int` sums
  wrap around on overflow, and that is not modelled.
- Grid.GetUsedSlots: sums use mathematical integers, while the Java `int`
  sums wrap around on overflow.
- Grid: a `Grid` value holds one immutable snapshot, so all queries of one
  grid read the same status by construction. No separate lemma states this.
  The snapshot is modelled as taken at construction. The real grid asks
  the distributor lazily, at the first query, and caches that answer. The
  thread safety of that cache and the distributor service itself are not
  modelled. A stereotype map is a list of (stereotype, count) entries; key
  uniqueness is not modelled, since only the counts are summed.
- `dotnet/src/webdriver/BiDi/Modules/Network/RequestData.cs` is a plain data
  record with no behaviour, so nothing in it is modelled.
