/** How a driver service finds its driver executable.

    An explicit path in the service's system property wins; otherwise the
    driver manager (the resolver) is asked. The path obtained is then checked
    for presence, existence and executability, in that order, and the first
    check that fails decides the error.

    Everything the Java code reads from outside — system properties, the
    driver manager process, the file system — is an `Environment` of total
    functions, so the finder is a pure function of its inputs. */
module DriverFinder {
  import opened Results

  /** Browser options; `description` is what their `toString` renders. */
  datatype Capabilities = Capabilities(description: string)

  /** What the finder reads from a driver service: the name of the system
      property holding an explicit driver path, and the driver's name.
      Either may be null. */
  datatype DriverService = DriverService(driverProperty: Option<string>, driverName: Option<string>)

  /** The resolver's output record; only the driver path is inspected here,
      the browser path is carried through untouched. */
  datatype ManagerOutput = ManagerOutput(driverPath: Option<string>, browserPath: Option<string>)

  /** What asking the driver manager gives: an output record, which may be
      null, or a runtime failure, whose message may be null. */
  datatype ResolverOutcome = Resolved(output: Option<ManagerOutput>) | RuntimeFailure(message: Option<string>)

  datatype Environment = Environment(
    systemProperty: string -> Option<string>,
    resolve: (Capabilities, bool) -> ResolverOutcome,
    fileExists: string -> bool,
    canExecute: string -> bool)

  /** The exceptions the finder throws. `NullArgument` is the
      `IllegalArgumentException` ("<argument> must be set") that the null
      check on a required argument throws, naming the argument; it is kept
      apart from `IllegalArgumentException`, the one a system property
      looked up under the empty name throws. `NullPointerException` is a
      null dereferenced on the way. `WebDriverException` is the plain one
      thrown for a resolver failure; `NoSuchDriverException`, a subclass of
      it in Java, is kept apart. */
  datatype FinderError =
    | NullArgument(argument: string)
    | NullPointerException
    | IllegalArgumentException
    | WebDriverException(message: string)
    | NoSuchDriverException(message: string)

  /** A path the finder accepts. */
  predicate Usable(env: Environment, path: string) {
    env.fileExists(path) && env.canExecute(path)
  }

  /** A property name a system property can be looked up under: neither
      null nor empty. */
  predicate LookupKey(service: DriverService) {
    service.driverProperty.Some? && service.driverProperty.value != ""
  }

  /** The service names a property and that property holds a path. */
  predicate HasOverride(service: DriverService, env: Environment) {
    LookupKey(service) && env.systemProperty(service.driverProperty.value).Some?
  }

  /** The service names a property and that property is unset, so the
      resolver is asked. */
  predicate AsksResolver(service: DriverService, env: Environment) {
    LookupKey(service) && env.systemProperty(service.driverProperty.value).None?
  }

  /** Java's rendering of a possibly-null string by `%s`. */
  function JavaString(s: Option<string>): string {
    if s.Some? then s.value else "null"
  }

  function ObtainFailureMessage(options: Capabilities, cause: Option<string>): (msg: string)
    ensures "Unable to obtain: " <= msg
    ensures options.description <= msg[|"Unable to obtain: "|..]
    ensures EndsWith(msg, ", error " + JavaString(cause))
  {
    "Unable to obtain: " + options.description + ", error " + JavaString(cause)
  }

  function NotFoundMessage(driverName: string): string {
    "Unable to locate or obtain " + driverName
  }

  function InvalidMessage(driverName: string, path: string): string {
    driverName + " located at " + path + ", but invalid"
  }

  function NotExecutableMessage(driverName: string, path: string): string {
    driverName + " located at " + path + ", cannot be executed"
  }

  /** The candidate output: the explicit path from the system property when
      there is one, else whatever the resolver answers. A null property name
      and a null resolver answer are dereferenced and throw; an empty
      property name is refused by the property lookup. */
  function Candidate(
    service: DriverService, options: Capabilities, offline: bool, env: Environment
  ): Result<ManagerOutput, FinderError>
  {
    if service.driverProperty.None? then
      Failure(NullPointerException)
    else if service.driverProperty.value == "" then
      Failure(IllegalArgumentException)
    else
      var overridePath := env.systemProperty(service.driverProperty.value);
      if overridePath.Some? then
        Success(ManagerOutput(overridePath, None))
      else
        match env.resolve(options, offline)
        case Resolved(None) => Failure(NullPointerException)
        case Resolved(Some(output)) => Success(output)
        case RuntimeFailure(cause) => Failure(WebDriverException(ObtainFailureMessage(options, cause)))
  }

  /** The validation chain: null, then existence, then executability, each
      failure with its own message; a candidate passing all three is returned
      as it is. */
  function Validate(service: DriverService, candidate: ManagerOutput, env: Environment): (r: Result<ManagerOutput, FinderError>)
    ensures r.Success? <==> candidate.driverPath.Some? && Usable(env, candidate.driverPath.value)
    ensures r.Success? ==> r.value == candidate
    ensures candidate.driverPath.None? ==>
      r == Failure(NoSuchDriverException(NotFoundMessage(JavaString(service.driverName))))
    ensures candidate.driverPath.Some? && !env.fileExists(candidate.driverPath.value) ==>
      r == Failure(NoSuchDriverException(
        InvalidMessage(JavaString(service.driverName), candidate.driverPath.value)))
    ensures candidate.driverPath.Some? && env.fileExists(candidate.driverPath.value)
            && !env.canExecute(candidate.driverPath.value) ==>
      r == Failure(NoSuchDriverException(
        NotExecutableMessage(JavaString(service.driverName), candidate.driverPath.value)))
  {
    var name := JavaString(service.driverName);
    if candidate.driverPath.None? then
      Failure(NoSuchDriverException(NotFoundMessage(name)))
    else if !env.fileExists(candidate.driverPath.value) then
      Failure(NoSuchDriverException(InvalidMessage(name, candidate.driverPath.value)))
    else if !env.canExecute(candidate.driverPath.value) then
      Failure(NoSuchDriverException(NotExecutableMessage(name, candidate.driverPath.value)))
    else
      Success(candidate)
  }

  /** `getPath(service, options, offline)`. */
  function GetPath(
    service: Option<DriverService>, options: Option<Capabilities>, offline: bool, env: Environment
  ): (r: Result<ManagerOutput, FinderError>)
    ensures options.None? ==> r == Failure(NullArgument("Browser options"))
    ensures options.Some? && service.None? ==> r == Failure(NullPointerException)
    ensures r.Success? ==> r.value.driverPath.Some? && Usable(env, r.value.driverPath.value)
    ensures r.Failure? && r.error.NullPointerException? ==>
      && options.Some?
      && (|| service.None?
          || service.value.driverProperty.None?
          || (AsksResolver(service.value, env) && env.resolve(options.value, offline) == Resolved(None)))
    ensures options.Some? && service.Some? && service.value.driverProperty.None? ==>
      r == Failure(NullPointerException)
    ensures options.Some? && service.Some? && service.value.driverProperty == Some("") ==>
      r == Failure(IllegalArgumentException)
    ensures r.Failure? && r.error.IllegalArgumentException? ==>
      options.Some? && service.Some? && service.value.driverProperty == Some("")
    ensures r.Failure? && r.error.WebDriverException? ==>
      && options.Some?
      && service.Some?
      && AsksResolver(service.value, env)
      && env.resolve(options.value, offline).RuntimeFailure?
      && "Unable to obtain: " <= r.error.message
    ensures options.Some? && service.Some? && HasOverride(service.value, env) ==>
      r == Validate(service.value,
                    ManagerOutput(env.systemProperty(service.value.driverProperty.value), None), env)
  {
    if options.None? then
      Failure(NullArgument("Browser options"))
    else if service.None? then
      Failure(NullPointerException)
    else
      var candidate :- Candidate(service.value, options.value, offline, env);
      Validate(service.value, candidate, env)
  }

  /** `getPath(service, options)`: the online variant. */
  function GetPathOnline(
    service: Option<DriverService>, options: Option<Capabilities>, env: Environment
  ): Result<ManagerOutput, FinderError>
  {
    GetPath(service, options, false, env)
  }

  /** The two-argument overload is the three-argument one with offline
      false; and with an explicit path the offline flag has no effect at all,
      since only the resolver receives it. */
  lemma OfflineFlagReachesOnlyResolver(
    service: Option<DriverService>, options: Option<Capabilities>, env: Environment)
    ensures GetPathOnline(service, options, env) == GetPath(service, options, false, env)
    ensures service.Some? && HasOverride(service.value, env) ==>
      GetPath(service, options, true, env) == GetPath(service, options, false, env)
  {
  }

  /** Null options are rejected before the service, the property, the
      resolver or the file system is consulted: the outcome depends on none
      of them. */
  lemma NullOptionsCheckedFirst(
    service1: Option<DriverService>, service2: Option<DriverService>,
    offline1: bool, offline2: bool, env1: Environment, env2: Environment)
    ensures GetPath(service1, None, offline1, env1) == GetPath(service2, None, offline2, env2)
    ensures GetPath(service1, None, offline1, env1).Failure?
  {
  }

  /** With an explicit path the resolver is never consulted: replacing it
      by any other resolver changes nothing. */
  lemma OverrideSkipsResolver(
    service: DriverService, options: Option<Capabilities>, offline: bool,
    env: Environment, otherResolve: (Capabilities, bool) -> ResolverOutcome)
    requires HasOverride(service, env)
    ensures GetPath(Some(service), options, offline, env)
         == GetPath(Some(service), options, offline, env.(resolve := otherResolve))
  {
  }

  /** Without an explicit path the resolver's answer is what gets validated;
      a runtime failure of the resolver becomes a WebDriverException, and a
      null answer a NullPointerException. */
  lemma ResolverUsedWithoutOverride(
    service: DriverService, options: Capabilities, offline: bool, env: Environment)
    requires AsksResolver(service, env)
    ensures env.resolve(options, offline).Resolved? && env.resolve(options, offline).output.Some? ==>
      GetPath(Some(service), Some(options), offline, env)
        == Validate(service, env.resolve(options, offline).output.value, env)
    ensures env.resolve(options, offline) == Resolved(None) ==>
      GetPath(Some(service), Some(options), offline, env) == Failure(NullPointerException)
    ensures env.resolve(options, offline).RuntimeFailure? ==>
      GetPath(Some(service), Some(options), offline, env)
        == Failure(WebDriverException(ObtainFailureMessage(options, env.resolve(options, offline).message)))
  {
  }

  /** The finder succeeds exactly when options and service are given, the
      candidate is obtained, and its path is present, exists and is
      executable. */
  lemma GetPathSucceedsIff(
    service: Option<DriverService>, options: Option<Capabilities>, offline: bool, env: Environment)
    ensures GetPath(service, options, offline, env).Success? <==>
      && options.Some?
      && service.Some?
      && Candidate(service.value, options.value, offline, env).Success?
      && Candidate(service.value, options.value, offline, env).value.driverPath.Some?
      && Usable(env, Candidate(service.value, options.value, offline, env).value.driverPath.value)
  {
  }
}
