/**
 * DriverManager: the capability sets sent when a session is requested, and
 * the per-thread driver slot that initializeDriver fills and quitDriver clears.
 */
module Drivers {
  import opened Wrappers
  import opened JavaText
  import opened Config

  datatype Platform = Android | IOS

  /** A capability value: the framework sets only strings and booleans. */
  datatype CapValue = Text(text: string) | Flag(flag: bool)

  /** The capability names the two builders use. */
  datatype CapName =
    | PlatformName | DeviceName | PlatformVersion | AutomationName | App
    | AppPackage | AppActivity | AutoGrantPermissions | BundleId | NoReset | FullReset

  /** The name as it travels in the session request. */
  function WireName(n: CapName): (s: string)
    ensures |s| > 0
  {
    match n
    case PlatformName => "platformName"
    case DeviceName => "deviceName"
    case PlatformVersion => "platformVersion"
    case AutomationName => "automationName"
    case App => "app"
    case AppPackage => "appPackage"
    case AppActivity => "appActivity"
    case AutoGrantPermissions => "autoGrantPermissions"
    case BundleId => "bundleId"
    case NoReset => "noReset"
    case FullReset => "fullReset"
  }

  /**
   * Different names travel as different strings, so a capability map keyed
   * by the enumeration is the source's map keyed by wire name.
   */
  lemma WireNameInjective(m: CapName, n: CapName)
    ensures WireName(m) == WireName(n) <==> m == n
  {
  }

  type Capabilities = map<CapName, Option<CapValue>>

  /** Where a capability's value comes from. */
  datatype CapSource =
    | Fixed(value: string)                          // a literal string
    | Property(key: string)                         // getProperty(key), possibly null
    | BooleanProperty(key: string, default: string) // parseBoolean(getProperty(key, default))

  /** The capabilities createAndroidDriver sets, and where each value comes from. */
  function AndroidSource(name: CapName): Option<CapSource> {
    match name
    case PlatformName => Some(Fixed("Android"))
    case DeviceName => Some(Property("android.device.name"))
    case PlatformVersion => Some(Property("android.platform.version"))
    case AutomationName => Some(Property("android.automation.name"))
    case App => Some(Property("android.app.path"))
    case AppPackage => Some(Property("android.app.package"))
    case AppActivity => Some(Property("android.app.activity"))
    case AutoGrantPermissions => Some(BooleanProperty("auto.grant.permissions", "true"))
    case NoReset => Some(BooleanProperty("no.reset", "false"))
    case FullReset => Some(BooleanProperty("full.reset", "false"))
    case BundleId => None
  }

  /** The capabilities createIOSDriver sets, and where each value comes from. */
  function IOSSource(name: CapName): Option<CapSource> {
    match name
    case PlatformName => Some(Fixed("iOS"))
    case DeviceName => Some(Property("ios.device.name"))
    case PlatformVersion => Some(Property("ios.platform.version"))
    case AutomationName => Some(Property("ios.automation.name"))
    case App => Some(Property("ios.app.path"))
    case BundleId => Some(Property("ios.bundle.id"))
    case NoReset => Some(BooleanProperty("no.reset", "false"))
    case FullReset => Some(BooleanProperty("full.reset", "false"))
    case AutoGrantPermissions => None
    case AppPackage => None
    case AppActivity => None
  }

  function Source(platform: Platform, name: CapName): Option<CapSource> {
    match platform
    case Android => AndroidSource(name)
    case IOS => IOSSource(name)
  }

  /** A string capability value, or null. */
  function TextOrNull(s: Option<string>): Option<CapValue> {
    if s.Some? then Some(Text(s.value)) else None
  }

  /** A boolean capability: parseBoolean of the property, read with a default. */
  function BoolCap(props: Properties, key: string, default: string): Option<CapValue> {
    Some(Flag(ParseBoolean(Some(GetPropertyOr(props, key, default)))))
  }

  /**
   * The value a capability ends up with: none for a name the builder never
   * sets, and none for a missing property, since setCapability(name, null)
   * leaves the name unset.
   */
  function Resolve(props: Properties, source: Option<CapSource>): Option<CapValue> {
    match source
    case None => None
    case Some(Fixed(v)) => Some(Text(v))
    case Some(Property(k)) => TextOrNull(GetProperty(props, k))
    case Some(BooleanProperty(k, d)) => BoolCap(props, k, d)
  }

  /**
   * getCapability(name): the value set under the name, or null. A name set to
   * null reads back exactly like a name never set, so the model keeps the null.
   */
  function Get(caps: Capabilities, name: CapName): Option<CapValue> {
    if name in caps then caps[name] else None
  }

  /** A boolean capability is true exactly when the property, or else its default, is "true" in any case. */
  lemma BoolCapValue(props: Properties, key: string, default: string)
    ensures BoolCap(props, key, default) ==
      Some(Flag(if key in props then Lower(props[key]) == "true" else Lower(default) == "true"))
  {
    ParseBooleanTrue(Some(GetPropertyOr(props, key, default)));
  }

  /** What each Android capability holds, in terms of the configuration; bundleId is never set. */
  lemma AndroidCapabilityValues(props: Properties)
    ensures Resolve(props, AndroidSource(PlatformName)) == Some(Text("Android"))
    ensures Resolve(props, AndroidSource(DeviceName)) == TextOrNull(GetProperty(props, "android.device.name"))
    ensures Resolve(props, AndroidSource(PlatformVersion)) == TextOrNull(GetProperty(props, "android.platform.version"))
    ensures Resolve(props, AndroidSource(AutomationName)) == TextOrNull(GetProperty(props, "android.automation.name"))
    ensures Resolve(props, AndroidSource(App)) == TextOrNull(GetProperty(props, "android.app.path"))
    ensures Resolve(props, AndroidSource(AppPackage)) == TextOrNull(GetProperty(props, "android.app.package"))
    ensures Resolve(props, AndroidSource(AppActivity)) == TextOrNull(GetProperty(props, "android.app.activity"))
    ensures Resolve(props, AndroidSource(AutoGrantPermissions)) ==
      Some(Flag("auto.grant.permissions" !in props || Lower(props["auto.grant.permissions"]) == "true"))
    ensures Resolve(props, AndroidSource(BundleId)) == None
  {
    assert Lower("true") == "true";
    BoolCapValue(props, "auto.grant.permissions", "true");
  }

  /** What each iOS capability holds; the Android-only capabilities are never set. */
  lemma IOSCapabilityValues(props: Properties)
    ensures Resolve(props, IOSSource(PlatformName)) == Some(Text("iOS"))
    ensures Resolve(props, IOSSource(DeviceName)) == TextOrNull(GetProperty(props, "ios.device.name"))
    ensures Resolve(props, IOSSource(PlatformVersion)) == TextOrNull(GetProperty(props, "ios.platform.version"))
    ensures Resolve(props, IOSSource(AutomationName)) == TextOrNull(GetProperty(props, "ios.automation.name"))
    ensures Resolve(props, IOSSource(App)) == TextOrNull(GetProperty(props, "ios.app.path"))
    ensures Resolve(props, IOSSource(BundleId)) == TextOrNull(GetProperty(props, "ios.bundle.id"))
    ensures Resolve(props, IOSSource(AutoGrantPermissions)) == None
    ensures Resolve(props, IOSSource(AppPackage)) == None
    ensures Resolve(props, IOSSource(AppActivity)) == None
  {
  }

  /** On both platforms noReset and fullReset are set, and true only when configured "true" in any case. */
  lemma ResetFlagValues(props: Properties, platform: Platform)
    ensures Resolve(props, Source(platform, NoReset)) ==
      Some(Flag("no.reset" in props && Lower(props["no.reset"]) == "true"))
    ensures Resolve(props, Source(platform, FullReset)) ==
      Some(Flag("full.reset" in props && Lower(props["full.reset"]) == "true"))
  {
    assert Lower("false") != "true";
    BoolCapValue(props, "no.reset", "false");
    BoolCapValue(props, "full.reset", "false");
  }

  /**
   * The capability part of createAndroidDriver: a fresh DesiredCapabilities
   * filled by one setCapability call per name, in the source's order.
   */
  method CreateAndroidCapabilities(props: Properties) returns (caps: Capabilities)
    ensures forall name :: Get(caps, name) == Resolve(props, AndroidSource(name))
  {
    caps := map[];
    caps := caps[PlatformName := Some(Text("Android"))];
    caps := caps[DeviceName := TextOrNull(GetProperty(props, "android.device.name"))];
    caps := caps[PlatformVersion := TextOrNull(GetProperty(props, "android.platform.version"))];
    caps := caps[AutomationName := TextOrNull(GetProperty(props, "android.automation.name"))];
    caps := caps[App := TextOrNull(GetProperty(props, "android.app.path"))];
    caps := caps[AppPackage := TextOrNull(GetProperty(props, "android.app.package"))];
    caps := caps[AppActivity := TextOrNull(GetProperty(props, "android.app.activity"))];
    caps := caps[AutoGrantPermissions := BoolCap(props, "auto.grant.permissions", "true")];
    caps := caps[NoReset := BoolCap(props, "no.reset", "false")];
    caps := caps[FullReset := BoolCap(props, "full.reset", "false")];
    forall name ensures Get(caps, name) == Resolve(props, AndroidSource(name)) {
      match name
      case PlatformName =>
      case DeviceName =>
      case PlatformVersion =>
      case AutomationName =>
      case App =>
      case AppPackage =>
      case AppActivity =>
      case AutoGrantPermissions =>
      case BundleId =>
      case NoReset =>
      case FullReset =>
    }
  }

  /**
   * The capability part of createIOSDriver: the same, with the iOS names and
   * keys and without the Android-only capabilities.
   */
  method CreateIOSCapabilities(props: Properties) returns (caps: Capabilities)
    ensures forall name :: Get(caps, name) == Resolve(props, IOSSource(name))
  {
    caps := map[];
    caps := caps[PlatformName := Some(Text("iOS"))];
    caps := caps[DeviceName := TextOrNull(GetProperty(props, "ios.device.name"))];
    caps := caps[PlatformVersion := TextOrNull(GetProperty(props, "ios.platform.version"))];
    caps := caps[AutomationName := TextOrNull(GetProperty(props, "ios.automation.name"))];
    caps := caps[App := TextOrNull(GetProperty(props, "ios.app.path"))];
    caps := caps[BundleId := TextOrNull(GetProperty(props, "ios.bundle.id"))];
    caps := caps[NoReset := BoolCap(props, "no.reset", "false")];
    caps := caps[FullReset := BoolCap(props, "full.reset", "false")];
    forall name ensures Get(caps, name) == Resolve(props, IOSSource(name)) {
      match name
      case PlatformName =>
      case DeviceName =>
      case PlatformVersion =>
      case AutomationName =>
      case App =>
      case AppPackage =>
      case AppActivity =>
      case AutoGrantPermissions =>
      case BundleId =>
      case NoReset =>
      case FullReset =>
    }
  }

  /*
   * The driver registry. The remote Appium end is abstract: it either accepts
   * or rejects a new session, the implicit-wait setting and quit.
   */

  /** A test thread, identifying its ThreadLocal copy of the driver slot. */
  type ContextId = nat

  /** How the remote end answers each request this model makes of it. */
  datatype RemoteServer = RemoteServer(acceptsSession: bool, acceptsTimeouts: bool, acceptsQuit: bool)

  /** What can go wrong inside initializeDriver's try block. */
  datatype InitCause =
    | IllegalArgument(message: string)  // neither android nor ios
    | MalformedUrl                      // new URL(null): appium.server.url is unset
    | SessionNotCreated                 // the remote end refused the session
    | NumberFormat(input: string)       // implicit.wait is not an int
    | TimeoutsRejected                  // the remote end refused implicitlyWait

  /** The RuntimeException initializeDriver throws, wrapping the cause. */
  datatype InitFailure = RuntimeException(message: string, cause: InitCause)

  /** quit() failed on the remote end; the exception propagates out of quitDriver. */
  datatype QuitFailure = WebDriverException

  const INIT_FAILURE_MESSAGE: string := "Failed to initialize driver"
  const IMPLICIT_WAIT_KEY: string := "implicit.wait"
  const DEFAULT_IMPLICIT_WAIT: string := "10"

  /** The platform initializeDriver chooses: Android first, then iOS, else none. */
  function SelectedPlatform(props: Properties): (r: Option<Platform>)
    ensures r == Some(Android) <==> IsAndroid(props)
    ensures r == Some(IOS) <==> IsIOS(props)
    ensures r == None <==> !IsAndroid(props) && !IsIOS(props)
  {
    PlatformsExclusive(props);
    if IsAndroid(props) then Some(Android) else if IsIOS(props) then Some(IOS) else None
  }

  /** The IllegalArgumentException message; string concatenation renders a null platform as "null". */
  function InvalidPlatformMessage(props: Properties): (m: string)
    ensures PLATFORM_TYPE_KEY in props ==> m == "Invalid platform type: " + props[PLATFORM_TYPE_KEY]
    ensures PLATFORM_TYPE_KEY !in props ==> m == "Invalid platform type: null"
  {
    "Invalid platform type: " + GetPlatformType(props).GetOr("null")
  }

  /** The implicit wait configureTimeouts applies, in seconds; None when parseInt throws. */
  function ImplicitWait(props: Properties): (r: Option<int>)
    ensures IMPLICIT_WAIT_KEY !in props ==> r == Some(10)
    ensures IMPLICIT_WAIT_KEY in props ==> r == ParseInt(props[IMPLICIT_WAIT_KEY])
    ensures r.Some? ==> INT_MIN <= r.value <= INT_MAX
  {
    assert Decimal(10) == DEFAULT_IMPLICIT_WAIT;
    ParseIntDecimal(10);
    ParseInt(GetPropertyOr(props, IMPLICIT_WAIT_KEY, DEFAULT_IMPLICIT_WAIT))
  }

  /** A configured implicit.wait written in decimal, within the int range, is applied as that many seconds. */
  lemma ImplicitWaitConfigured(props: Properties, seconds: nat)
    requires IMPLICIT_WAIT_KEY in props && props[IMPLICIT_WAIT_KEY] == Decimal(seconds)
    requires seconds <= INT_MAX
    ensures ImplicitWait(props) == Some(seconds)
  {
    ParseIntDecimal(seconds);
  }

  /** An AppiumDriver session. */
  class Driver {
    const platform: Platform
    const capabilities: Capabilities
    /** The implicit wait in seconds, None until it has been set. */
    var implicitWait: Option<int>
    /** Whether the remote session is still open. */
    var active: bool

    constructor (platform: Platform, capabilities: Capabilities)
      ensures this.platform == platform && this.capabilities == capabilities
      ensures implicitWait == None && active
    {
      this.platform := platform;
      this.capabilities := capabilities;
      implicitWait := None;
      active := true;
    }

    /** manage().timeouts().implicitlyWait(Duration.ofSeconds(seconds)). */
    method ImplicitlyWait(seconds: int, server: RemoteServer) returns (ok: bool)
      modifies this
      ensures ok == server.acceptsTimeouts
      ensures implicitWait == (if ok then Some(seconds) else old(implicitWait))
      ensures active == old(active)
    {
      ok := server.acceptsTimeouts;
      if ok {
        implicitWait := Some(seconds);
      }
    }

    /** quit(): ends the session unless the remote end fails the request. */
    method Quit(server: RemoteServer) returns (ok: bool)
      modifies this
      ensures ok == server.acceptsQuit
      ensures active == (if ok then false else old(active))
      ensures implicitWait == old(implicitWait)
    {
      ok := server.acceptsQuit;
      if ok {
        active := false;
      }
    }
  }

  /**
   * createAndroidDriver / createIOSDriver: the capabilities are built, then
   * new URL(getAppiumServerUrl()) fails on a null URL, and the remote end
   * accepts or refuses the session.
   */
  method CreateDriver(platform: Platform, props: Properties, server: RemoteServer)
    returns (r: Result<Driver, InitCause>)
    ensures GetAppiumServerUrl(props).None? ==> r == Failure(MalformedUrl)
    ensures GetAppiumServerUrl(props).Some? && !server.acceptsSession ==> r == Failure(SessionNotCreated)
    ensures r.Success? <==> GetAppiumServerUrl(props).Some? && server.acceptsSession
    ensures r.Success? ==>
      && fresh(r.value)
      && r.value.platform == platform
      && (forall name :: Get(r.value.capabilities, name) == Resolve(props, Source(platform, name)))
      && r.value.implicitWait == None
      && r.value.active
  {
    var caps: Capabilities;
    match platform {
      case Android =>
        caps := CreateAndroidCapabilities(props);
      case IOS =>
        caps := CreateIOSCapabilities(props);
    }
    if GetAppiumServerUrl(props).None? {
      return Failure(MalformedUrl);
    }
    if !server.acceptsSession {
      return Failure(SessionNotCreated);
    }
    var d := new Driver(platform, caps);
    return Success(d);
  }

  /** DriverManager: the ThreadLocal driver slot, one entry per test thread. */
  class DriverManager {
    var slots: map<ContextId, Driver>

    constructor ()
      ensures slots == map[]
    {
      slots := map[];
    }

    /** getDriver: the calling thread's driver, or null. */
    function GetDriver(ctx: ContextId): (r: Option<Driver>)
      reads this
      ensures r.Some? <==> ctx in slots
      ensures r.Some? ==> r.value == slots[ctx]
    {
      if ctx in slots then Some(slots[ctx]) else None
    }

    /**
     * initializeDriver: choose the platform, create the driver, store it in
     * the slot, then configure the implicit wait. Every exception is wrapped
     * in a RuntimeException; a failure after the store leaves the slot filled.
     * An earlier driver in the slot is overwritten without being quit.
     */
    method InitializeDriver(ctx: ContextId, props: Properties, server: RemoteServer)
      returns (r: Outcome<InitFailure>)
      modifies this
      ensures SelectedPlatform(props).None? ==>
        && r == Fail(RuntimeException(INIT_FAILURE_MESSAGE, IllegalArgument(InvalidPlatformMessage(props))))
        && slots == old(slots)
      ensures SelectedPlatform(props).Some? && GetAppiumServerUrl(props).None? ==>
        r == Fail(RuntimeException(INIT_FAILURE_MESSAGE, MalformedUrl)) && slots == old(slots)
      ensures SelectedPlatform(props).Some? && GetAppiumServerUrl(props).Some? && !server.acceptsSession ==>
        r == Fail(RuntimeException(INIT_FAILURE_MESSAGE, SessionNotCreated)) && slots == old(slots)
      ensures SelectedPlatform(props).Some? && GetAppiumServerUrl(props).Some? && server.acceptsSession ==>
        && ctx in slots
        && slots == old(slots)[ctx := slots[ctx]]
        && fresh(slots[ctx])
        && slots[ctx].platform == SelectedPlatform(props).value
        && (forall name :: Get(slots[ctx].capabilities, name) == Resolve(props, Source(slots[ctx].platform, name)))
        && slots[ctx].active
        && (ImplicitWait(props).None? ==>
              r == Fail(RuntimeException(INIT_FAILURE_MESSAGE,
                                         NumberFormat(GetPropertyOr(props, IMPLICIT_WAIT_KEY, DEFAULT_IMPLICIT_WAIT))))
              && slots[ctx].implicitWait == None)
        && (ImplicitWait(props).Some? && !server.acceptsTimeouts ==>
              r == Fail(RuntimeException(INIT_FAILURE_MESSAGE, TimeoutsRejected)) && slots[ctx].implicitWait == None)
        && (ImplicitWait(props).Some? && server.acceptsTimeouts ==>
              r == Pass && slots[ctx].implicitWait == ImplicitWait(props))
      ensures forall d :: d in old(slots).Values ==> d.active == old(d.active) && d.implicitWait == old(d.implicitWait)
    {
      var platform := SelectedPlatform(props);
      if platform.None? {
        return Fail(RuntimeException(INIT_FAILURE_MESSAGE, IllegalArgument(InvalidPlatformMessage(props))));
      }
      var created := CreateDriver(platform.value, props, server);
      if created.Failure? {
        return Fail(RuntimeException(INIT_FAILURE_MESSAGE, created.error));
      }
      var d := created.value;
      slots := slots[ctx := d];
      // configureTimeouts
      var input := GetPropertyOr(props, IMPLICIT_WAIT_KEY, DEFAULT_IMPLICIT_WAIT);
      var seconds := ParseInt(input);
      if seconds.None? {
        return Fail(RuntimeException(INIT_FAILURE_MESSAGE, NumberFormat(input)));
      }
      var ok := d.ImplicitlyWait(seconds.value, server);
      if !ok {
        return Fail(RuntimeException(INIT_FAILURE_MESSAGE, TimeoutsRejected));
      }
      return Pass;
    }

    /**
     * quitDriver: nothing to do with an empty slot; otherwise quit the driver
     * and clear the slot. An exception from quit() propagates before the
     * slot is cleared.
     */
    method QuitDriver(ctx: ContextId, server: RemoteServer) returns (r: Outcome<QuitFailure>)
      modifies this, if ctx in slots then {slots[ctx]} else {}
      ensures ctx !in old(slots) ==> r == Pass && slots == old(slots)
      ensures ctx in old(slots) && server.acceptsQuit ==>
        r == Pass && slots == old(slots) - {ctx} && !old(slots)[ctx].active
      ensures ctx in old(slots) && !server.acceptsQuit ==>
        r == Fail(WebDriverException) && slots == old(slots) && old(slots)[ctx].active == old(slots[ctx].active)
      ensures ctx in old(slots) ==> old(slots)[ctx].implicitWait == old(slots[ctx].implicitWait)
    {
      var current := GetDriver(ctx);
      if current.Some? {
        var ok := current.value.Quit(server);
        if !ok {
          return Fail(WebDriverException);
        }
        slots := slots - {ctx};
      }
      return Pass;
    }
  }
}
