/**
 * ConfigManager: read-only lookups in the loaded configuration properties.
 * Loading the properties file is not modelled; the store is given as a map.
 */
module Config {
  import opened Wrappers
  import opened JavaText

  /** The loaded java.util.Properties: key to value, no null values. */
  type Properties = map<string, string>

  const PLATFORM_TYPE_KEY: string := "platform.type"
  const APPIUM_SERVER_URL_KEY: string := "appium.server.url"

  /** getProperty(key): the stored value, or null when the key is missing; never throws. */
  function GetProperty(props: Properties, key: string): (r: Option<string>)
    ensures r.Some? <==> key in props
    ensures r.Some? ==> r.value == props[key]
  {
    if key in props then Some(props[key]) else None
  }

  /** getProperty(key, defaultValue): the stored value when present, else the default. */
  function GetPropertyOr(props: Properties, key: string, default: string): (r: string)
    ensures key in props ==> r == props[key]
    ensures key !in props ==> r == default
  {
    GetProperty(props, key).GetOr(default)
  }

  /** The two overloads agree: the defaulting one is the plain lookup with null replaced. */
  lemma GetPropertyOverloads(props: Properties, key: string, default: string)
    ensures GetProperty(props, key).Some? ==> GetPropertyOr(props, key, default) == GetProperty(props, key).value
    ensures GetProperty(props, key).None? ==> GetPropertyOr(props, key, default) == default
  {
  }

  /** getPlatformType: the raw "platform.type" value, null when unset. */
  function GetPlatformType(props: Properties): (r: Option<string>)
    ensures r.Some? <==> PLATFORM_TYPE_KEY in props
    ensures r.Some? ==> r.value == props[PLATFORM_TYPE_KEY]
  {
    GetProperty(props, PLATFORM_TYPE_KEY)
  }

  /** getAppiumServerUrl: the raw "appium.server.url" value, null when unset. */
  function GetAppiumServerUrl(props: Properties): (r: Option<string>)
    ensures r.Some? <==> APPIUM_SERVER_URL_KEY in props
    ensures r.Some? ==> r.value == props[APPIUM_SERVER_URL_KEY]
  {
    GetProperty(props, APPIUM_SERVER_URL_KEY)
  }

  /** isAndroid: "platform.type" is set and is "android" in any case. */
  function IsAndroid(props: Properties): (b: bool)
    ensures b <==> PLATFORM_TYPE_KEY in props && Lower(props[PLATFORM_TYPE_KEY]) == "android"
  {
    var t := GetPlatformType(props);
    if t.Some? then EqualsIgnoreCaseLower("android", t.value); EqualsIgnoreCase("android", t)
    else EqualsIgnoreCase("android", t)
  }

  /** isIOS: "platform.type" is set and is "ios" in any case. */
  function IsIOS(props: Properties): (b: bool)
    ensures b <==> PLATFORM_TYPE_KEY in props && Lower(props[PLATFORM_TYPE_KEY]) == "ios"
  {
    var t := GetPlatformType(props);
    if t.Some? then EqualsIgnoreCaseLower("ios", t.value); EqualsIgnoreCase("ios", t)
    else EqualsIgnoreCase("ios", t)
  }

  /** The two platform tests never both hold, and neither holds without a platform. */
  lemma PlatformsExclusive(props: Properties)
    ensures !(IsAndroid(props) && IsIOS(props))
    ensures PLATFORM_TYPE_KEY !in props ==> !IsAndroid(props) && !IsIOS(props)
  {
  }
}
