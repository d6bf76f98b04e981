# Appium test framework core, modelled in Dafny

This project models the core of a small Appium mobile test framework written in Java:

- **Configuration.** Look up keys in the loaded `config.properties`, with or without a default, and tell the platform ("android" or "ios", case ignored).
- **Driver registry.** `DriverManager` builds the Android or iOS capability set from the configuration. It opens a session on an abstract remote Appium end and keeps the driver in a per-thread slot. It then configures the implicit wait, and later quits the driver and clears the slot.
- **Screenshot names.** `ScreenshotUtils` sanitizes the requested name and appends an optional timestamp and `.png`. It prefixes the screenshot directory and reports a path, null, or an uncaught exception, depending on what the I/O does.
- **Page objects.**
  - `BasePage` offers click, enterText, getText and isDisplayed, each over both a field proxy and a `By` locator, plus waitForElement.
  - `SampleAndroidPage` and `SampleIOSPage` are the same login page with different locators.

Modules follow the Java classes, with two helper modules (`Wrappers`, `JavaText`) and the screen the pages act on (`Ui`):

| module | file | models |
|---|---|---|
| `Wrappers` | wrappers.dfy | `Option`, `Result`, `Outcome` (normal completion or a thrown exception) |
| `JavaText` | java_text.dfy | the JDK string operations the core relies on: `equalsIgnoreCase`, `Boolean.parseBoolean`, `Integer.parseInt` |
| `Config` | config.dfy | `ConfigManager` over a given properties map |
| `Drivers` | drivers.dfy | `DriverManager`: capability builders, `Driver`, the `DriverManager` slot map |
| `Ui` | screen.dfy | the remote screen: elements by locator, the log of element actions, and their replay |
| `Waits` | waits.dfy | `WaitUtils` as an oracle over the screen, plus its default timeout |
| `Pages` | pages.dfy | `BasePage` and the login trace common to both sample pages |
| `SamplePages` | sample_pages.dfy | `SampleAndroidPage`, `SampleIOSPage` |
| `Screenshots` | screenshots.dfy | `ScreenshotUtils` file naming and capture outcomes |

Modelling decisions:

- **ThreadLocal slot.** The `ThreadLocal` driver slot is a map from a context id (one per test thread) to the driver. `get` is a lookup, `set` an update and `remove` a deletion.
- **Remote Appium end.** It is a value saying whether it accepts a new session, the implicit-wait request and `quit()`.
- **Screen.** The application screen is a map from locator to element state: text, displayed, enabled, and `readyAfter`.
  - `readyAfter` is the number of seconds a wait needs before the element is in that state. A wait with timeout `t` checks the condition at least once. It succeeds exactly when the element exists, meets the condition and `readyAfter` is at most `t`, or at most 0 when `t` is negative.
  - Every `clear()`, `sendKeys()` and `click()` is appended to a log. So is every screen the application renders on its own between two framework calls (`Ui.Screen.Respond`), such as the page that follows a login click. The screen's invariant is that its elements are the initial screen with the log replayed.
  - A framework call changes only the text of its target. Anything else arrives through a rendered screen: an element appearing or going away, being shown, or being enabled.
- **Clock.** The clock reading for the screenshot timestamp is a parameter. Whether a driver is present, and whether the screenshot and the copy succeed, are also parameters.
- **Capability names.** They are an enumeration whose wire names (`WireName`) are the strings set in lines 63-72 and 87-94 of DriverManager.java. A capability set to null reads back as null, exactly as a name never set.

Where the code's own comments promise more than it does, or where it makes no check that a reader might expect, the model follows the code:

- **isWelcomeMessageDisplayed.** Its Javadoc promises "true if displayed, false otherwise" (SampleAndroidPage.java:57, SampleIOSPage.java:57), as does the element overload of `isDisplayed` it calls (BasePage.java:114). That overload does not catch. When the welcome element is absent, the proxy lookup throws `NoSuchElementException` and the call fails instead of returning false. The model returns that exception.
- **No session check.** The `BasePage` constructor (BasePage.java:27-31) stores `DriverManager.getDriver()` without checking it. A page built before `initializeDriver` holds null; in the model its `driver` is `None`.
- **No check for missing capability properties.** The builders (DriverManager.java:62-72, 86-94) pass an unset property to `setCapability` as null and carry on. The model leaves such a capability unset.

## Model

| member | source | states |
|---|---|---|
| `JavaText.CharEqualsIgnoreCaseLower` | src/main/java/com/automation/config/ConfigManager.java:82 | Java's per-character case-insensitive test agrees with comparing lower-case forms (ASCII) |
| `JavaText.EqualsIgnoreCaseLower` | src/main/java/com/automation/config/ConfigManager.java:82 | `equalsIgnoreCase` holds iff the two strings have equal lower-case forms; both directions |
| `JavaText.ParseBooleanTrue` | src/main/java/com/automation/drivers/DriverManager.java:70-72 | `Boolean.parseBoolean` is true iff the argument is non-null and is "true" in any case |
| `JavaText.ParseInt` | src/main/java/com/automation/drivers/DriverManager.java:106 | a parsed value lies in the 32-bit range and comes from a non-empty string; everything else is a NumberFormatException |
| `JavaText.Decimal` | src/main/java/com/automation/drivers/DriverManager.java:106 | the decimal form of a number is a non-empty digit string |
| `JavaText.DecimalValue` | src/main/java/com/automation/drivers/DriverManager.java:106 | the digits of the decimal form denote the number again |
| `JavaText.ParseIntDecimal` | src/main/java/com/automation/drivers/DriverManager.java:106 | `parseInt` of the decimal form of any int-sized natural gives it back |
| `JavaText.ParseIntNegative` | src/main/java/com/automation/drivers/DriverManager.java:106 | a leading '-' parses to the negated number, down to the int minimum |
| `Config.GetProperty` | src/main/java/com/automation/config/ConfigManager.java:41-47 | the stored value when the key is present, null exactly when it is missing; never fails |
| `Config.GetPropertyOr` | src/main/java/com/automation/config/ConfigManager.java:55-59 | the stored value when the key is present, otherwise the default |
| `Config.GetPropertyOverloads` | src/main/java/com/automation/config/ConfigManager.java:41-59 | the defaulting overload is the plain lookup with null replaced by the default |
| `Config.GetPlatformType` | src/main/java/com/automation/config/ConfigManager.java:65-67 | the raw `platform.type` value, null when unset |
| `Config.GetAppiumServerUrl` | src/main/java/com/automation/config/ConfigManager.java:73-75 | the raw `appium.server.url` value, null when unset |
| `Config.IsAndroid` | src/main/java/com/automation/config/ConfigManager.java:81-83 | true iff `platform.type` is present and lower-cases to "android" |
| `Config.IsIOS` | src/main/java/com/automation/config/ConfigManager.java:89-91 | true iff `platform.type` is present and lower-cases to "ios" |
| `Config.PlatformsExclusive` | src/main/java/com/automation/config/ConfigManager.java:65-91 | the two platform tests never both hold, and neither holds without `platform.type` |
| `Drivers.WireNameInjective` | src/main/java/com/automation/drivers/DriverManager.java:63-72 | different capability names travel as different strings, both directions |
| `Drivers.BoolCapValue` | src/main/java/com/automation/drivers/DriverManager.java:70-72 | a boolean capability is true iff the property, or its default when unset, is "true" in any case |
| `Drivers.AndroidCapabilityValues` | src/main/java/com/automation/drivers/DriverManager.java:62-72 | platformName is "Android"; six names take the `android.*` properties and are null when unset; autoGrantPermissions defaults to true; bundleId is never set |
| `Drivers.IOSCapabilityValues` | src/main/java/com/automation/drivers/DriverManager.java:86-94 | platformName is "iOS"; five names take the `ios.*` properties; autoGrantPermissions, appPackage and appActivity are never set |
| `Drivers.ResetFlagValues` | src/main/java/com/automation/drivers/DriverManager.java:71-72 | on both platforms noReset and fullReset are true only when configured "true" in any case, false by default |
| `Drivers.CreateAndroidCapabilities` | src/main/java/com/automation/drivers/DriverManager.java:62-72 | after the ten setCapability calls every name holds what the Android capability table resolves it to, and no other name is set |
| `Drivers.CreateIOSCapabilities` | src/main/java/com/automation/drivers/DriverManager.java:86-94 | after the eight setCapability calls every name holds what the iOS capability table resolves it to, and no other name is set |
| `Drivers.SelectedPlatform` | src/main/java/com/automation/drivers/DriverManager.java:38-44 | Android iff isAndroid, iOS iff isIOS, none iff neither |
| `Drivers.InvalidPlatformMessage` | src/main/java/com/automation/drivers/DriverManager.java:43 | "Invalid platform type: " followed by the configured value, or by "null" when unset |
| `Drivers.ImplicitWait` | src/main/java/com/automation/drivers/DriverManager.java:106 | 10 seconds when `implicit.wait` is unset, else `parseInt` of it; any value lies in the int range |
| `Drivers.ImplicitWaitConfigured` | src/main/java/com/automation/drivers/DriverManager.java:106-107 | an `implicit.wait` written in decimal within the int range is applied as exactly that many seconds |
| `Drivers.Driver.constructor` | src/main/java/com/automation/drivers/DriverManager.java:76 | a new session has its platform and capabilities, is open, and has no implicit wait yet |
| `Drivers.Driver.ImplicitlyWait` | src/main/java/com/automation/drivers/DriverManager.java:107 | the wait is recorded iff the remote end accepts it; the session stays as it was |
| `Drivers.Driver.Quit` | src/main/java/com/automation/drivers/DriverManager.java:117 | the session closes iff the remote end accepts quit |
| `Drivers.CreateDriver` | src/main/java/com/automation/drivers/DriverManager.java:59-99 | a null server URL is a MalformedURLException, a refused session fails, otherwise a fresh open driver carrying the platform's capability set |
| `Drivers.DriverManager.constructor` | src/main/java/com/automation/drivers/DriverManager.java:20 | every thread's slot starts empty |
| `Drivers.DriverManager.GetDriver` | src/main/java/com/automation/drivers/DriverManager.java:26-28 | the calling context's driver, or null when its slot is empty |
| `Drivers.DriverManager.InitializeDriver` | src/main/java/com/automation/drivers/DriverManager.java:33-53 | invalid platform, null URL or refused session: the wrapped RuntimeException is thrown and no slot changes. Otherwise only this context's slot now holds a fresh driver, stored before the timeouts are configured. A bad `implicit.wait` or a refused wait still fails, with the slot filled. Any earlier driver is replaced without being quit |
| `Drivers.DriverManager.QuitDriver` | src/main/java/com/automation/drivers/DriverManager.java:114-121 | empty slot: no-op. Otherwise the driver is quit and the slot removed, so a second call is a no-op. A failing quit propagates and leaves the slot |
| `Ui.Step` | src/main/java/com/automation/pages/BasePage.java:62-67 | in the model, a framework element call never adds or removes an element and changes nothing but its own target's text. A click has no effect of its own, and what it triggers arrives as a rendered screen. A rendered screen replaces the old one |
| `Ui.ReplaySnoc` | src/main/java/com/automation/pages/BasePage.java:62-67 | replaying one more action is one more step |
| `Ui.ReplayAppend` | src/main/java/com/automation/pages/BasePage.java:62-67 | replaying two logs in turn is replaying their concatenation |
| `Ui.ReplayKeepsLayout` | src/main/java/com/automation/pages/BasePage.java:38-81 | in the model, a log of the framework's clear, sendKeys and click calls alone, with no rendered screen, adds or removes no element and changes no visibility, enabled state or timing |
| `Ui.EnterTextResult` | src/main/java/com/automation/pages/BasePage.java:64-65 | clear then sendKeys(text) leaves the field holding exactly `text` and every other element unchanged |
| `Ui.Clicks` | src/main/java/com/automation/pages/BasePage.java:40 | the locators a log clicked, in the order of the clicks; never more of them than the log has actions |
| `Ui.ClicksAppend` | src/main/java/com/automation/pages/BasePage.java:40 | the clicks of a concatenated log are the clicks of each part in order |
| `Ui.Screen.constructor` | src/main/java/com/automation/pages/BasePage.java:27-31 | a session's screen starts with an empty log and satisfies the replay invariant |
| `Ui.Screen.Perform` | src/main/java/com/automation/pages/BasePage.java:38-81 | one action appended to the log and applied to the elements, keeping the replay invariant |
| `Ui.Screen.Clear` | src/main/java/com/automation/pages/BasePage.java:64 | the target's text becomes empty, logged |
| `Ui.Screen.SendKeys` | src/main/java/com/automation/pages/BasePage.java:65 | the keys are appended to the target's text, logged |
| `Ui.Screen.Respond` | src/test/java/com/automation/stepdefinitions/LoginStepDefinitions.java:71-97 | the application renders a new screen between framework calls, logged and keeping the replay invariant, so the welcome check after a login click can succeed |
| `Ui.Screen.Click` | src/main/java/com/automation/pages/BasePage.java:40 | a click is logged, and by itself changes no element state in the model; the application's response is a separate `Ui.Screen.Respond` |
| `Waits.DefaultTimeout` | src/main/java/com/automation/utils/WaitUtils.java:20-21 | 20 seconds when `explicit.wait` is unset, else `parseInt` of it |
| `Waits.PollingTime` | src/main/java/com/automation/utils/WaitUtils.java:41 | a wait polls for its timeout, and for no time when the timeout is zero or negative |
| `Waits.WaitFor` | src/main/java/com/automation/utils/WaitUtils.java:38-51 | the element iff the locator finds one meeting the condition within the polling time, else a TimeoutException naming condition, locator and timeout. A zero or negative timeout still checks the condition once |
| `Waits.WaitMonotone` | src/main/java/com/automation/utils/WaitUtils.java:38-51 | a wait that succeeds also succeeds, with the same element, when given longer |
| `Waits.ConditionsNested` | src/main/java/com/automation/utils/WaitUtils.java:68-80 | clickable implies visible implies present |
| `Pages.Locate` | src/main/java/com/automation/pages/BasePage.java:29 | a field proxy finds its element iff it is present within the 10-second lookup, else throws NoSuchElementException |
| `Pages.LoginTrace` | src/main/java/com/automation/pages/SampleAndroidPage.java:82-88 | a complete performLogin makes five element calls and no application response; the username and password are typed in that order and the login button is clicked last |
| `Pages.LoginPerformed` | src/main/java/com/automation/pages/SampleAndroidPage.java:82-88 | what performLogin performs is a prefix of the full login trace |
| `Pages.LoginOutcome` | src/main/java/com/automation/pages/SampleAndroidPage.java:82-88 | performLogin completes normally iff all three fields are found |
| `Pages.LoginTraceShape` | src/main/java/com/automation/pages/SampleAndroidPage.java:82-88 | a full login is clear and type the username, clear and type the password, then exactly one click, on the login button |
| `Pages.LoginEffect` | src/main/java/com/automation/pages/SampleAndroidPage.java:82-88 | replaying a full login leaves username and password holding exactly what was typed and nothing else changed |
| `Pages.LoginPerformedCases` | src/main/java/com/automation/pages/SampleIOSPage.java:82-88 | performLogin stops after nothing, after the username or after both texts. It stops at the first field not found, and otherwise runs the whole trace |
| `Pages.FoundAfterTyping` | src/main/java/com/automation/pages/BasePage.java:62-67 | in the model, typing into an element does not change which fields the proxies find |
| `Pages.WelcomeAfterLoginResponse` | src/test/java/com/automation/stepdefinitions/LoginStepDefinitions.java:71-97 | on every start screen, whatever prefix of the login performLogin gets through never makes the welcome message appear or go away. Once the application renders the next screen, the welcome check reads exactly that screen |
| `Pages.FieldsDistinct` | src/main/java/com/automation/pages/SampleAndroidPage.java:12-22 | each page's four locators are pairwise different |
| `Pages.BasePage.constructor` | src/main/java/com/automation/pages/BasePage.java:27-31 | the page holds the driver `getDriver()` returned at construction, possibly null, and its default timeout is `Waits.DefaultTimeout` of the configuration: `explicit.wait`, 20 when unset |
| `Pages.BasePage.ClickElement` | src/main/java/com/automation/pages/BasePage.java:38-42 | a found element is clicked once and nothing else changes; a missing one throws NoSuchElementException and nothing happens |
| `Pages.BasePage.ClickLocator` | src/main/java/com/automation/pages/BasePage.java:49-54 | a clickable-wait with the default timeout; its TimeoutException propagates with no click, else exactly one click |
| `Pages.BasePage.ClearAndType` | src/main/java/com/automation/pages/BasePage.java:64-65 | clear then sendKeys are logged in that order and the element's text becomes exactly `text` |
| `Pages.BasePage.EnterTextElement` | src/main/java/com/automation/pages/BasePage.java:62-67 | on a found field, clear then type so the field holds exactly `text` and no other element changes; a missing field fails with nothing done |
| `Pages.BasePage.EnterTextLocator` | src/main/java/com/automation/pages/BasePage.java:75-81 | the same after a default-timeout visibility-wait, whose TimeoutException propagates with nothing done |
| `Pages.BasePage.GetTextElement` | src/main/java/com/automation/pages/BasePage.java:89-94 | the found element's current text, or NoSuchElementException; no state changes |
| `Pages.BasePage.GetTextLocator` | src/main/java/com/automation/pages/BasePage.java:102-108 | the text after a default-timeout visibility-wait, whose failure propagates; no state changes |
| `Pages.BasePage.IsDisplayedElement` | src/main/java/com/automation/pages/BasePage.java:116-121 | the found element's displayed flag; a lookup failure propagates |
| `Pages.BasePage.IsDisplayedLocator` | src/main/java/com/automation/pages/BasePage.java:129-140 | true iff a 5-second (not the default) visibility-wait succeeds; never fails |
| `Pages.BasePage.WaitForElement` | src/main/java/com/automation/pages/BasePage.java:148-151 | exactly the default-timeout visibility-wait: the displayed element or its TimeoutException |
| `SamplePages.SampleAndroidPage.constructor` | src/main/java/com/automation/pages/SampleAndroidPage.java:12-22 | the page's fields are the four `com.example.app:id/...` ids |
| `SamplePages.SampleAndroidPage.EnterUsername` | src/main/java/com/automation/pages/SampleAndroidPage.java:28-30 | only the username field changes, and it holds exactly the username |
| `SamplePages.SampleAndroidPage.EnterPassword` | src/main/java/com/automation/pages/SampleAndroidPage.java:36-38 | only the password field changes, and it holds exactly the password |
| `SamplePages.SampleAndroidPage.ClickLoginButton` | src/main/java/com/automation/pages/SampleAndroidPage.java:43-45 | exactly one click, on the login button, and no element changes |
| `SamplePages.SampleAndroidPage.GetWelcomeMessage` | src/main/java/com/automation/pages/SampleAndroidPage.java:51-53 | the welcome element's text unchanged, or NoSuchElementException |
| `SamplePages.SampleAndroidPage.IsWelcomeMessageDisplayed` | src/main/java/com/automation/pages/SampleAndroidPage.java:59-61 | the welcome element's displayed flag; a missing element propagates NoSuchElementException instead of false |
| `SamplePages.SampleAndroidPage.ScrollToElement` | src/main/java/com/automation/pages/SampleAndroidPage.java:69-75 | changes nothing; fails with ClassCastException iff the page holds an iOS driver |
| `SamplePages.SampleAndroidPage.PerformLogin` | src/main/java/com/automation/pages/SampleAndroidPage.java:82-88 | username, password, click in that order, stopping at the first missing field. When both text fields exist they end holding exactly what was typed. A complete login leaves the screen as replaying the full trace |
| `SamplePages.SampleIOSPage.constructor` | src/main/java/com/automation/pages/SampleIOSPage.java:12-22 | the page's fields are the ids username, password, loginButton, welcomeMessage |
| `SamplePages.SampleIOSPage.EnterUsername` | src/main/java/com/automation/pages/SampleIOSPage.java:28-30 | only the username field changes, and it holds exactly the username |
| `SamplePages.SampleIOSPage.EnterPassword` | src/main/java/com/automation/pages/SampleIOSPage.java:36-38 | only the password field changes, and it holds exactly the password |
| `SamplePages.SampleIOSPage.ClickLoginButton` | src/main/java/com/automation/pages/SampleIOSPage.java:43-45 | exactly one click, on the login button, and no element changes |
| `SamplePages.SampleIOSPage.GetWelcomeMessage` | src/main/java/com/automation/pages/SampleIOSPage.java:51-53 | the welcome element's text unchanged, or NoSuchElementException |
| `SamplePages.SampleIOSPage.IsWelcomeMessageDisplayed` | src/main/java/com/automation/pages/SampleIOSPage.java:59-61 | the welcome element's displayed flag; a missing element propagates NoSuchElementException instead of false |
| `SamplePages.SampleIOSPage.ScrollToElement` | src/main/java/com/automation/pages/SampleIOSPage.java:69-75 | changes nothing; fails with ClassCastException iff the page holds an Android driver |
| `SamplePages.SampleIOSPage.PerformLogin` | src/main/java/com/automation/pages/SampleIOSPage.java:82-88 | the same ordered trace and end state as the Android page, over the iOS fields |
| `Screenshots.ScreenshotDir` | src/main/java/com/automation/utils/ScreenshotUtils.java:22 | `screenshot.path`, or "screenshots/" when unset |
| `Screenshots.SanitizeChar` | src/main/java/com/automation/utils/ScreenshotUtils.java:72 | an ASCII letter or digit is kept, anything else becomes '_' |
| `Screenshots.Sanitize` | src/main/java/com/automation/utils/ScreenshotUtils.java:72 | same length; each character replaced on its own |
| `Screenshots.SanitizeSafe` | src/main/java/com/automation/utils/ScreenshotUtils.java:72 | a sanitized name holds only ASCII letters, digits and '_' |
| `Screenshots.SanitizeFixedPoint` | src/main/java/com/automation/utils/ScreenshotUtils.java:72 | sanitizing leaves a string unchanged iff it is already safe |
| `Screenshots.SanitizeIdempotent` | src/main/java/com/automation/utils/ScreenshotUtils.java:72 | sanitizing twice is sanitizing once |
| `Screenshots.FormatTimestamp` | src/main/java/com/automation/utils/ScreenshotUtils.java:74 | `yyyyMMdd_HHmmss` prints every field at least as wide as its pattern, so at least 15 characters, with a '_' between date and time |
| `Screenshots.TimestampSafe` | src/main/java/com/automation/utils/ScreenshotUtils.java:74 | every character of a formatted timestamp is a digit or '_' |
| `Screenshots.TimestampLayout` | src/main/java/com/automation/utils/ScreenshotUtils.java:74 | for a real date and time, `yyyyMMdd_HHmmss` gives 8 digits, '_', 6 digits |
| `Screenshots.DecimalLength` | src/main/java/com/automation/utils/ScreenshotUtils.java:74 | a number below 10^k prints in at most k digits, so the padded fields have fixed width |
| `Screenshots.ScreenshotFileName` | src/main/java/com/automation/utils/ScreenshotUtils.java:72-77 | the name keeps the requested name's length, adds '_' and the timestamp only when asked, and ends in ".png" |
| `Screenshots.ScenarioFileName` | src/main/java/com/automation/utils/ScreenshotUtils.java:38-39 | the scenario's name, always followed by '_' and the timestamp, ending in ".png" |
| `Screenshots.ScenarioNameIsTimestamped` | src/main/java/com/automation/utils/ScreenshotUtils.java:38-40 | the one-argument overload's name equals the two-argument one's with the timestamp included |
| `Screenshots.FileNameShape` | src/main/java/com/automation/utils/ScreenshotUtils.java:72-77 | ends in ".png" with a safe stem; with a real timestamp the length grows by exactly 20 (4 without one) |
| `Screenshots.FileNameHasNoSeparator` | src/main/java/com/automation/utils/ScreenshotUtils.java:72-79 | a file name never contains '/' |
| `Screenshots.Save` | src/main/java/com/automation/utils/ScreenshotUtils.java:42-55 | the path iff capture, parent and copy all succeed; a failed copy gives null; a failed capture throws WebDriverException; a null parent throws NullPointerException |
| `Screenshots.CaptureScenario` | src/main/java/com/automation/utils/ScreenshotUtils.java:29-56 | without a driver: null and no file work; with one, the capture is attempted |
| `Screenshots.CaptureNamed` | src/main/java/com/automation/utils/ScreenshotUtils.java:63-95 | without a driver: null and no file work; with one, the capture is attempted |
| `Screenshots.CaptureNamedOutcomes` | src/main/java/com/automation/utils/ScreenshotUtils.java:79-94 | with a driver, the returned path is the directory plus the file name. It comes back iff the capture works, the directory has a '/' and the copy succeeds. A failed copy gives null; a directory with no '/' throws NullPointerException |
| `Screenshots.CaptureScenarioIsNamed` | src/main/java/com/automation/utils/ScreenshotUtils.java:29-56 | the one-argument capture behaves exactly as the two-argument one with the timestamp included |

## Left out

- WaitUtils polling: `WebDriverWait` and `ExpectedConditions` are library code. A wait is the `Waits.WaitFor` oracle over each element's `readyAfter`. `waitForElementPresent`, `waitForElementInvisible` and `customWait` (a `Thread.sleep`) are not modelled.
- `Pages.BasePage.constructor` requires `explicit.wait` to parse. A value that does not makes the WaitUtils class fail to initialise, and that failure is not modelled.
- Remote session creation is abstract, because it is network I/O.
  - URL syntax is not checked beyond the null case (`MalformedUrl`).
  - A non-null malformed URL is folded into the remote end refusing the session. `initializeDriver` wraps both the same way.
- `ConfigManager.loadProperties` is file I/O in a static initializer; the properties are a given map.
- Logging is not modelled, because it has no effect on behaviour.
- Screenshot I/O is reduced to the attempted operations and success flags. That covers `getScreenshotAs`, `mkdirs` and `FileUtils.copyFile`. The `mkdirs` result is ignored, as in the code. The time zone behind the timestamp is not modelled.
- `File` path normalisation and Windows separators are not modelled. `HasParent` tests for a '/', which matches `getParentFile()` on Unix for paths ending in ".png".
- PageFactory and `AppiumFieldDecorator` reflection are not modelled. A field is a locator looked up for presence within the 10-second decorator timeout on each call.
- `Pages.BasePage.EnterTextElement` looks the proxy up once, although `clear()` and `sendKeys()` each look it up again. A framework call never removes an element (`Ui.ReplayKeepsLayout`), and the model lets the application respond only between page methods, so the second lookup finds the same element.
- `Ui.Step`: the application's own behaviour is not derived from the actions. What a click triggers, navigation, and elements appearing or going away are an arbitrary screen given to `Ui.Screen.Respond`. That screen comes between page methods, never inside one (for instance, between the steps of `performLogin`). Rendering during a wait is only the `readyAfter` abstraction.
- `Waits.WaitFor`: does not model the session's implicit wait. Inside `WebDriverWait`, every poll's `findElement` may itself block for the implicit wait (10 s by default, DriverManager.java:106-107). So a `By` wait can succeed for an element that appears after the wait's own timeout, e.g. `isDisplayed(By)`'s 5 s. The model bounds success by the wait's polling time alone and never reads `Driver.implicitWait`. Nor does a wait advance time. Each wait counts an element's `readyAfter` afresh, so an element a 20 s wait found still needs its full `readyAfter` at the next wait or proxy lookup. Only a screen rendered through `Ui.Screen.Respond` models an element becoming ready.
- `Pages.BasePage`: the page's screen is not tied to a session. In the code, the `By` overloads go through WaitUtils, which reads `DriverManager.getDriver()` at call time (WaitUtils.java:40, 70). The field proxies are bound to the driver taken at construction (BasePage.java:28-29).
  - After a second `initializeDriver`, the two kinds of lookup act on different sessions.
  - After `quitDriver`, every lookup fails on a closed session.
  - The model's page acts on one screen throughout and never fails because its session was replaced or closed.
- Element-level failures after a successful lookup are not modelled: stale element, not interactable, an `isDisplayed()` that changes between the wait and the call.
- A wait with a null driver is not modelled: the page makes no session check, and a null driver fails inside `WebDriverWait`.
- `Drivers.Driver.Quit` with quit rejected by the remote end leaves the session marked open. The real remote state after a failed quit is unknown.
- `BasePage.takeScreenshot` is not modelled: it only delegates to `captureScreenshot(name, true)`, which is `Screenshots.CaptureNamed`.
- The step definitions, hooks and runner are not modelled. They are Cucumber/TestNG orchestration; the platform branching in the steps is `isAndroid`/`isIOS`, modelled in `Config`.
- Threads run one at a time over the slot map; `ThreadLocal` isolation is the map key. No interleaving is modelled.
- Capability sets are maps without an order; the builders keep the source's call order in their bodies.
- Text is ASCII only in the case-insensitive comparisons and the lower-casing: Java's full Unicode case mapping is not modelled. `parseInt` accepts only ASCII digits, where Java also accepts other Unicode digits.
- Sanitizing counts characters as code points, as Java's regex does. A supplementary character (two UTF-16 units) becomes one '_', so Java's `String.length()` can shrink where the model's length is preserved.
